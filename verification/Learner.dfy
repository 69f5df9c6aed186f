/** The learner's fields: the value learned in the present instance. */
module LearnerObject {
  import opened PaxosTypes
  import opened NodeSpec
  import opened AcceptorObject

  class LearnerRole {
    const cfg: Config
    const acceptor: AcceptorRole
    const log: PaxosLog
    var inst: nat
    var learnedValue: Value
    var isLearned: bool
    var newChecksum: nat

    constructor (cfg: Config, acceptor: AcceptorRole, log: PaxosLog)
      ensures this.cfg == cfg && this.acceptor == acceptor && this.log == log
      ensures inst == 0 && Idle()
    {
      this.cfg, this.acceptor, this.log := cfg, acceptor, log;
      inst, learnedValue, isLearned, newChecksum := 0, [], false, 0;
    }

    ghost predicate Idle()
      reads this
    {
      !isLearned && learnedValue == [] && newChecksum == 0
    }

    ghost predicate Holds(v: Value, chk: nat)
      reads this
    {
      isLearned && learnedValue == v && newChecksum == chk
    }

    method InitForNewPaxosInstance()
      modifies this
      ensures inst == old(inst) && Idle()
    {
      learnedValue := [];
      isLearned := false;
      newChecksum := 0;
    }

    method NewInstance()
      modifies this
      ensures inst == old(inst) + 1 && Idle()
    {
      inst := inst + 1;
      InitForNewPaxosInstance();
    }

    method LearnValueWithoutWrite(v: Value, chk: nat)
      modifies this
      ensures inst == old(inst) && Holds(v, chk)
    {
      learnedValue := v;
      isLearned := true;
      newChecksum := chk;
    }

    /** A value copied from another node's log: stored with its ballot, then learned. */
    method LearnValue(ballot: Ballot, v: Value, lastChk: nat, ghost n: Node)
      requires n.inst == inst && n.lastChk == lastChk && Idle()
      modifies this, log
      ensures inst == old(inst) && Holds(v, CopyChk(cfg, n, v))
      ensures log.records == old(log.records)[inst :=
        Record(ballot, ballot, v, CopyChk(cfg, n, v), false, OwnRecord(old(log.records), inst))]
    {
      if inst > 0 && lastChk == 0 {
        newChecksum := 0;
      } else if |v| > 0 {
        newChecksum := cfg.crc(lastChk, v);
      }
      log.WriteState(inst, Record(ballot, ballot, v, newChecksum, false, OwnRecord(log.records, inst)));
      LearnValueWithoutWrite(v, newChecksum);
    }

    method OnSendLearnValue(msgInst: nat, ballot: Ballot, v: Value, lastChk: nat, ghost n: Node)
      requires n.inst == inst && n.lastChk == lastChk && Idle()
      modifies this, log
      ensures inst == old(inst)
      ensures msgInst != inst ==> Idle() && log.records == old(log.records)
      ensures msgInst == inst ==>
        && Holds(v, CopyChk(cfg, n, v))
        && log.records == old(log.records)[inst :=
             Record(ballot, ballot, v, CopyChk(cfg, n, v), false, OwnRecord(old(log.records), inst))]
    {
      if msgInst > inst {
        return;
      }
      if msgInst == inst {
        LearnValue(ballot, v, lastChk, n);
      }
    }

    /** A success notice counts only for the very ballot the own acceptor accepted. */
    method OnProposerSendSuccess(msgInst: nat, from: NodeId, id: nat)
      requires Idle()
      modifies this
      ensures inst == old(inst)
      ensures msgInst == inst && !acceptor.accepted.IsNull() && acceptor.accepted == Ballot(id, from)
              ==> Holds(acceptor.value, acceptor.checksum)
      ensures !(msgInst == inst && !acceptor.accepted.IsNull() && acceptor.accepted == Ballot(id, from))
              ==> Idle()
    {
      if msgInst != inst {
        return;
      }
      if acceptor.accepted.IsNull() {
        return;
      }
      if acceptor.accepted != Ballot(id, from) {
        return;
      }
      LearnValueWithoutWrite(acceptor.value, acceptor.checksum);
    }
  }
}
