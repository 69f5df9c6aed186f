/** The acceptor's fields and its two handlers, writing through to the log. */
module AcceptorObject {
  import opened PaxosTypes
  import opened NodeSpec

  /** The log as the roles see it; the storage behind it has a model of its own. */
  class PaxosLog {
    var records: map<nat, Record>

    constructor ()
      ensures records == map[]
    {
      records := map[];
    }

    method WriteState(inst: nat, r: Record)
      modifies this
      ensures records == old(records)[inst := r]
    {
      records := records[inst := r];
    }

    /** The largest stored instance; None when the log is empty. */
    method GetMaxInstanceIDFromLog() returns (k: Option<nat>)
      ensures k.None? <==> records == map[]
      ensures k.Some? ==> IsNewest(records, k.value)
    {
      k := None;
      var rest := records.Keys;
      while rest != {}
        invariant rest <= records.Keys
        invariant k.None? ==> rest == records.Keys
        invariant k.Some? ==> k.value in records && forall j :: j in records && j !in rest ==> j <= k.value
        decreases rest
      {
        var j :| j in rest;
        rest := rest - {j};
        if k.None? || j > k.value {
          k := Some(j);
        }
      }
      if k.None? {
        assert records.Keys == {};
      }
    }
  }

  class AcceptorRole {
    const cfg: Config
    const me: NodeId
    const log: PaxosLog
    var inst: nat
    var promise: Ballot
    var accepted: Ballot
    var value: Value
    var checksum: nat

    constructor (cfg: Config, me: NodeId, log: PaxosLog)
      ensures this.cfg == cfg && this.me == me && this.log == log
      ensures inst == 0 && View() == FreshAcceptor()
    {
      this.cfg, this.me, this.log := cfg, me, log;
      inst, promise, accepted, value, checksum := 0, NULL_BALLOT, NULL_BALLOT, [], 0;
    }

    ghost function View(): Acceptor
      reads this
    {
      Acceptor(promise, accepted, value, checksum)
    }

    /** The node that `n` stands for has this acceptor. */
    ghost predicate IsIn(n: Node)
      reads this, log
    {
      n.me == me && n.inst == inst && n.acc == View() && n.log == log.records
    }

    method InitForNewPaxosInstance()
      modifies this
      ensures inst == old(inst) && View() == old(View()).(accepted := NULL_BALLOT, value := [], chk := 0)
    {
      accepted, value, checksum := NULL_BALLOT, [], 0;
    }

    method NewInstance()
      modifies this
      ensures inst == old(inst) + 1
      ensures View() == old(View()).(accepted := NULL_BALLOT, value := [], chk := 0)
    {
      inst := inst + 1;
      InitForNewPaxosInstance();
    }

    method Persist(lastChk: nat, ghost n: Node)
      requires IsIn(n) && n.lastChk == lastChk
      modifies this, log
      ensures IsIn(NodeSpec.Persist(cfg, n))
    {
      if inst > 0 && lastChk == 0 {
        checksum := 0;
      } else if |value| > 0 {
        checksum := cfg.crc(lastChk, value);
      }
      log.WriteState(inst, Record(promise, accepted, value, checksum, true, None));
    }

    /** Reload from the newest record. */
    method Load() returns (k: nat)
      modifies this
      ensures log.records == map[] ==> k == 0 && View() == old(View())
      ensures log.records != map[] ==> IsNewest(log.records, k) && View() == LoadAcceptor(log.records, k)
      ensures inst == k
    {
      var max := log.GetMaxInstanceIDFromLog();
      match max
      case None =>
        k := 0;
        inst := 0;
      case Some(j) =>
        k := j;
        var r := log.records[k];
        promise, accepted, value, checksum := r.promise, r.accepted, r.value, r.chk;
        inst := k;
    }

    method OnPrepare(from: NodeId, id: nat, lastChk: nat, ghost n: Node) returns (reply: Message)
      requires IsIn(n) && n.lastChk == lastChk
      modifies this, log
      ensures var r := AcceptorOnPrepare(cfg, n, from, id);
        && IsIn(r.node)
        && reply == PrepareReply(inst, me, from, id, r.rejectBy, r.pre, r.value)
    {
      var ballot := Ballot(id, from);
      if ballot.AtLeast(promise) {
        reply := PrepareReply(inst, me, from, id, 0, accepted, if accepted.id > 0 then value else []);
        promise := ballot;
        Persist(lastChk, n.(acc := n.acc.(promise := ballot)));
      } else {
        reply := PrepareReply(inst, me, from, id, promise.id, NULL_BALLOT, []);
      }
    }

    method OnAccept(from: NodeId, id: nat, v: Value, lastChk: nat, ghost n: Node) returns (reply: Message)
      requires IsIn(n) && n.lastChk == lastChk
      modifies this, log
      ensures var r := AcceptorOnAccept(cfg, n, from, id, v);
        && IsIn(r.node)
        && reply == AcceptReply(inst, me, from, id, r.rejectBy)
    {
      var ballot := Ballot(id, from);
      if ballot.AtLeast(promise) {
        promise := ballot;
        accepted := ballot;
        value := v;
        Persist(lastChk, n.(acc := n.acc.(promise := ballot, accepted := ballot, value := v)));
        reply := AcceptReply(inst, me, from, id, 0);
      } else {
        reply := AcceptReply(inst, me, from, id, promise.id);
      }
    }
  }
}
