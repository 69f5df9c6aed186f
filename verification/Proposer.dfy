/** The message counter and the proposer's fields. */
module ProposerObject {
  import opened PaxosTypes
  import opened NodeSpec

  class MsgCounter {
    const cfg: Config
    var received: set<NodeId>
    var rejected: set<NodeId>
    var granted: set<NodeId>

    constructor (cfg: Config)
      ensures this.cfg == cfg && View() == NO_COUNT
    {
      this.cfg := cfg;
      received, rejected, granted := {}, {}, {};
    }

    ghost function View(): Counter
      reads this
    {
      Counter(received, rejected, granted)
    }

    method StartNewRound()
      modifies this
      ensures View() == NO_COUNT
    {
      received, rejected, granted := {}, {}, {};
    }

    method AddReceive(n: NodeId)
      modifies this
      ensures View() == old(View()).(received := old(received) + {n})
    {
      if n !in received {
        received := received + {n};
      }
      assert received == old(received) + {n};
    }

    method AddReject(n: NodeId)
      modifies this
      ensures View() == old(View()).(rejected := old(rejected) + {n})
    {
      if n !in rejected {
        rejected := rejected + {n};
      }
      assert rejected == old(rejected) + {n};
    }

    method AddPromiseOrAccept(n: NodeId)
      modifies this
      ensures View() == old(View()).(granted := old(granted) + {n})
    {
      if n !in granted {
        granted := granted + {n};
      }
      assert granted == old(granted) + {n};
    }

    function IsPassedOnThisRound(): bool
      reads this
    {
      |granted| >= MajorityCount(cfg)
    }
  }

  class ProposerRole {
    const cfg: Config
    const me: NodeId
    const counter: MsgCounter
    var inst: nat
    var proposalId: nat
    var highestOther: nat
    var value: Value
    var highestPre: Ballot
    var isPreparing: bool
    var isAccepting: bool
    var canSkipPrepare: bool
    var wasRejected: bool
    var timeoutInst: nat

    constructor (cfg: Config, me: NodeId, counter: MsgCounter)
      requires counter.cfg == cfg && counter.View() == NO_COUNT
      ensures this.cfg == cfg && this.me == me && this.counter == counter
      ensures inst == 0 && View() == FreshProposer(1)
    {
      this.cfg, this.me, this.counter := cfg, me, counter;
      inst, proposalId, highestOther, value, highestPre := 0, 1, 0, [], NULL_BALLOT;
      isPreparing, isAccepting, canSkipPrepare, wasRejected, timeoutInst := false, false, false, false, 0;
    }

    ghost function View(): Proposer
      reads this, counter
    {
      Proposer(proposalId, highestOther, value, highestPre, isPreparing, isAccepting,
               canSkipPrepare, wasRejected, counter.View(), timeoutInst)
    }

    /** The node that `n` stands for has this proposer. */
    ghost predicate IsIn(n: Node)
      reads this, counter
    {
      n.me == me && n.inst == inst && n.prop == View()
    }

    method InitForNewPaxosInstance()
      modifies this, counter
      ensures inst == old(inst) && View() == ProposerForNewInstance(old(View()))
    {
      counter.StartNewRound();
      highestOther := 0;
      value := [];
      isPreparing := false;
      isAccepting := false;
    }

    method NewInstance()
      modifies this, counter
      ensures inst == old(inst) + 1 && View() == ProposerForNewInstance(old(View()))
    {
      inst := inst + 1;
      InitForNewPaxosInstance();
    }

    method OfferValue(v: Value, ghost n: Node)
      requires IsIn(n)
      modifies this
      ensures IsIn(NodeSpec.OfferValue(n, v))
    {
      if |value| == 0 {
        value := v;
      }
    }

    method NewPrepare()
      modifies this
      ensures View() == old(View()).(id := Max(old(proposalId), highestOther) + 1) && inst == old(inst)
    {
      var max := if proposalId > highestOther then proposalId else highestOther;
      proposalId := max + 1;
    }

    method AddPreAcceptValue(pre: Ballot, v: Value)
      modifies this
      ensures inst == old(inst) && View() == AddPreAccept(old(View()), pre, v)
    {
      if pre.IsNull() {
        return;
      }
      if pre.Above(highestPre) {
        highestPre := pre;
        value := v;
      }
    }

    method SetOtherProposalID(other: nat)
      modifies this
      ensures inst == old(inst) && View() == old(View()).(highestOther := Max(other, old(highestOther)))
    {
      if other > highestOther {
        highestOther := other;
      }
    }

    /** Enter the prepare phase and build the request. */
    method Prepare(needNewBallot: bool, ghost n: Node) returns (m: Message)
      requires IsIn(n)
      modifies this, counter
      ensures IsIn(StartPrepare(n, needNewBallot))
      ensures m == Message.Prepare(inst, me, proposalId)
      ensures if needNewBallot then m.id > old(proposalId) && m.id > old(highestOther) else m.id == old(proposalId)
    {
      isAccepting := false;
      isPreparing := true;
      canSkipPrepare := false;
      wasRejected := false;
      highestPre := NULL_BALLOT;
      if needNewBallot {
        NewPrepare();
      }
      m := Message.Prepare(inst, me, proposalId);
      counter.StartNewRound();
      timeoutInst := inst;
    }

    method CountReply(from: NodeId, rejectBy: nat)
      modifies this, counter
      ensures inst == old(inst)
      ensures var p := old(View()).(counter := Count(old(counter.View()), from, rejectBy));
        View() == if rejectBy == 0 then p else NoteReject(p, rejectBy)
    {
      counter.AddReceive(from);
      if rejectBy == 0 {
        counter.AddPromiseOrAccept(from);
      } else {
        counter.AddReject(from);
        wasRejected := true;
        SetOtherProposalID(rejectBy);
      }
    }

    /** `pass`: a majority has promised, and the accept phase is to follow. */
    method OnPrepareReply(from: NodeId, id: nat, rejectBy: nat, pre: Ballot, v: Value, ghost n: Node)
      returns (pass: bool)
      requires IsIn(n) && counter.cfg == cfg
      modifies this, counter
      ensures !n.prop.preparing || id != n.prop.id ==> !pass && IsIn(n)
      ensures n.prop.preparing && id == n.prop.id ==>
        var n1 := RecordPrepareReply(n, from, rejectBy, pre, v);
        && pass == Passed(cfg, n1.prop.counter)
        && IsIn(if pass then n1.(prop := n1.prop.(canSkip := true)) else n1)
    {
      if !isPreparing || id != proposalId {
        return false;
      }
      CountReply(from, rejectBy);
      if rejectBy == 0 {
        AddPreAcceptValue(pre, v);
      }
      pass := counter.IsPassedOnThisRound();
      if pass {
        canSkipPrepare := true;
      }
    }

    /** Enter the accept phase and build the request. */
    method Accept(lastChk: nat, ghost n: Node) returns (m: Message)
      requires IsIn(n) && n.lastChk == lastChk
      modifies this, counter
      ensures IsIn(StartAccept(n)) && m == AcceptMsg(StartAccept(n))
    {
      isPreparing := false;
      isAccepting := true;
      m := Message.Accept(inst, me, proposalId, value, lastChk);
      counter.StartNewRound();
      timeoutInst := inst;
    }

    /** `pass`: a majority has accepted, the value is chosen. */
    method OnAcceptReply(from: NodeId, id: nat, rejectBy: nat, ghost n: Node) returns (pass: bool)
      requires IsIn(n) && counter.cfg == cfg
      modifies this, counter
      ensures !n.prop.accepting || id != n.prop.id ==> !pass && IsIn(n)
      ensures n.prop.accepting && id == n.prop.id ==>
        var n1 := RecordAcceptReply(n, from, rejectBy);
        && pass == Passed(cfg, n1.prop.counter)
        && IsIn(if pass then n1.(prop := n1.prop.(accepting := false)) else n1)
    {
      if !isAccepting || id != proposalId {
        return false;
      }
      CountReply(from, rejectBy);
      pass := counter.IsPassedOnThisRound();
      if pass {
        isAccepting := false;
      }
    }

    /** A late rejection, from the instance just finished. */
    method OnExpiredReply(rejectBy: nat)
      modifies this
      ensures inst == old(inst)
      ensures View() == if rejectBy != 0 then NoteReject(old(View()), rejectBy) else old(View())
    {
      if rejectBy != 0 {
        wasRejected := true;
        SetOtherProposalID(rejectBy);
      }
    }

    method CancelPhases()
      modifies this
      ensures inst == old(inst) && View() == old(View()).(preparing := false, accepting := false)
    {
      isPreparing := false;
      isAccepting := false;
    }
  }
}
