/**
 * The object that owns one node's roles, dispatches its messages and delivers to
 * itself inside every send.  Its methods do what the handler functions say.
 */
module InstanceObject {
  import opened PaxosTypes
  import opened NodeSpec
  import opened AcceptorObject
  import opened ProposerObject
  import opened LearnerObject

  /** What the node's own copy of a message does, with everything it leads to. */
  function SelfReceive(cfg: Config, n: Node, m: Message): Out
    requires !m.Learn?
  {
    match m
    case Prepare(_, _, id) =>
      var r := AcceptorOnPrepare(cfg, n, n.me, id);
      OnPrepareReply(cfg, r.node, n.me, id, r.rejectBy, r.pre, r.value)
    case PrepareReply(_, from, _, id, rejectBy, pre, v) => OnPrepareReply(cfg, n, from, id, rejectBy, pre, v)
    case Accept(_, _, id, v, _) =>
      var r := AcceptorOnAccept(cfg, n, n.me, id, v);
      Then(Out(r.node, Effects({}, r.votes, {})), OnAcceptReply(cfg, r.node, n.me, id, r.rejectBy))
    case AcceptReply(_, from, _, id, rejectBy) => OnAcceptReply(cfg, n, from, id, rejectBy)
    case Success(i, from, id, _) => LearnBySuccess(n, i, from, id)
  }

  function Rank(m: Message): nat {
    match m
    case Prepare(_, _, _) => 5
    case PrepareReply(_, _, _, _, _, _, _) => 4
    case Accept(_, _, _, _, _) => 3
    case AcceptReply(_, _, _, _, _) => 2
    case Success(_, _, _, _) => 1
    case Learn(_, _, _, _, _, _) => 0
  }

  lemma RequestParts(cfg: Config, before: Effects, n: Node, m: Message, middle: Effects, n1: Node)
    requires m.Prepare? || m.Accept?
    requires
      if m.inst == n.inst + 1 then
        var o := LearnBySuccess(n, n.inst, m.from, m.id);
        n1 == o.node && middle == Join(before, o.fx)
      else n1 == n && middle == before
    ensures var p := AcceptorReceive(cfg, n1, m);
      OnRequest(cfg, n, m).node == p.node && Join(before, OnRequest(cfg, n, m).fx) == Join(middle, p.fx)
  {
  }

  lemma AcceptKeeps(cfg: Config, n: Node, m: Message)
    requires m.Accept?
    ensures var n' := AcceptorOnAccept(cfg, n, m.from, m.id, m.value).node;
      n' == n.(acc := n'.acc, log := n'.log)
  {
  }

  /** The execution of a stored value, from `first` up to `end`. */
  predicate PlayedFrom(me: NodeId, log: map<nat, Record>, first: nat, end: nat, l: Learned) {
    first <= l.inst < end && l.inst in log && l == Learned(me, l.inst, log[l.inst].value)
  }

  function Cleared(a: Acceptor): Acceptor {
    a.(accepted := NULL_BALLOT, value := [], chk := 0)
  }

  lemma ReloadedFrom(log: map<nat, Record>, k: nat, a: Acceptor)
    requires if log == map[] then a == FreshAcceptor() else IsNewest(log, k) && a == LoadAcceptor(log, k)
    ensures a == LoadAcceptor(log, k)
  {
  }

  lemma NothingReplayed(n: Node, k: nat, next: nat)
    requires next >= k
    ensures Replayed(n, k, next) == {}
  {
  }

  /** Acceptor, instance and replay are what a restart from `k` makes of the node. */
  lemma Reopened(n: Node, k: nat, next: nat, n': Node, before: Effects, done: Effects)
    requires var a := if next > k then Cleared(LoadAcceptor(n.log, k)) else LoadAcceptor(n.log, k);
      var i := if next > k then next else k;
      n' == Node(n.me, i, FreshProposer(a.promise.id + 1), a,
        if i > 0 && i - 1 in n.log then n.log[i - 1].chk else 0, n.log)
    requires done == Effects(before.msgs, before.votes, before.learned + Replayed(n, k, next))
    ensures n' == Reopen(n, k, next).node && done == Join(before, Reopen(n, k, next).fx)
  {
    hide Replayed, LoadAcceptor, FreshProposer;
    assert before.msgs + {} == before.msgs && before.votes + {} == before.votes;
  }

  class Instance {
    const cfg: Config
    const me: NodeId
    const log: PaxosLog
    const counter: MsgCounter
    const proposer: ProposerRole
    const acceptor: AcceptorRole
    const learner: LearnerRole
    var lastChecksum: nat
    /** What went out on the wire, and what the state machine executed. */
    var sent: set<Message>
    var executed: set<Learned>
    ghost var votes: set<Vote>

    ghost predicate Wired() {
      && me in cfg.nodes
      && proposer.cfg == cfg && proposer.me == me && proposer.counter == counter && counter.cfg == cfg
      && acceptor.cfg == cfg && acceptor.me == me && acceptor.log == log
      && learner.cfg == cfg && learner.acceptor == acceptor && learner.log == log
    }

    /** Between events all roles are in one instance and nothing is half learned. */
    ghost predicate Valid()
      reads this, proposer, acceptor, learner
    {
      Wired() && proposer.inst == acceptor.inst == learner.inst && learner.Idle()
    }

    ghost function View(): Node
      reads this, proposer, proposer.counter, acceptor, log
    {
      Node(me, acceptor.inst, proposer.View(), acceptor.View(), lastChecksum, log.records)
    }

    ghost function Done(): Effects
      reads this
    {
      Effects(sent, votes, executed)
    }

    /** Since `before`, the node has done exactly what `o` says. */
    ghost predicate Ran(before: Effects, o: Out)
      reads this, proposer, proposer.counter, acceptor, learner, log
    {
      Valid() && View() == o.node && Done() == Join(before, o.fx)
    }

    /** A new process: empty memory over whatever log the disk holds. */
    constructor (cfg: Config, me: NodeId, log: PaxosLog)
      requires me in cfg.nodes
      ensures Valid() && this.cfg == cfg && this.me == me && this.log == log
      ensures View() == Node(me, 0, FreshProposer(1), FreshAcceptor(), 0, log.records) && Done() == NO_EFFECTS
    {
      var counter := new MsgCounter(cfg);
      var acceptor := new AcceptorRole(cfg, me, log);
      this.cfg, this.me, this.log, this.counter, this.acceptor := cfg, me, log, counter, acceptor;
      proposer := new ProposerRole(cfg, me, counter);
      learner := new LearnerRole(cfg, acceptor, log);
      lastChecksum, sent, executed, votes := 0, {}, {}, {};
    }

    // -------------------------------------------------------------- start

    /**
     * Load the acceptor, play the log from `next`, the first instance the state
     * machine's checkpoint lacks, and start the proposer above the promise.  `minChosen`
     * is the first instance not cleaned away, `executes` what the state machine makes of
     * a replayed value.
     */
    method Init(next: nat, minChosen: nat, executes: nat -> bool) returns (ok: bool, ghost k: nat)
      requires Valid() && View() == Node(me, 0, FreshProposer(1), FreshAcceptor(), 0, log.records)
      modifies this, proposer, acceptor, learner
      ensures if log.records == map[] then k == 0 else IsNewest(log.records, k)
      ensures ok <==>
        if next < k then next >= minChosen && forall i :: next <= i < k ==> i in log.records && executes(i)
        else next <= k + 1 || k == 0
      ensures ok ==> Ran(old(Done()), Reopen(old(View()), k, next))
      ensures ok ==> forall i :: next <= i < k ==> Learned(me, i, log.records[i].value) in executed
      ensures forall l :: l in executed ==> l in old(executed) || PlayedFrom(me, log.records, next, k, l)
      ensures old(executed) <= executed
    {
      ghost var n, before := View(), Done();
      var newest := acceptor.Load();
      k := newest;
      ReloadedFrom(log.records, k, acceptor.View());
      hide Restart, Replayed, Reopen, LoadAcceptor, Join, FreshProposer, IsNewest;
      if next < newest {
        ok := PlayLog(next, newest, minChosen, executes);
        if !ok {
          return;
        }
      } else {
        ok := SkipAhead(next, newest);
        if !ok {
          return;
        }
        NothingReplayed(n, k, next);
      }
      StartRoles();
      Reopened(n, k, next, View(), before, Done());
    }

    /** The state machine is at least as far as the log: nothing to play. */
    method SkipAhead(next: nat, newest: nat) returns (ok: bool)
      requires Wired() && next >= newest && acceptor.inst == newest
      modifies acceptor
      ensures ok <==> next <= newest + 1 || newest == 0
      ensures ok ==> acceptor.inst == next
      ensures ok ==> acceptor.View() == if next > newest then Cleared(old(acceptor.View())) else old(acceptor.View())
    {
      if next > newest {
        if next > newest + 1 && newest != 0 {
          return false;
        }
        acceptor.InitForNewPaxosInstance();
      }
      acceptor.inst := next;
      ok := true;
    }

    /** The other roles follow the acceptor. */
    method StartRoles()
      requires Wired() && learner.Idle() && proposer.View() == FreshProposer(1)
      modifies this`lastChecksum, proposer, learner
      ensures Valid()
      ensures View() == Node(me, acceptor.inst, FreshProposer(acceptor.promise.id + 1), acceptor.View(),
        if acceptor.inst > 0 && acceptor.inst - 1 in log.records then log.records[acceptor.inst - 1].chk else 0,
        log.records)
    {
      learner.inst := acceptor.inst;
      proposer.inst := acceptor.inst;
      proposer.proposalId := acceptor.promise.id + 1;
      lastChecksum :=
        if acceptor.inst > 0 && acceptor.inst - 1 in log.records then log.records[acceptor.inst - 1].chk else 0;
    }

    method PlayLog(first: nat, end: nat, minChosen: nat, executes: nat -> bool) returns (ok: bool)
      requires first <= end
      modifies this
      ensures ok <==> first >= minChosen && forall i :: first <= i < end ==> i in log.records && executes(i)
      ensures ok ==> executed == old(executed) + Replayed(old(View()), end, first)
      ensures ok ==> forall i :: first <= i < end ==> Learned(me, i, log.records[i].value) in executed
      ensures forall l :: l in executed ==> l in old(executed) || PlayedFrom(me, log.records, first, end, l)
      ensures old(executed) <= executed
      ensures lastChecksum == old(lastChecksum) && sent == old(sent) && votes == old(votes)
    {
      ghost var n := View();
      if first < minChosen {
        return false;
      }
      for i := first to end
        invariant forall j :: first <= j < i ==> j in log.records && executes(j)
        invariant executed == old(executed) + Replayed(n, i, first)
        invariant forall j :: first <= j < i ==> Learned(me, j, log.records[j].value) in executed
        invariant forall l :: l in executed ==> l in old(executed) || PlayedFrom(me, log.records, first, end, l)
        invariant lastChecksum == old(lastChecksum) && sent == old(sent) && votes == old(votes)
      {
        if i !in log.records {
          return false;
        }
        if !executes(i) {
          return false;
        }
        executed := executed + {Learned(me, i, log.records[i].value)};
      }
      ok := true;
    }

    /** Offer one stored value to a node that lags behind. */
    method SendOne(inst: nat, to: NodeId, withChk: bool)
      requires Valid() && inst in log.records
      modifies this
      ensures Ran(old(Done()), NodeSpec.SendOne(old(View()), inst, to, withChk))
    {
      var r := log.records[inst];
      var chk := if withChk && inst > 0 && inst - 1 in log.records then log.records[inst - 1].chk else 0;
      sent := sent + {Learn(inst, me, to, r.accepted, r.value, chk)};
    }

    // -------------------------------------------------------------- proposing

    method NewValue(v: Value)
      requires Valid()
      modifies this, proposer, counter, acceptor, learner, log
      ensures Ran(old(Done()), NodeSpec.NewValue(cfg, old(View()), v))
    {
      proposer.OfferValue(v, View());
      if proposer.canSkipPrepare && !proposer.wasRejected {
        Accept();
      } else {
        Prepare(proposer.wasRejected);
      }
    }

    /** The own acceptor runs first, then the request is broadcast. */
    method Prepare(needNewBallot: bool)
      requires Valid()
      modifies this, proposer, counter, acceptor, learner, log
      ensures Ran(old(Done()), StartPrepareRound(cfg, old(View()), needNewBallot))
      decreases 6, 0
    {
      hide OnPrepareReply, AcceptorOnPrepare;
      ghost var n := View();
      var m := proposer.Prepare(needNewBallot, n);
      var _ := OnReceivePaxosMsg(m);
      sent := sent + {m};
    }

    /** The request is broadcast, then the own acceptor runs. */
    method Accept()
      requires Valid()
      modifies this, proposer, counter, acceptor, learner, log
      ensures Ran(old(Done()), StartAcceptRound(cfg, old(View())))
      decreases 4, 0
    {
      hide OnAcceptReply, AcceptorOnAccept;
      ghost var n := View();
      var m := proposer.Accept(lastChecksum, n);
      sent := sent + {m};
      var _ := OnReceivePaxosMsg(m);
    }

    /** The own learner hears of the success first, then everybody else. */
    method ProposerSendSuccess()
      requires Valid()
      modifies this, proposer, counter, acceptor, learner, log
      ensures var n := old(View());
        Ran(old(Done()), Send(LearnBySuccess(n, n.inst, me, n.prop.id), Success(n.inst, me, n.prop.id, n.lastChk)))
      decreases 2, 0
    {
      var m := Success(proposer.inst, me, proposer.proposalId, lastChecksum);
      var _ := OnReceivePaxosMsg(m);
      sent := sent + {m};
    }

    method OnTimeout()
      requires Valid()
      modifies this, proposer, counter, acceptor, learner, log
      ensures Ran(old(Done()), NodeSpec.OnTimeout(cfg, old(View())))
    {
      if proposer.inst != proposer.timeoutInst {
        return;
      }
      Prepare(proposer.wasRejected);
    }

    method OnNewValueCommitTimeout()
      requires Valid()
      modifies this, proposer, counter, acceptor, learner, log
      ensures Ran(old(Done()), OnCommitTimeout(old(View())))
    {
      proposer.CancelPhases();
    }

    // -------------------------------------------------------------- dispatch

    /** A message the node sends itself belongs to its present instance and checksum. */
    ghost predicate Own(m: Message)
      reads this, acceptor
    {
      m.from == me && !m.Learn? && m.inst == acceptor.inst && (MessageChk(m) == 0 || MessageChk(m) == lastChecksum)
    }

    /** `alive` is false when the checksum assertion kills the process. */
    method OnReceivePaxosMsg(m: Message) returns (alive: bool)
      requires Valid() && (m.from == me ==> Own(m))
      modifies this, proposer, counter, acceptor, learner, log
      ensures m.from == me ==> alive && Ran(old(Done()), SelfReceive(cfg, old(View()), m))
      ensures m.from != me ==>
        var o := Receive(cfg, old(View()), m);
        && alive == o.Some?
        && if alive then Ran(old(Done()), o.value) else Valid() && View() == old(View()) && Done() == old(Done())
      decreases Rank(m), 2
    {
      if m.PrepareReply? || m.AcceptReply? {
        if m.from in cfg.nodes {
          ReceiveMsgForProposer(m);
        }
        return true;
      }
      if m.Prepare? || m.Accept? {
        if m.from !in cfg.nodes {
          return true;
        }
        alive := CheckChecksum(m);
        if alive {
          ReceiveMsgForAcceptor(m);
        }
        return;
      }
      alive := CheckChecksum(m);
      if alive {
        ReceiveMsgForLearner(m);
      }
    }

    method CheckChecksum(m: Message) returns (alive: bool)
      requires Valid()
      modifies this
      ensures var o := ChecksumLogic(old(View()), m);
        && alive == o.Some?
        && Valid() && Done() == old(Done())
        && View() == if alive then o.value else old(View())
      ensures !alive <==>
        && MessageChk(m) != 0 && MessageChk(m) != old(lastChecksum) && m.inst == acceptor.inst
        && (acceptor.inst == 0 || old(lastChecksum) != 0)
    {
      var c := MessageChk(m);
      if c == 0 || m.inst != acceptor.inst {
        return true;
      }
      if acceptor.inst > 0 && lastChecksum == 0 {
        lastChecksum := c;
        return true;
      }
      return c == lastChecksum;
    }

    method ReceiveMsgForProposer(m: Message)
      requires Valid() && (m.PrepareReply? || m.AcceptReply?)
      modifies this, proposer, counter, acceptor, learner, log
      ensures Ran(old(Done()), OnReply(cfg, old(View()), m))
      decreases Rank(m), 1
    {
      if m.inst != proposer.inst {
        if m.inst + 1 == proposer.inst {
          proposer.OnExpiredReply(m.rejectBy);
        }
        return;
      }
      if m.PrepareReply? {
        var pass := proposer.OnPrepareReply(m.from, m.id, m.rejectBy, m.pre, m.value, View());
        if pass {
          Accept();
        }
      } else {
        var pass := proposer.OnAcceptReply(m.from, m.id, m.rejectBy, View());
        if pass {
          ProposerSendSuccess();
        }
      }
    }

    method ReceiveMsgForAcceptor(m: Message)
      requires Valid() && (m.Prepare? || m.Accept?) && (m.from == me ==> m.inst == acceptor.inst)
      modifies this, proposer, counter, acceptor, learner, log
      ensures m.from == me ==> Ran(old(Done()), SelfReceive(cfg, old(View()), m))
      ensures m.from != me ==> Ran(old(Done()), OnRequest(cfg, old(View()), m))
      decreases Rank(m), 1
    {
      ghost var before, n := Done(), View();
      if m.inst == acceptor.inst + 1 {
        ReceiveMsgForLearner(Success(acceptor.inst, m.from, m.id, MessageChk(m)));
      }
      ghost var middle, n1 := Done(), View();
      if m.inst == acceptor.inst {
        if m.Prepare? {
          OnPrepare(m);
        } else {
          OnAccept(m);
        }
      }
      if m.from != me {
        RequestParts(cfg, before, n, m, middle, n1);
      }
    }

    method OnPrepare(m: Message)
      requires Valid() && m.Prepare? && m.inst == acceptor.inst
      modifies this, proposer, counter, acceptor, learner, log
      ensures m.from == me ==> Ran(old(Done()), SelfReceive(cfg, old(View()), m))
      ensures m.from != me ==> Ran(old(Done()), AcceptorReceive(cfg, old(View()), m))
      decreases Rank(m), 0
    {
      ghost var n := View();
      var reply := acceptor.OnPrepare(m.from, m.id, lastChecksum, n);
      if m.from == me {
        var _ := OnReceivePaxosMsg(reply);
      } else {
        sent := sent + {reply};
      }
    }

    method OnAccept(m: Message)
      requires Valid() && m.Accept? && m.inst == acceptor.inst
      modifies this, proposer, counter, acceptor, learner, log
      ensures m.from == me ==> Ran(old(Done()), SelfReceive(cfg, old(View()), m))
      ensures m.from != me ==> Ran(old(Done()), AcceptorReceive(cfg, old(View()), m))
      decreases Rank(m), 0
    {
      hide OnPrepareReply, OnAcceptReply, NodeSpec.Persist, LearnBySuccess;
      ghost var n := View();
      AcceptKeeps(cfg, n, m);
      var reply := acceptor.OnAccept(m.from, m.id, m.value, lastChecksum, n);
      votes := votes + AcceptorOnAccept(cfg, n, m.from, m.id, m.value).votes;
      if m.from == me {
        var _ := OnReceivePaxosMsg(reply);
      } else {
        sent := sent + {reply};
      }
    }

    /** A learned value is executed, and every role enters the next instance. */
    method ReceiveMsgForLearner(m: Message)
      requires Valid() && (m.Success? || m.Learn?)
      modifies this, proposer, counter, acceptor, learner, log
      ensures Ran(old(Done()), OnLearnerMsg(cfg, old(View()), m))
      decreases Rank(m), 1
    {
      if m.Success? {
        learner.OnProposerSendSuccess(m.inst, m.from, m.id);
      } else {
        learner.OnSendLearnValue(m.inst, m.ballot, m.value, lastChecksum, View());
      }
      if learner.isLearned {
        executed := executed + {Learned(me, learner.inst, learner.learnedValue)};
        lastChecksum := learner.newChecksum;
        acceptor.NewInstance();
        learner.NewInstance();
        proposer.NewInstance();
      }
    }
  }
}
