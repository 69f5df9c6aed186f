/** Only values that some caller has offered are ever executed. */
module PaxosValidity {
  import opened PaxosTypes
  import opened NodeSpec
  import opened PaxosSystem
  import opened PaxosInvariant
  import opened PaxosSteps
  import opened PaxosLearnSteps
  import opened PaxosRounds
  import opened PaxosProposerSteps
  import opened PaxosAgreement

  ghost predicate Known(v: Value, s: iset<Value>) {
    v == [] || v in s
  }

  ghost predicate RecordKnown(r: Record, s: iset<Value>) {
    Known(r.value, s) && (r.under.Some? ==> RecordKnown(r.under.value, s))
  }

  ghost predicate NodeKnown(n: Node, s: iset<Value>) {
    && Known(n.prop.value, s) && Known(n.acc.value, s)
    && forall k :: k in n.log ==> RecordKnown(n.log[k], s)
  }

  ghost predicate MsgKnown(m: Message, s: iset<Value>) {
    match m
    case PrepareReply(_, _, _, _, _, _, v) => Known(v, s)
    case Accept(_, _, _, v, _) => Known(v, s)
    case Learn(_, _, _, _, v, _) => Known(v, s)
    case _ => true
  }

  /** The node holds, sends and executes only values of `s`. */
  ghost predicate OutKnown(o: Out, s: iset<Value>) {
    && NodeKnown(o.node, s)
    && (forall m :: m in o.fx.msgs ==> MsgKnown(m, s))
    && (forall l :: l in o.fx.learned ==> Known(l.value, s))
  }

  // ---------------------------------------------------------------- one handler call

  lemma ThenKnown(o: Out, p: Out, s: iset<Value>)
    requires OutKnown(o, s) && OutKnown(p, s)
    ensures OutKnown(Then(o, p), s)
  {
  }

  lemma SucceedKnown(n: Node, s: iset<Value>)
    requires NodeKnown(n, s)
    ensures OutKnown(Succeed(n), s)
  {
  }

  lemma AcceptReplyKnown(cfg: Config, n: Node, a: NodeId, id: nat, rejectBy: nat, s: iset<Value>)
    requires NodeKnown(n, s)
    ensures OutKnown(OnAcceptReply(cfg, n, a, id, rejectBy), s)
  {
    hide Succeed;
    SucceedKnown(RecordAcceptReply(n, a, rejectBy), s);
  }

  lemma AcceptRoundKnown(cfg: Config, n: Node, s: iset<Value>)
    requires NodeKnown(n, s)
    ensures OutKnown(StartAcceptRound(cfg, n), s)
  {
    hide OnAcceptReply;
    var r := AcceptorOnAccept(cfg, StartAccept(n), n.me, n.prop.id, n.prop.value);
    AcceptReplyKnown(cfg, r.node, n.me, n.prop.id, r.rejectBy, s);
  }

  lemma PromiseKnown(n: Node, a: NodeId, rejectBy: nat, pre: Ballot, v: Value, s: iset<Value>)
    requires NodeKnown(n, s) && Known(v, s)
    ensures NodeKnown(RecordPrepareReply(n, a, rejectBy, pre, v), s)
  {
  }

  lemma PrepareReplyKnown(cfg: Config, n: Node, a: NodeId, id: nat, rejectBy: nat, pre: Ballot, v: Value, s: iset<Value>)
    requires NodeKnown(n, s) && Known(v, s)
    ensures OutKnown(OnPrepareReply(cfg, n, a, id, rejectBy, pre, v), s)
  {
    hide StartAcceptRound, RecordPrepareReply, Passed;
    var n1 := RecordPrepareReply(n, a, rejectBy, pre, v);
    PromiseKnown(n, a, rejectBy, pre, v, s);
    AcceptRoundKnown(cfg, n1.(prop := n1.prop.(canSkip := true)), s);
  }

  lemma PrepareRoundKnown(cfg: Config, n: Node, needNew: bool, s: iset<Value>)
    requires NodeKnown(n, s)
    ensures OutKnown(StartPrepareRound(cfg, n, needNew), s)
  {
    hide OnPrepareReply;
    var n1 := StartPrepare(n, needNew);
    var r := AcceptorOnPrepare(cfg, n1, n.me, n1.prop.id);
    PrepareReplyKnown(cfg, r.node, n.me, n1.prop.id, r.rejectBy, r.pre, r.value, s);
  }

  lemma NewValueKnown(cfg: Config, n: Node, v: Value, s: iset<Value>)
    requires NodeKnown(n, s) && v in s
    ensures OutKnown(NewValue(cfg, n, v), s)
  {
    hide StartAcceptRound, StartPrepareRound;
    var n1 := OfferValue(n, v);
    AcceptRoundKnown(cfg, n1, s);
    PrepareRoundKnown(cfg, n1, n1.prop.wasRejected, s);
  }

  lemma ReplyKnown(cfg: Config, n: Node, m: Message, s: iset<Value>)
    requires NodeKnown(n, s) && MsgKnown(m, s) && (m.PrepareReply? || m.AcceptReply?)
    ensures OutKnown(OnReply(cfg, n, m), s)
  {
    hide OnPrepareReply, OnAcceptReply;
    if m.PrepareReply? {
      PrepareReplyKnown(cfg, n, m.from, m.id, m.rejectBy, m.pre, m.value, s);
    } else {
      AcceptReplyKnown(cfg, n, m.from, m.id, m.rejectBy, s);
    }
  }

  lemma RequestKnown(cfg: Config, n: Node, m: Message, s: iset<Value>)
    requires NodeKnown(n, s) && MsgKnown(m, s) && (m.Prepare? || m.Accept?)
    ensures OutKnown(OnRequest(cfg, n, m), s)
  {
    var o := if m.inst == n.inst + 1 then LearnBySuccess(n, n.inst, m.from, m.id) else Quiet(n);
    assert OutKnown(o, s);
    assert OutKnown(AcceptorReceive(cfg, o.node, m), s);
    ThenKnown(o, AcceptorReceive(cfg, o.node, m), s);
  }

  lemma LearnerKnown(cfg: Config, n: Node, m: Message, s: iset<Value>)
    requires NodeKnown(n, s) && MsgKnown(m, s) && (m.Success? || m.Learn?)
    ensures OutKnown(OnLearnerMsg(cfg, n, m), s)
  {
  }

  lemma ReceiveKnown(cfg: Config, n: Node, m: Message, s: iset<Value>)
    requires NodeKnown(n, s) && MsgKnown(m, s) && Receive(cfg, n, m).Some?
    ensures OutKnown(Receive(cfg, n, m).value, s)
  {
    hide OnReply, OnRequest, OnLearnerMsg;
    if m.PrepareReply? || m.AcceptReply? {
      ReplyKnown(cfg, n, m, s);
    } else if m.Prepare? || m.Accept? {
      if m.from in cfg.nodes {
        RequestKnown(cfg, ChecksumLogic(n, m).value, m, s);
      }
    } else {
      LearnerKnown(cfg, ChecksumLogic(n, m).value, m, s);
    }
  }

  // ---------------------------------------------------------------- the cluster

  ghost predicate SysKnown(x: Sys, s: iset<Value>) {
    && (forall n :: n in x.nodes ==> NodeKnown(x.nodes[n], s))
    && (forall m :: m in x.sent ==> MsgKnown(m, s))
    && (forall l :: l in x.learned ==> Known(l.value, s))
  }

  /** The caller's value in the event, handled to the end or not. */
  predicate Brings(e: Event, v: Value) {
    e == EvNewValue(v) || (e.EvCutAccept? && e.cause == EvNewValue(v))
  }

  lemma AcceptingKnown(cfg: Config, n: Node, c: Event, s: iset<Value>)
    requires Accepting(cfg, n, c).Some? && NodeKnown(n, s)
    requires (c.EvNewValue? ==> c.value in s) && (c.EvDeliver? ==> MsgKnown(c.msg, s))
    ensures MsgKnown(AcceptMsg(Accepting(cfg, n, c).value), s)
  {
    if c.EvDeliver? {
      PromiseKnown(n, c.msg.from, c.msg.rejectBy, c.msg.pre, c.msg.value, s);
    }
  }

  lemma StartKnown(n: Node, lost: Option<nat>, k: nat, next: nat, s: iset<Value>)
    requires NodeKnown(n, s)
    ensures OutKnown(Reopen(Survivor(n, lost), k, next), s)
  {
    var n' := Survivor(n, lost);
    forall j | j in n'.log
      ensures RecordKnown(n'.log[j], s)
    {
      assert RecordKnown(n.log[j], s);
    }
  }

  lemma RunOutKnown(cfg: Config, x: Sys, n: NodeId, e: Event, s: iset<Value>)
    requires Wf(cfg, x) && Enabled(cfg, x, n, e) && SysKnown(x, s) && (forall v :: Brings(e, v) ==> v in s)
    ensures OutKnown(Run(cfg, x, n, e), s)
  {
    hide NewValue, StartPrepareRound, Receive;
    var node := x.nodes[n];
    match e
    case EvNewValue(v) => NewValueKnown(cfg, node, v, s);
    case EvTimeout => PrepareRoundKnown(cfg, node, node.prop.wasRejected, s);
    case EvCommitTimeout =>
    case EvDeliver(m) => ReceiveKnown(cfg, node, m, s);
    case EvSendOne(i, to, c) =>
    case EvRestart(lost, k, next) => StartKnown(node, lost, k, next, s);
    case EvCutAccept(c, lost, k, next) =>
      AcceptingKnown(cfg, node, c, s);
      StartKnown(node, lost, k, next, s);
  }

  lemma StepKnown(cfg: Config, x: Sys, x': Sys, n: NodeId, e: Event, s: iset<Value>)
    requires StepBy(cfg, x, x', n, e) && SysKnown(x, s) && (forall v :: Brings(e, v) ==> v in s)
    ensures SysKnown(x', s)
  {
    RunOutKnown(cfg, x, n, e, s);
    hide Run, Enabled, NodeKnown, MsgKnown, Known;
  }

  lemma {:induction false} RecordKnownMore(r: Record, s: iset<Value>, s': iset<Value>)
    requires RecordKnown(r, s) && s <= s'
    ensures RecordKnown(r, s')
  {
    if r.under.Some? {
      RecordKnownMore(r.under.value, s, s');
    }
  }

  lemma KnownMore(x: Sys, s: iset<Value>, s': iset<Value>)
    requires SysKnown(x, s) && s <= s'
    ensures SysKnown(x, s')
  {
    forall n | n in x.nodes
      ensures NodeKnown(x.nodes[n], s')
    {
      assert NodeKnown(x.nodes[n], s);
      forall k | k in x.nodes[n].log
        ensures RecordKnown(x.nodes[n].log[k], s')
      {
        RecordKnownMore(x.nodes[n].log[k], s, s');
      }
    }
    forall m | m in x.sent
      ensures MsgKnown(m, s')
    {
      assert MsgKnown(m, s);
    }
  }

  /** Before step `k` of the run, some node's caller offered `v`. */
  ghost predicate OfferedIn(cfg: Config, r: seq<Sys>, k: nat, v: Value) {
    exists j, n :: 0 <= j < k && j + 1 < |r| && OfferStepAt(cfg, r, j, n, v)
  }

  ghost predicate OfferStepAt(cfg: Config, r: seq<Sys>, j: nat, n: NodeId, v: Value)
    requires j + 1 < |r|
  {
    exists e :: Brings(e, v) && StepBy(cfg, r[j], r[j + 1], n, e)
  }

  ghost function Offered(cfg: Config, r: seq<Sys>, k: nat): iset<Value> {
    iset v | OfferedIn(cfg, r, k, v)
  }

  lemma OfferedGrows(cfg: Config, r: seq<Sys>, k: nat)
    ensures Offered(cfg, r, k) <= Offered(cfg, r, k + 1)
  {
    forall v | v in Offered(cfg, r, k)
      ensures v in Offered(cfg, r, k + 1)
    {
      var j, n :| 0 <= j < k && j + 1 < |r| && OfferStepAt(cfg, r, j, n, v);
      assert OfferStepAt(cfg, r, j, n, v);
    }
  }

  lemma {:induction false} RunKnown(cfg: Config, r: seq<Sys>, k: nat)
    requires GuardedRun(cfg, r) && k < |r|
    ensures SysKnown(r[k], Offered(cfg, r, k))
  {
    hide StepBy, Permitted, SysKnown, GuardedStep;
    if k == 0 {
      RunStart(cfg, r);
      InitKnown(cfg, r[0], Offered(cfg, r, 0));
    } else {
      RunKnown(cfg, r, k - 1);
      RunStep(cfg, r, k);
      var n, e := SomeEvent(cfg, r[k - 1], r[k]);
      OfferedGrows(cfg, r, k - 1);
      KnownMore(r[k - 1], Offered(cfg, r, k - 1), Offered(cfg, r, k));
      forall v | Brings(e, v)
        ensures v in Offered(cfg, r, k)
      {
        assert OfferStepAt(cfg, r, k - 1, n, v);
      }
      StepKnown(cfg, r[k - 1], r[k], n, e, Offered(cfg, r, k));
    }
  }

  lemma SomeEvent(cfg: Config, s: Sys, s': Sys) returns (n: NodeId, e: Event)
    requires GuardedStep(cfg, s, s')
    ensures StepBy(cfg, s, s', n, e)
  {
    n, e :| StepBy(cfg, s, s', n, e) && Permitted(cfg, s, n, e);
  }

  lemma InitKnown(cfg: Config, x: Sys, s: iset<Value>)
    requires Init(cfg, x)
    ensures SysKnown(x, s)
  {
  }

  /** Whatever is executed was offered by a caller of some node, earlier in the run. */
  lemma OnlyOfferedValues(cfg: Config, r: seq<Sys>, k: nat, l: Learned)
    requires GuardedRun(cfg, r) && k < |r| && l in r[k].learned
    ensures exists j, n :: 0 <= j < k && j + 1 < |r| && OfferStepAt(cfg, r, j, n, l.value)
  {
    RunKnown(cfg, r, k);
    RunKeepsInv(cfg, r, k);
    ExecutedNotEmpty(cfg, r[k], l);
    assert Known(l.value, Offered(cfg, r, k));
    assert OfferedIn(cfg, r, k, l.value);
  }

  lemma ExecutedNotEmpty(cfg: Config, s: Sys, l: Learned)
    requires Inv(cfg, s) && l in s.learned
    ensures l.value != []
  {
    hide NodeInv, MessagesOk, OneValue;
    assert Chosen(cfg, s, l.inst, l.value);
    var b :| ChosenAt(cfg, s, l.inst, b, l.value);
    var q :| IsQuorum(cfg, q) && QuorumVoted(s, q, l.inst, b, l.value);
    var a :| a in q;
    assert Vote(a, l.inst, b, l.value) in s.votes;
    assert Proposed(s, l.inst, b, l.value);
  }
}
