/** When a timer may still act: a running phase belongs to the present instance, and a cancelled one stays cancelled. */
module PaxosTimers {
  import opened PaxosTypes
  import opened NodeSpec
  import opened PaxosSystem
  import opened PaxosInvariant
  import opened PaxosStable
  import opened PaxosProposerSteps
  import opened PaxosRounds
  import opened PaxosRejection

  // ---------------------------------------------------------------- a running phase has a live timer

  predicate Live(node: Node) {
    node.prop.preparing || node.prop.accepting ==> node.prop.timeoutInst == node.inst
  }

  lemma SucceedLive(node: Node)
    requires Live(node)
    ensures Live(Succeed(node).node)
  {
  }

  lemma AcceptPartLive(cfg: Config, node: Node)
    ensures Live(AcceptPart(cfg, node).node)
  {
  }

  lemma AcceptRoundLive(cfg: Config, node: Node)
    ensures Live(StartAcceptRound(cfg, node).node)
  {
    hide StartAcceptRound, AcceptPart, Succeed;
    AcceptRoundParts(cfg, node);
    AcceptPartLive(cfg, node);
    SucceedLive(AcceptPart(cfg, node).node);
  }

  lemma RecordLive(node: Node, a: NodeId, rejectBy: nat, pre: Ballot, v: Value)
    requires Live(node)
    ensures Live(RecordPrepareReply(node, a, rejectBy, pre, v)) && Live(RecordAcceptReply(node, a, rejectBy))
  {
  }

  lemma ReplyLive(cfg: Config, node: Node, m: Message)
    requires (m.PrepareReply? || m.AcceptReply?) && Live(node)
    ensures Live(OnReply(cfg, node, m).node)
  {
    hide StartAcceptRound, Succeed, RecordPrepareReply, RecordAcceptReply, Passed;
    if m.PrepareReply? {
      RecordLive(node, m.from, m.rejectBy, m.pre, m.value);
      var n1 := RecordPrepareReply(node, m.from, m.rejectBy, m.pre, m.value);
      AcceptRoundLive(cfg, n1.(prop := n1.prop.(canSkip := true)));
    } else {
      RecordLive(node, m.from, m.rejectBy, NULL_BALLOT, []);
      SucceedLive(RecordAcceptReply(node, m.from, m.rejectBy));
    }
  }

  lemma PreparePartLive(cfg: Config, node: Node, needNew: bool)
    ensures Live(PreparePart(cfg, node, needNew).node)
  {
  }

  lemma PrepareRoundLive(cfg: Config, node: Node, needNew: bool)
    ensures Live(StartPrepareRound(cfg, node, needNew).node)
  {
    hide StartPrepareRound, PreparePart, StartAcceptRound;
    PrepareRoundParts(cfg, node, needNew);
    PreparePartLive(cfg, node, needNew);
    AcceptRoundLive(cfg, Skippable(PreparePart(cfg, node, needNew).node));
  }

  lemma OtherLive(cfg: Config, node: Node, m: Message)
    requires !m.PrepareReply? && !m.AcceptReply? && Live(node)
    ensures if m.Prepare? || m.Accept? then Live(OnRequest(cfg, node, m).node) else Live(OnLearnerMsg(cfg, node, m).node)
  {
  }

  lemma ReceiveLive(cfg: Config, node: Node, m: Message)
    requires Receive(cfg, node, m).Some? && Live(node)
    ensures Live(Receive(cfg, node, m).value.node)
  {
    hide OnReply, OnRequest, OnLearnerMsg;
    if m.PrepareReply? || m.AcceptReply? {
      ReplyLive(cfg, node, m);
    } else if ChecksumLogic(node, m).Some? {
      OtherLive(cfg, ChecksumLogic(node, m).value, m);
    }
  }

  lemma EventLive(cfg: Config, s: Sys, n: NodeId, e: Event)
    requires Wf(cfg, s) && Enabled(cfg, s, n, e) && n in s.nodes && Live(s.nodes[n])
    ensures Live(Run(cfg, s, n, e).node)
  {
    var node := s.nodes[n];
    hide StartAcceptRound, StartPrepareRound, Receive;
    match e
    case EvNewValue(v) =>
      AcceptRoundLive(cfg, OfferValue(node, v));
      PrepareRoundLive(cfg, OfferValue(node, v), OfferValue(node, v).prop.wasRejected);
    case EvTimeout => PrepareRoundLive(cfg, node, node.prop.wasRejected);
    case EvDeliver(m) => ReceiveLive(cfg, node, m);
    case _ =>
  }

  /** In every run the timer of a running phase is one of the present instance: when it fires, it acts. */
  lemma {:induction false} TimersLive(cfg: Config, r: seq<Sys>, k: nat, n: NodeId)
    requires GuardedRun(cfg, r) && k < |r| && n in cfg.nodes
    ensures n in r[k].nodes && Live(r[k].nodes[n])
  {
    hide Live, Run, Enabled, Holds;
    if k == 0 {
      FirstLive(cfg, r[0], n);
    } else {
      TimersLive(cfg, r, k - 1, n);
      assert GuardedStep(cfg, r[k - 1], r[k - 1 + 1]);
      var a, e :| StepBy(cfg, r[k - 1], r[k], a, e);
      StepNode(cfg, r[k - 1], r[k], a, e, n);
      if a == n {
        EventLive(cfg, r[k - 1], n, e);
      }
    }
  }

  lemma FirstLive(cfg: Config, s: Sys, n: NodeId)
    requires Init(cfg, s) && n in cfg.nodes
    ensures n in s.nodes && Live(s.nodes[n])
  {
  }

  // ---------------------------------------------------------------- a cancelled phase

  predicate Rests(node: Node) {
    !node.prop.preparing && !node.prop.accepting
  }

  /** Nothing of a proposal goes out. */
  predicate Proposes(m: Message) {
    m.Prepare? || m.Accept? || m.Success?
  }

  predicate Silent(o: Out) {
    Rests(o.node) && forall m :: m in o.fx.msgs ==> !Proposes(m)
  }

  lemma ReceiveSilent(cfg: Config, node: Node, m: Message)
    requires Receive(cfg, node, m).Some? && Rests(node)
    ensures Silent(Receive(cfg, node, m).value)
  {
    hide StartAcceptRound, Succeed;
  }

  /** The caller offers a value, whether the process survives that or not. */
  predicate Offers(e: Event) {
    e.EvNewValue? || (e.EvCutAccept? && e.cause.EvNewValue?)
  }

  lemma EventSilent(cfg: Config, s: Sys, n: NodeId, e: Event)
    requires Wf(cfg, s) && Enabled(cfg, s, n, e) && n in s.nodes && Rests(s.nodes[n]) && !Offers(e)
    ensures Silent(Run(cfg, s, n, e))
  {
    hide Receive;
    match e
    case EvDeliver(m) => ReceiveSilent(cfg, s.nodes[n], m);
    case _ =>
  }

  lemma {:induction false} RestsUntilOffered(cfg: Config, r: seq<Sys>, es: seq<(NodeId, Event)>, n: NodeId, j: nat, k: nat)
    requires Trace(cfg, r, es) && j < k < |r| && es[j] == (n, EvCommitTimeout)
    requires forall i :: j < i < k && es[i].0 == n ==> !Offers(es[i].1)
    ensures n in r[k].nodes && Rests(r[k].nodes[n])
    decreases k
  {
    hide Rests, Run, Enabled, Permitted, Init;
    var a, e := es[k - 1].0, es[k - 1].1;
    assert StepBy(cfg, r[k - 1], r[k - 1 + 1], a, e);
    StepNode(cfg, r[k - 1], r[k], a, e, n);
    if j == k - 1 {
      CommitTimeoutRests(cfg, r[j], n);
    } else {
      RestsUntilOffered(cfg, r, es, n, j, k - 1);
      if a == n {
        EventSilent(cfg, r[k - 1], n, e);
      }
    }
  }

  lemma CommitTimeoutRests(cfg: Config, s: Sys, n: NodeId)
    requires Wf(cfg, s) && n in s.nodes && Enabled(cfg, s, n, EvCommitTimeout)
    ensures Rests(Run(cfg, s, n, EvCommitTimeout).node)
  {
  }

  /**
   * Once a commit has timed out, its proposer sends nothing of a proposal, whatever messages,
   * timers and restarts follow, until a caller offers the next value.
   */
  lemma CancelledStaysCancelled(cfg: Config, r: seq<Sys>, es: seq<(NodeId, Event)>, n: NodeId, j: nat, k: nat, m: Message)
    requires |r| == |es| + 1 && Trace(cfg, r, es) && j < k < |es| && es[j] == (n, EvCommitTimeout)
    requires forall i :: j < i <= k && es[i].0 == n ==> !Offers(es[i].1)
    requires es[k].0 == n && Wf(cfg, r[k]) && Enabled(cfg, r[k], n, es[k].1) && m in Run(cfg, r[k], n, es[k].1).fx.msgs
    ensures !m.Prepare? && !m.Accept? && !m.Success?
  {
    hide *;
    RestsUntilOffered(cfg, r, es, n, j, k);
    EventSilent(cfg, r[k], n, es[k].1);
    SaysNothing(Run(cfg, r[k], n, es[k].1), m);
  }

  lemma SaysNothing(o: Out, m: Message)
    requires Silent(o) && m in o.fx.msgs
    ensures !m.Prepare? && !m.Accept? && !m.Success?
  {
  }
}
