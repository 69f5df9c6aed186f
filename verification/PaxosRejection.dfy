/** What a proposer does about rejections: its next ballot is above everything it was rejected with. */
module PaxosRejection {
  import opened PaxosTypes
  import opened NodeSpec
  import opened PaxosSystem
  import opened PaxosInvariant
  import opened PaxosStable
  import opened PaxosSteps
  import opened PaxosLearnSteps
  import opened PaxosProposerSteps
  import opened PaxosRounds
  import opened PaxosAgreement

  /** The proposer knows of the ballot id `x`: it is above it, or will be with its next Prepare. */
  predicate Told(node: Node, x: nat) {
    (node.prop.wasRejected && (node.prop.highestOther >= x || node.prop.id >= x)) || node.prop.id > x
  }

  predicate PreparesAbove(o: Out, x: nat) {
    forall m :: m in o.fx.msgs && m.Prepare? ==> m.id > x
  }

  /** A handler sends no Prepare up to `x`, and within the instance the proposer does not forget `x`. */
  predicate Heeds(node: Node, o: Out, x: nat) {
    PreparesAbove(o, x) && o.node.inst >= node.inst && (o.node.inst == node.inst ==> Told(o.node, x))
  }

  // ---------------------------------------------------------------- the handlers

  lemma ThenHeeds(node: Node, o: Out, p: Out, x: nat)
    requires Heeds(node, o, x) && Heeds(o.node, p, x)
    ensures Heeds(node, Then(o, p), x)
  {
  }

  lemma SucceedHeeds(node: Node, x: nat)
    requires Told(node, x)
    ensures Heeds(node, Succeed(node), x)
  {
  }

  /** After a success the node is in the next instance; what follows must send no Prepare. */
  lemma ThenSucceedHeeds(node: Node, o: Out, x: nat)
    requires Heeds(node, o, x) && o.node.inst == node.inst
    ensures Heeds(node, Then(o, Succeed(o.node)), x)
  {
    SucceedHeeds(o.node, x);
    hide Succeed;
    ThenHeeds(node, o, Succeed(o.node), x);
  }

  lemma AcceptPartHeeds(cfg: Config, node: Node, x: nat)
    requires Told(node, x)
    ensures Heeds(node, AcceptPart(cfg, node), x) && AcceptPart(cfg, node).node.inst == node.inst
  {
  }

  lemma AcceptRoundHeeds(cfg: Config, node: Node, x: nat)
    requires Told(node, x)
    ensures Heeds(node, StartAcceptRound(cfg, node), x)
  {
    hide StartAcceptRound, AcceptPart, Succeed;
    AcceptRoundParts(cfg, node);
    AcceptPartHeeds(cfg, node, x);
    ThenSucceedHeeds(node, AcceptPart(cfg, node), x);
  }

  lemma QuietHeeds(node: Node, node': Node, x: nat)
    requires Told(node', x) && node'.inst == node.inst
    ensures Heeds(node, Quiet(node'), x)
  {
  }

  lemma SkippableTold(node: Node, x: nat)
    requires Told(node, x)
    ensures Told(Skippable(node), x) && Skippable(node).inst == node.inst
  {
  }

  lemma SameStart(node: Node, node': Node, o: Out, x: nat)
    requires node'.inst == node.inst && Heeds(node', o, x)
    ensures Heeds(node, o, x)
  {
  }

  lemma RecordTold(node: Node, a: NodeId, rejectBy: nat, pre: Ballot, v: Value, x: nat)
    requires Told(node, x)
    ensures Told(RecordPrepareReply(node, a, rejectBy, pre, v), x)
    ensures Told(RecordAcceptReply(node, a, rejectBy), x)
  {
  }

  lemma PrepareReplyHeeds(cfg: Config, node: Node, a: NodeId, id: nat, rejectBy: nat, pre: Ballot, v: Value, x: nat)
    requires Told(RecordPrepareReply(node, a, rejectBy, pre, v), x) && node.prop.preparing && id == node.prop.id
    ensures Heeds(node, OnPrepareReply(cfg, node, a, id, rejectBy, pre, v), x)
  {
    hide OnPrepareReply, StartAcceptRound, Told, Heeds, RecordPrepareReply, Skippable;
    PrepareReplyParts(cfg, node, a, rejectBy, pre, v);
    var n1 := RecordPrepareReply(node, a, rejectBy, pre, v);
    QuietHeeds(node, n1, x);
    SkippableTold(n1, x);
    AcceptRoundHeeds(cfg, Skippable(n1), x);
    SameStart(n1, Skippable(n1), StartAcceptRound(cfg, Skippable(n1)), x);
    ThenHeeds(node, Quiet(n1), StartAcceptRound(cfg, Skippable(n1)), x);
  }

  lemma AcceptReplyHeeds(cfg: Config, node: Node, a: NodeId, id: nat, rejectBy: nat, x: nat)
    requires Told(RecordAcceptReply(node, a, rejectBy), x) && node.prop.accepting && id == node.prop.id
    ensures Heeds(node, OnAcceptReply(cfg, node, a, id, rejectBy), x)
  {
    hide OnAcceptReply, Succeed, Told, RecordAcceptReply;
    AcceptReplyParts(cfg, node, a, rejectBy);
    var n1 := RecordAcceptReply(node, a, rejectBy);
    QuietHeeds(node, n1, x);
    ThenSucceedHeeds(node, Quiet(n1), x);
  }

  lemma PreparePartHeeds(cfg: Config, node: Node, x: nat)
    requires Told(node, x)
    ensures var o := PreparePart(cfg, node, node.prop.wasRejected);
      Heeds(node, o, x) && o.node.inst == node.inst
  {
  }

  lemma PrepareRoundHeeds(cfg: Config, node: Node, x: nat)
    requires Told(node, x)
    ensures Heeds(node, StartPrepareRound(cfg, node, node.prop.wasRejected), x)
  {
    hide StartPrepareRound, PreparePart, StartAcceptRound, Told, Skippable;
    PrepareRoundParts(cfg, node, node.prop.wasRejected);
    PreparePartHeeds(cfg, node, x);
    var o := PreparePart(cfg, node, node.prop.wasRejected);
    SkippableTold(o.node, x);
    AcceptRoundHeeds(cfg, Skippable(o.node), x);
    SameStart(o.node, Skippable(o.node), StartAcceptRound(cfg, Skippable(o.node)), x);
    ThenHeeds(node, o, StartAcceptRound(cfg, Skippable(o.node)), x);
  }

  lemma NoteHeeds(node: Node, rejectBy: nat, x: nat)
    requires Told(node, x) || x <= rejectBy || x <= node.prop.id
    ensures Heeds(node, Quiet(node.(prop := NoteReject(node.prop, rejectBy))), x)
  {
  }

  lemma ReplyHeeds(cfg: Config, node: Node, m: Message, x: nat)
    requires (m.PrepareReply? || m.AcceptReply?) && Told(node, x)
    ensures Heeds(node, OnReply(cfg, node, m), x)
  {
    hide OnPrepareReply, OnAcceptReply, NoteReject;
    if m.inst != node.inst {
      NoteHeeds(node, m.rejectBy, x);
      QuietHeeds(node, node, x);
    } else {
      RecordTold(node, m.from, m.rejectBy, if m.PrepareReply? then m.pre else NULL_BALLOT,
                 if m.PrepareReply? then m.value else [], x);
      ReplyNow(cfg, node, m, x);
    }
  }

  lemma ReplyNow(cfg: Config, node: Node, m: Message, x: nat)
    requires (m.PrepareReply? || m.AcceptReply?) && m.inst == node.inst && Told(node, x)
    ensures Heeds(node, OnReply(cfg, node, m), x)
  {
    hide Told, Heeds, RecordPrepareReply, RecordAcceptReply;
    QuietHeeds(node, node, x);
    if m.PrepareReply? {
      RecordTold(node, m.from, m.rejectBy, m.pre, m.value, x);
      if node.prop.preparing && m.id == node.prop.id {
        PrepareReplyHeeds(cfg, node, m.from, m.id, m.rejectBy, m.pre, m.value, x);
      }
    } else {
      RecordTold(node, m.from, m.rejectBy, NULL_BALLOT, [], x);
      if node.prop.accepting && m.id == node.prop.id {
        AcceptReplyHeeds(cfg, node, m.from, m.id, m.rejectBy, x);
      }
    }
  }

  lemma LearnHeeds(cfg: Config, node: Node, m: Message, x: nat)
    requires (m.Success? || m.Learn?) && Told(node, x)
    ensures Heeds(node, OnLearnerMsg(cfg, node, m), x)
  {
  }

  lemma RequestHeeds(cfg: Config, node: Node, m: Message, x: nat)
    requires (m.Prepare? || m.Accept?) && Told(node, x)
    ensures Heeds(node, OnRequest(cfg, node, m), x)
  {
  }

  lemma ReceiveHeeds(cfg: Config, node: Node, m: Message, x: nat)
    requires Receive(cfg, node, m).Some? && Told(node, x)
    ensures Heeds(node, Receive(cfg, node, m).value, x)
  {
    hide OnReply, OnRequest, OnLearnerMsg, Heeds;
    QuietHeeds(node, node, x);
    if m.PrepareReply? || m.AcceptReply? {
      ReplyHeeds(cfg, node, m, x);
    } else if ChecksumLogic(node, m).Some? {
      var n1 := ChecksumLogic(node, m).value;
      if m.Prepare? || m.Accept? {
        RequestHeeds(cfg, n1, m, x);
        SameStart(node, n1, OnRequest(cfg, n1, m), x);
      } else {
        LearnHeeds(cfg, n1, m, x);
        SameStart(node, n1, OnLearnerMsg(cfg, n1, m), x);
      }
    }
  }

  lemma NewValueHeeds(cfg: Config, node: Node, v: Value, x: nat)
    requires Told(node, x)
    ensures Heeds(node, NewValue(cfg, node, v), x)
  {
    hide StartAcceptRound, StartPrepareRound;
    var n1 := OfferValue(node, v);
    AcceptRoundHeeds(cfg, n1, x);
    PrepareRoundHeeds(cfg, n1, x);
  }

  lemma TimeoutHeeds(cfg: Config, node: Node, x: nat)
    requires Told(node, x)
    ensures Heeds(node, OnTimeout(cfg, node), x) && Heeds(node, OnCommitTimeout(node), x)
  {
    hide StartPrepareRound;
    PrepareRoundHeeds(cfg, node, x);
  }

  predicate Crash(e: Event) {
    e.EvRestart? || e.EvCutAccept?
  }

  lemma EventHeeds(cfg: Config, s: Sys, n: NodeId, e: Event, x: nat)
    requires Wf(cfg, s) && Enabled(cfg, s, n, e) && n in s.nodes && Told(s.nodes[n], x) && !Crash(e)
    ensures Heeds(s.nodes[n], Run(cfg, s, n, e), x)
  {
    var node := s.nodes[n];
    hide NewValue, OnTimeout, OnCommitTimeout, Receive, Told;
    match e
    case EvNewValue(v) => NewValueHeeds(cfg, node, v, x);
    case EvTimeout => TimeoutHeeds(cfg, node, x);
    case EvCommitTimeout => TimeoutHeeds(cfg, node, x);
    case EvDeliver(m) => ReceiveHeeds(cfg, node, m, x);
    case EvSendOne(i, to, c) =>
  }

  lemma CrashPreparesNothing(cfg: Config, s: Sys, n: NodeId, e: Event, x: nat)
    requires Wf(cfg, s) && Enabled(cfg, s, n, e) && Crash(e)
    ensures PreparesAbove(Run(cfg, s, n, e), x)
  {
  }

  // ---------------------------------------------------------------- counted rejections

  /** `node` counts the rejection `m`: of its present phase, or late, of the instance before. */
  predicate Counts(cfg: Config, node: Node, m: Message) {
    && (m.PrepareReply? || m.AcceptReply?) && m.from in cfg.nodes && m.rejectBy != 0
    && (|| m.inst + 1 == node.inst
        || (m.inst == node.inst && m.id == node.prop.id && if m.PrepareReply? then node.prop.preparing else node.prop.accepting))
  }

  lemma RejectionTold(node: Node, a: NodeId, rejectBy: nat, pre: Ballot, v: Value, x: nat)
    requires rejectBy != 0 && (x <= rejectBy || x <= node.prop.id)
    ensures Told(RecordPrepareReply(node, a, rejectBy, pre, v), x)
    ensures Told(RecordAcceptReply(node, a, rejectBy), x)
  {
  }

  /** A counted rejection is heeded from then on: its own id, and the ballot it rejected. */
  lemma CountedHeeds(cfg: Config, node: Node, m: Message, x: nat)
    requires Counts(cfg, node, m) && (x <= m.rejectBy || x <= node.prop.id)
    ensures Receive(cfg, node, m) == Some(OnReply(cfg, node, m)) && Heeds(node, OnReply(cfg, node, m), x)
  {
    hide Told, Heeds, RecordPrepareReply, RecordAcceptReply, OnPrepareReply, OnAcceptReply, NoteReject;
    if m.inst != node.inst {
      NoteHeeds(node, m.rejectBy, x);
    } else if m.PrepareReply? {
      RejectionTold(node, m.from, m.rejectBy, m.pre, m.value, x);
      PrepareReplyHeeds(cfg, node, m.from, m.id, m.rejectBy, m.pre, m.value, x);
    } else {
      RejectionTold(node, m.from, m.rejectBy, NULL_BALLOT, [], x);
      AcceptReplyHeeds(cfg, node, m.from, m.id, m.rejectBy, x);
    }
  }

  // ---------------------------------------------------------------- runs with their events

  /** A guarded run and the events that make it. */
  ghost predicate Trace(cfg: Config, r: seq<Sys>, es: seq<(NodeId, Event)>) {
    && |r| == |es| + 1 && Init(cfg, r[0])
    && forall k :: 0 <= k < |es| ==>
         StepBy(cfg, r[k], r[k + 1], es[k].0, es[k].1) && Permitted(cfg, r[k], es[k].0, es[k].1)
  }

  lemma TraceIsRun(cfg: Config, r: seq<Sys>, es: seq<(NodeId, Event)>)
    requires Trace(cfg, r, es)
    ensures GuardedRun(cfg, r)
  {
    hide Run, Holds, Init;
    forall k | 0 <= k < |r| - 1
      ensures GuardedStep(cfg, r[k], r[k + 1])
    {
      assert StepBy(cfg, r[k], r[k + 1], es[k].0, es[k].1) && Permitted(cfg, r[k], es[k].0, es[k].1);
    }
  }

  /** From after step `j` up to state `k`, node `n` stays in its instance and does not crash. */
  ghost predicate Stays(r: seq<Sys>, es: seq<(NodeId, Event)>, n: NodeId, j: nat, k: nat)
    requires j <= k < |r| && |r| == |es| + 1
  {
    && n in r[j].nodes
    && (forall i :: j <= i <= k ==> n in r[i].nodes && r[i].nodes[n].inst == r[j].nodes[n].inst)
    && forall i :: j < i < k && es[i].0 == n ==> !Crash(es[i].1)
  }

  /** At step `j` node `n` counts the rejection `m`. */
  ghost predicate CountedAt(cfg: Config, r: seq<Sys>, es: seq<(NodeId, Event)>, n: NodeId, j: nat, m: Message)
    requires |r| == |es| + 1 && j < |es|
  {
    es[j] == (n, EvDeliver(m)) && n in r[j].nodes && Counts(cfg, r[j].nodes[n], m)
  }

  lemma StepNode(cfg: Config, s: Sys, s': Sys, a: NodeId, e: Event, n: NodeId)
    requires StepBy(cfg, s, s', a, e)
    ensures Wf(cfg, s) && Enabled(cfg, s, a, e) && a in s.nodes
    ensures n in s.nodes ==> n in s'.nodes && s'.nodes[n] == if a == n then Run(cfg, s, n, e).node else s.nodes[n]
  {
  }

  lemma HeedsTold(node: Node, o: Out, x: nat)
    requires Heeds(node, o, x) && o.node.inst == node.inst
    ensures Told(o.node, x)
  {
  }

  lemma {:induction false} ToldSince(cfg: Config, r: seq<Sys>, es: seq<(NodeId, Event)>, n: NodeId, j: nat, k: nat,
                                     m: Message, x: nat)
    requires Trace(cfg, r, es) && j < k < |r| && CountedAt(cfg, r, es, n, j, m) && Stays(r, es, n, j, k)
    requires x <= m.rejectBy || x <= r[j].nodes[n].prop.id
    ensures Told(r[k].nodes[n], x)
    decreases k
  {
    hide Told, Counts, Heeds, Enabled, Run, Permitted, Init;
    var a, e := es[k - 1].0, es[k - 1].1;
    assert StepBy(cfg, r[k - 1], r[k - 1 + 1], a, e);
    assert n in r[k - 1].nodes && r[k - 1].nodes[n].inst == r[j].nodes[n].inst;
    StepNode(cfg, r[k - 1], r[k], a, e, n);
    if j == k - 1 {
      CountedHeeds(cfg, r[j].nodes[n], m, x);
      DeliverOut(cfg, r[j], n, m);
      HeedsTold(r[j].nodes[n], Run(cfg, r[j], n, e), x);
    } else {
      ToldSince(cfg, r, es, n, j, k - 1, m, x);
      if a == n {
        EventHeeds(cfg, r[k - 1], n, e, x);
        HeedsTold(r[k - 1].nodes[n], Run(cfg, r[k - 1], n, e), x);
      }
    }
  }

  lemma DeliverOut(cfg: Config, s: Sys, n: NodeId, m: Message)
    requires Wf(cfg, s) && Enabled(cfg, s, n, EvDeliver(m))
    ensures n in s.nodes && Receive(cfg, s.nodes[n], m) == Some(Run(cfg, s, n, EvDeliver(m)))
  {
  }

  lemma CountedHere(cfg: Config, r: seq<Sys>, es: seq<(NodeId, Event)>, n: NodeId, j: nat, m: Message)
    requires Trace(cfg, r, es) && j < |es| && CountedAt(cfg, r, es, n, j, m)
    ensures |r| == |es| + 1 && (m.PrepareReply? || m.AcceptReply?)
  {
  }

  lemma StaysHere(r: seq<Sys>, es: seq<(NodeId, Event)>, n: NodeId, j: nat, k: nat)
    requires j <= k < |r| && |r| == |es| + 1 && Stays(r, es, n, j, k)
    ensures n in r[j].nodes && n in r[k].nodes && r[k].nodes[n].inst == r[j].nodes[n].inst
  {
  }

  /**
   * Once a proposer has counted a rejection, every Prepare it sends in that instance is
   * above the id it was rejected with, and above all its own ids up to then.
   */
  lemma PrepareAboveRejection(cfg: Config, r: seq<Sys>, es: seq<(NodeId, Event)>, n: NodeId, j: nat, k: nat, m: Message,
                              p: Message, own: Message)
    requires Trace(cfg, r, es) && j < k < |es| && CountedAt(cfg, r, es, n, j, m) && Stays(r, es, n, j, k)
    requires es[k].0 == n && Wf(cfg, r[k]) && Enabled(cfg, r[k], n, es[k].1)
    requires p in Run(cfg, r[k], n, es[k].1).fx.msgs && p.Prepare?
    requires own in r[j].sent && own.from == n && (own.Prepare? || own.Accept?)
    ensures p.id > m.rejectBy && p.id > own.id
  {
    hide *;
    CountedHere(cfg, r, es, n, j, m);
    StaysHere(r, es, n, j, k);
    ToldSince(cfg, r, es, n, j, k, m, m.rejectBy);
    NextPrepareAbove(cfg, r[k], n, es[k].1, m.rejectBy, p);
    ToldSince(cfg, r, es, n, j, k, m, r[j].nodes[n].prop.id);
    NextPrepareAbove(cfg, r[k], n, es[k].1, r[j].nodes[n].prop.id, p);
    TraceIsRun(cfg, r, es);
    RunKeepsInv(cfg, r, j);
    OwnIdsBelow(cfg, r[j], n, own);
  }

  lemma NextPrepareAbove(cfg: Config, s: Sys, n: NodeId, e: Event, x: nat, p: Message)
    requires Wf(cfg, s) && Enabled(cfg, s, n, e) && n in s.nodes && Told(s.nodes[n], x)
    requires p in Run(cfg, s, n, e).fx.msgs && p.Prepare?
    ensures p.id > x
  {
    hide Told, Enabled, Run;
    if Crash(e) {
      CrashPreparesNothing(cfg, s, n, e, x);
    } else {
      EventHeeds(cfg, s, n, e, x);
    }
  }

  lemma OwnIdsBelow(cfg: Config, s: Sys, n: NodeId, m: Message)
    requires Inv(cfg, s) && n in s.nodes && m in s.sent && m.from == n && (m.Prepare? || m.Accept?)
    ensures m.id <= s.nodes[n].prop.id
  {
    hide GlobalInv, PropInv, StoreInv;
    assert n in cfg.nodes;
    InvAt(cfg, s, n);
  }

  // ---------------------------------------------------------------- and no higher than that

  /** The proposer knows of no other id above `x` but its own acceptor's promise. */
  predicate Capped(node: Node, x: nat) {
    node.prop.highestOther <= Max(x, node.acc.promise.id)
  }

  /** A handler keeps that within the instance, and a new instance starts from nothing. */
  predicate Caps(node: Node, o: Out, x: nat) {
    if o.node.inst == node.inst then Capped(o.node, x) else o.node.prop.highestOther == 0
  }

  lemma SucceedCaps(node: Node, x: nat)
    requires Capped(node, x)
    ensures Caps(node, Succeed(node), x)
  {
  }

  lemma AcceptPartCaps(cfg: Config, node: Node, x: nat)
    requires Capped(node, x)
    ensures var o := AcceptPart(cfg, node); o.node.inst == node.inst && Capped(o.node, x)
  {
  }

  lemma AcceptRoundCaps(cfg: Config, node: Node, x: nat)
    requires Capped(node, x)
    ensures Caps(node, StartAcceptRound(cfg, node), x)
  {
    hide StartAcceptRound, AcceptPart, Succeed;
    AcceptRoundParts(cfg, node);
    AcceptPartCaps(cfg, node, x);
    SucceedCaps(AcceptPart(cfg, node).node, x);
  }

  lemma RecordCaps(node: Node, a: NodeId, rejectBy: nat, pre: Ballot, v: Value, x: nat)
    requires Capped(node, x) && rejectBy <= x
    ensures Capped(RecordPrepareReply(node, a, rejectBy, pre, v), x) && Capped(RecordAcceptReply(node, a, rejectBy), x)
    ensures RecordPrepareReply(node, a, rejectBy, pre, v).inst == node.inst == RecordAcceptReply(node, a, rejectBy).inst
  {
  }

  lemma PreparePartCaps(cfg: Config, node: Node, needNew: bool, x: nat)
    requires Capped(node, x)
    ensures var o := PreparePart(cfg, node, needNew); o.node.inst == node.inst && Capped(o.node, x)
  {
  }

  lemma SkippableCaps(node: Node, x: nat)
    requires Capped(node, x)
    ensures Capped(Skippable(node), x) && Skippable(node).inst == node.inst
  {
  }

  lemma PrepareRoundCaps(cfg: Config, node: Node, needNew: bool, x: nat)
    requires Capped(node, x)
    ensures Caps(node, StartPrepareRound(cfg, node, needNew), x)
  {
    hide StartPrepareRound, PreparePart, StartAcceptRound, Capped, Skippable;
    PrepareRoundParts(cfg, node, needNew);
    PreparePartCaps(cfg, node, needNew, x);
    SkippableCaps(PreparePart(cfg, node, needNew).node, x);
    AcceptRoundCaps(cfg, Skippable(PreparePart(cfg, node, needNew).node), x);
  }

  lemma ReplyCaps(cfg: Config, node: Node, m: Message, x: nat)
    requires (m.PrepareReply? || m.AcceptReply?) && m.from in cfg.nodes && Capped(node, x)
    requires Counts(cfg, node, m) ==> m.rejectBy <= x
    ensures Caps(node, OnReply(cfg, node, m), x)
  {
    hide StartAcceptRound, Succeed, RecordPrepareReply, RecordAcceptReply, Passed;
    if m.inst == node.inst && m.PrepareReply? && node.prop.preparing && m.id == node.prop.id {
      RecordCaps(node, m.from, m.rejectBy, m.pre, m.value, x);
      var n1 := RecordPrepareReply(node, m.from, m.rejectBy, m.pre, m.value);
      SkippableCaps(n1, x);
      AcceptRoundCaps(cfg, Skippable(n1), x);
    } else if m.inst == node.inst && m.AcceptReply? && node.prop.accepting && m.id == node.prop.id {
      RecordCaps(node, m.from, m.rejectBy, NULL_BALLOT, [], x);
      SucceedCaps(RecordAcceptReply(node, m.from, m.rejectBy), x);
    }
  }

  lemma OtherCaps(cfg: Config, node: Node, m: Message, x: nat)
    requires !m.PrepareReply? && !m.AcceptReply? && Capped(node, x)
    ensures Caps(node, if m.Prepare? || m.Accept? then OnRequest(cfg, node, m) else OnLearnerMsg(cfg, node, m), x)
  {
  }

  lemma ReceiveCaps(cfg: Config, node: Node, m: Message, x: nat)
    requires Receive(cfg, node, m).Some? && Capped(node, x)
    requires Counts(cfg, node, m) ==> m.rejectBy <= x
    ensures Caps(node, Receive(cfg, node, m).value, x)
  {
    hide OnReply, OnRequest, OnLearnerMsg;
    if m.PrepareReply? || m.AcceptReply? {
      if m.from in cfg.nodes {
        ReplyCaps(cfg, node, m, x);
      }
    } else if ChecksumLogic(node, m).Some? {
      OtherCaps(cfg, ChecksumLogic(node, m).value, m, x);
    }
  }

  lemma EventCaps(cfg: Config, s: Sys, n: NodeId, e: Event, x: nat)
    requires Wf(cfg, s) && Enabled(cfg, s, n, e) && n in s.nodes && Capped(s.nodes[n], x)
    requires e.EvDeliver? && Counts(cfg, s.nodes[n], e.msg) ==> e.msg.rejectBy <= x
    ensures Crash(e) || Caps(s.nodes[n], Run(cfg, s, n, e), x)
    ensures Crash(e) ==> Run(cfg, s, n, e).node.prop.highestOther == 0
  {
    var node := s.nodes[n];
    hide StartAcceptRound, StartPrepareRound, Receive, Counts;
    match e
    case EvNewValue(v) =>
      AcceptRoundCaps(cfg, OfferValue(node, v), x);
      PrepareRoundCaps(cfg, OfferValue(node, v), OfferValue(node, v).prop.wasRejected, x);
    case EvTimeout => PrepareRoundCaps(cfg, node, node.prop.wasRejected, x);
    case EvDeliver(m) => ReceiveCaps(cfg, node, m, x);
    case _ =>
  }

  lemma NoPrepares(cfg: Config, node: Node)
    ensures forall m :: m in StartAcceptRound(cfg, node).fx.msgs ==> !m.Prepare?
  {
  }

  lemma PrepareRoundIds(cfg: Config, node: Node, needNew: bool, m: Message)
    requires m in StartPrepareRound(cfg, node, needNew).fx.msgs && m.Prepare?
    ensures m.id <= Max(node.prop.id, node.prop.highestOther) + 1
  {
    hide StartPrepareRound, StartAcceptRound, AcceptorOnPrepare, RecordPrepareReply;
    PrepareRoundParts(cfg, node, needNew);
    NoPrepares(cfg, Skippable(PreparePart(cfg, node, needNew).node));
  }

  lemma DeliveredIds(cfg: Config, node: Node, m: Message, p: Message)
    requires Receive(cfg, node, m).Some? && p in Receive(cfg, node, m).value.fx.msgs
    ensures !p.Prepare?
  {
    hide StartAcceptRound, RecordPrepareReply, RecordAcceptReply;
    if m.PrepareReply? {
      var n1 := RecordPrepareReply(node, m.from, m.rejectBy, m.pre, m.value);
      NoPrepares(cfg, n1.(prop := n1.prop.(canSkip := true)));
    }
  }

  lemma EventIds(cfg: Config, s: Sys, n: NodeId, e: Event, p: Message)
    requires Wf(cfg, s) && Enabled(cfg, s, n, e) && n in s.nodes && p in Run(cfg, s, n, e).fx.msgs && p.Prepare?
    ensures p.id <= Max(s.nodes[n].prop.id, s.nodes[n].prop.highestOther) + 1
  {
    var node := s.nodes[n];
    hide StartAcceptRound, StartPrepareRound, Receive;
    match e
    case EvNewValue(v) =>
      NoPrepares(cfg, OfferValue(node, v));
      if p in StartPrepareRound(cfg, OfferValue(node, v), OfferValue(node, v).prop.wasRejected).fx.msgs {
        PrepareRoundIds(cfg, OfferValue(node, v), OfferValue(node, v).prop.wasRejected, p);
      }
    case EvTimeout =>
      if p in StartPrepareRound(cfg, node, node.prop.wasRejected).fx.msgs {
        PrepareRoundIds(cfg, node, node.prop.wasRejected, p);
      }
    case EvDeliver(m) => DeliveredIds(cfg, node, m, p);
    case _ =>
  }

  /** In its present instance `n` has counted a rejection naming a ballot id of at least `x`. */
  ghost predicate RejectedWith(cfg: Config, r: seq<Sys>, es: seq<(NodeId, Event)>, n: NodeId, k: nat, x: nat)
    requires k < |r| == |es| + 1
  {
    exists j: nat, m ::
      && j < k && CountedAt(cfg, r, es, n, j, m) && Stays(r, es, n, j, k)
      && (m.PrepareReply? || m.AcceptReply?) && x <= m.rejectBy
  }

  lemma StaysOn(cfg: Config, r: seq<Sys>, es: seq<(NodeId, Event)>, n: NodeId, k: nat, x: nat)
    requires |r| == |es| + 1 && k < |es| && RejectedWith(cfg, r, es, n, k, x)
    requires n in r[k].nodes && n in r[k + 1].nodes && r[k + 1].nodes[n].inst == r[k].nodes[n].inst
    requires es[k].0 == n ==> !Crash(es[k].1)
    ensures RejectedWith(cfg, r, es, n, k + 1, x)
  {
    hide CountedAt;
    var j: nat, m :| && j < k && CountedAt(cfg, r, es, n, j, m) && Stays(r, es, n, j, k)
      && (m.PrepareReply? || m.AcceptReply?) && x <= m.rejectBy;
    assert Stays(r, es, n, j, k + 1);
  }

  lemma RejectedJustNow(cfg: Config, r: seq<Sys>, es: seq<(NodeId, Event)>, n: NodeId, k: nat, m: Message)
    requires |r| == |es| + 1 && k < |es| && CountedAt(cfg, r, es, n, k, m)
    requires n in r[k].nodes && n in r[k + 1].nodes && r[k + 1].nodes[n].inst == r[k].nodes[n].inst
    ensures (m.PrepareReply? || m.AcceptReply?) && RejectedWith(cfg, r, es, n, k + 1, m.rejectBy)
  {
    assert Stays(r, es, n, k, k + 1);
  }

  lemma RejectedWithLess(cfg: Config, r: seq<Sys>, es: seq<(NodeId, Event)>, n: NodeId, k: nat, x: nat, y: nat)
    requires |r| == |es| + 1 && k < |r| && RejectedWith(cfg, r, es, n, k, x) && y <= x
    ensures RejectedWith(cfg, r, es, n, k, y)
  {
    hide CountedAt, Stays;
  }

  lemma CountsRejection(cfg: Config, node: Node, m: Message)
    requires Counts(cfg, node, m)
    ensures m.PrepareReply? || m.AcceptReply?
  {
  }

  ghost predicate Known(cfg: Config, r: seq<Sys>, es: seq<(NodeId, Event)>, n: NodeId, k: nat)
    requires |r| == |es| + 1 && k < |r|
  {
    && n in r[k].nodes
    && var h := r[k].nodes[n].prop.highestOther;
       h <= r[k].nodes[n].acc.promise.id || RejectedWith(cfg, r, es, n, k, h)
  }

  lemma KnownStep(cfg: Config, r: seq<Sys>, es: seq<(NodeId, Event)>, n: NodeId, k: nat)
    requires |r| == |es| + 1 && k < |es| && Known(cfg, r, es, n, k)
    requires StepBy(cfg, r[k], r[k + 1], es[k].0, es[k].1)
    ensures Known(cfg, r, es, n, k + 1)
  {
    hide Counts, Run, Enabled, RejectedWith;
    var a, e := es[k].0, es[k].1;
    StepNode(cfg, r[k], r[k + 1], a, e, n);
    var node, node' := r[k].nodes[n], r[k + 1].nodes[n];
    var h, h' := node.prop.highestOther, node'.prop.highestOther;
    if a != n {
      if h > node.acc.promise.id {
        StaysOn(cfg, r, es, n, k, h);
      }
      return;
    }
    var counted := e.EvDeliver? && Counts(cfg, node, e.msg);
    if counted {
      CountsRejection(cfg, node, e.msg);
    }
    var x0 := if h <= node.acc.promise.id then 0 else h;
    var x := if counted then Max(x0, e.msg.rejectBy) else x0;
    EventCaps(cfg, r[k], n, e, x);
    if !Crash(e) && node'.inst == node.inst && h' > node'.acc.promise.id {
      if counted && x == e.msg.rejectBy {
        RejectedJustNow(cfg, r, es, n, k, e.msg);
        RejectedWithLess(cfg, r, es, n, k + 1, e.msg.rejectBy, h');
      } else {
        StaysOn(cfg, r, es, n, k, h);
        RejectedWithLess(cfg, r, es, n, k + 1, h, h');
      }
    }
  }

  /** What the proposer knows of others comes from a rejection counted in this instance, or its own acceptor. */
  lemma {:induction false} KnownFromRejections(cfg: Config, r: seq<Sys>, es: seq<(NodeId, Event)>, n: NodeId, k: nat)
    requires |r| == |es| + 1 && Trace(cfg, r, es) && k < |r| && n in cfg.nodes
    ensures Known(cfg, r, es, n, k)
  {
    hide StepBy, Known, Permitted, Init;
    if k == 0 {
      FirstKnown(cfg, r, es, n);
    } else {
      KnownFromRejections(cfg, r, es, n, k - 1);
      assert StepBy(cfg, r[k - 1], r[k - 1 + 1], es[k - 1].0, es[k - 1].1);
      KnownStep(cfg, r, es, n, k - 1);
    }
  }

  lemma FirstKnown(cfg: Config, r: seq<Sys>, es: seq<(NodeId, Event)>, n: NodeId)
    requires |r| == |es| + 1 && Init(cfg, r[0]) && n in cfg.nodes
    ensures Known(cfg, r, es, n, 0)
  {
  }

  /**
   * And a Prepare goes no higher than it must: by one over the proposer's present id, the own
   * acceptor's promise, or an id that it was rejected with in this instance.
   */
  lemma PrepareNoHigher(cfg: Config, r: seq<Sys>, es: seq<(NodeId, Event)>, n: NodeId, k: nat, p: Message)
    requires |r| == |es| + 1 && Trace(cfg, r, es) && k < |es| && es[k].0 == n && n in cfg.nodes && n in r[k].nodes
    requires Wf(cfg, r[k]) && Enabled(cfg, r[k], n, es[k].1) && p in Run(cfg, r[k], n, es[k].1).fx.msgs && p.Prepare?
    ensures p.id <= r[k].nodes[n].prop.id + 1 || p.id <= r[k].nodes[n].acc.promise.id + 1
      || RejectedWith(cfg, r, es, n, k, p.id - 1)
  {
    hide *;
    KnownFromRejections(cfg, r, es, n, k);
    EventIds(cfg, r[k], n, es[k].1, p);
    IdsKnown(cfg, r, es, n, k, p.id);
  }

  lemma IdsKnown(cfg: Config, r: seq<Sys>, es: seq<(NodeId, Event)>, n: NodeId, k: nat, id: nat)
    requires |r| == |es| + 1 && k < |r| && Known(cfg, r, es, n, k)
    requires id <= Max(r[k].nodes[n].prop.id, r[k].nodes[n].prop.highestOther) + 1
    ensures id <= r[k].nodes[n].prop.id + 1 || id <= r[k].nodes[n].acc.promise.id + 1
      || RejectedWith(cfg, r, es, n, k, id - 1)
  {
    hide RejectedWith;
    if id > r[k].nodes[n].prop.id + 1 && id > r[k].nodes[n].acc.promise.id + 1 {
      RejectedWithLess(cfg, r, es, n, k, r[k].nodes[n].prop.highestOther, id - 1);
    }
  }
}
