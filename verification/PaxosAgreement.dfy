/** Every guarded run: agreement, one value per ballot, true logs, silent checksum assertion. */
module PaxosAgreement {
  import opened PaxosTypes
  import opened NodeSpec
  import opened PaxosSystem
  import opened PaxosInvariant
  import opened PaxosStable
  import opened PaxosSteps
  import opened PaxosAcceptorSteps
  import opened PaxosLearnSteps
  import opened PaxosCrashes
  import opened PaxosProposerSteps
  import opened PaxosRounds

  // ---------------------------------------------------------------- checksums

  lemma ChkUnique(cfg: Config, s: Sys, i: nat, c: nat, vs: seq<Value>)
    requires Wf(cfg, s) && VotesProposed(cfg, s) && OneValue(s) && ProposalsSafe(cfg, s)
    requires ChkOk(cfg, s, i, c) && Prefix(cfg, s, vs, i)
    ensures c == 0 || c == Fold(cfg, vs)
  {
    if c != 0 {
      var ws :| Prefix(cfg, s, ws, i) && c == Fold(cfg, ws);
      PrefixUnique(cfg, s, vs, ws);
    }
  }

  lemma MessageChkOk(cfg: Config, s: Sys, m: Message)
    requires Wf(cfg, s) && MsgOk(cfg, s, m)
    ensures ChkOk(cfg, s, m.inst, MessageChk(m))
  {
  }

  lemma SentOk(cfg: Config, s: Sys, m: Message)
    requires Wf(cfg, s) && GlobalInv(cfg, s) && m in s.sent
    ensures MsgOk(cfg, s, m)
  {
  }

  lemma ChkSettled(cfg: Config, node: Node, m: Message)
    requires m.inst == node.inst ==> MessageChk(m) == 0 || MessageChk(m) == node.lastChk
    ensures ChecksumLogic(node, m) == Some(node)
  {
  }

  /** The checksum test neither fails nor adopts a foreign checksum. */
  lemma ChecksumSilent(cfg: Config, s: Sys, n: NodeId, m: Message)
    requires n in cfg.nodes && n in s.nodes && m in s.sent
    requires Inv(cfg, s)
    ensures ChecksumLogic(s.nodes[n], m) == Some(s.nodes[n])
  {
    InvAt(cfg, s, n);
    GlobalVotes(cfg, s);
    SentOk(cfg, s, m);
    MessageChkOk(cfg, s, m);
    var node := s.nodes[n];
    hide Inv, GlobalInv, PropInv, IdInv, MsgOk, Prefix, ChkOk;
    if m.inst == node.inst {
      HistoryPrefix(cfg, s, n, node);
      ChkUnique(cfg, s, node.inst, MessageChk(m), LogPrefix(node.log, node.inst));
    }
    ChkSettled(cfg, node, m);
  }

  // ---------------------------------------------------------------- the next-instance shortcut

  lemma QuorumMeetsPair(cfg: Config, q: set<NodeId>, x: NodeId, y: NodeId)
    requires IsQuorum(cfg, q) && x in cfg.nodes && y in cfg.nodes && x != y && |cfg.nodes| <= 4
    ensures x in q || y in q
  {
    if x !in q && y !in q {
      assert |q + {x, y}| == |q| + 2;
      SubsetSize(q + {x, y}, cfg.nodes);
    }
  }

  /** Two of at most four nodes voted for (b, v): nothing else can have been chosen. */
  lemma PairForces(cfg: Config, s: Sys, i: nat, b: Ballot, v: Value, x: NodeId, y: NodeId, w: Value)
    requires Wf(cfg, s) && VotesProposed(cfg, s) && OneValue(s) && ProposalsSafe(cfg, s)
    requires |cfg.nodes| <= 4 && x in cfg.nodes && y in cfg.nodes && x != y
    requires Vote(x, i, b, v) in s.votes && Vote(y, i, b, v) in s.votes
    requires Chosen(cfg, s, i, w)
    ensures v == w
  {
    var b' :| ChosenAt(cfg, s, i, b', w);
    ChosenProposed(cfg, s, i, b', w);
    assert Proposed(s, i, b, v);
    if b'.Above(b) {
      assert Blocked(cfg, s, i, b, w);
      var q :| QuorumClosed(cfg, s, q, i, b, w);
      QuorumMeetsPair(cfg, q, x, y);
      assert x in q ==> Closed(s, x, i, b, w);
      assert y in q ==> Closed(s, y, i, b, w);
    } else if b.Above(b') {
      ChosenBelowSafe(cfg, s, i, b', w, b, v);
    } else {
      assert b == b';
    }
  }

  /** For at most four nodes a next-instance request proves the own accepted value chosen. */
  lemma ShortcutChosen(cfg: Config, s: Sys, n: NodeId, i: nat, from: NodeId, id: nat)
    requires Wf(cfg, s) && GlobalInv(cfg, s) && n in cfg.nodes && AccInv(s, n, s.nodes[n])
    requires |cfg.nodes| <= 4 && from != n && id > 0
    requires RequestOk(cfg, s, i, Ballot(id, from)) && i == s.nodes[n].inst + 1
    requires s.nodes[n].acc.accepted == Ballot(id, from)
    ensures s.nodes[n].acc.value != [] && Chosen(cfg, s, s.nodes[n].inst, s.nodes[n].acc.value)
  {
    var node := s.nodes[n];
    var b := Ballot(id, from);
    AcceptedNonEmpty(cfg, s, n, node);
    assert Vote(from, node.inst, b, node.acc.value) in s.votes;
    assert Vote(n, node.inst, b, node.acc.value) in s.votes;
    var vs :| Prefix(cfg, s, vs, i);
    assert Chosen(cfg, s, node.inst, vs[node.inst]);
    PairForces(cfg, s, node.inst, b, node.acc.value, from, n, vs[node.inst]);
  }

  // ---------------------------------------------------------------- delivery

  lemma ReplyFacts(cfg: Config, s: Sys, n: NodeId, m: Message)
    requires Wf(cfg, s) && MsgOk(cfg, s, m) && (m.PrepareReply? || m.AcceptReply?) && m.to == n
    ensures m.PrepareReply? ==> PrepareFact(cfg, s, m.from, m.inst, Ballot(m.id, n), m.rejectBy, m.pre, m.value)
    ensures m.AcceptReply? ==> AcceptFact(cfg, s, m.from, m.inst, Ballot(m.id, n), m.rejectBy)
  {
  }

  lemma LateReplyStep(cfg: Config, s: Sys, n: NodeId, rejectBy: nat)
    requires n in cfg.nodes && n in s.nodes
    requires Inv(cfg, s)
    ensures Inv(cfg, Apply(s, n, Quiet(s.nodes[n].(prop := NoteReject(s.nodes[n].prop, rejectBy)))))
  {
    hide *;
    InvAt(cfg, s, n);
    RejectNoted(cfg, s, n, s.nodes[n], rejectBy);
    NoteKeepsId(s.nodes[n], rejectBy);
    BookkeepingStep(cfg, s, n, NoteReject(s.nodes[n].prop, rejectBy));
  }

  lemma NoteKeepsId(node: Node, rejectBy: nat)
    ensures NoteReject(node.prop, rejectBy).id == node.prop.id
    ensures SkipEarned(node, node.(prop := NoteReject(node.prop, rejectBy)))
  {
  }

  lemma ReplyParts(cfg: Config, node: Node, m: Message)
    requires m.PrepareReply? || m.AcceptReply?
    ensures m.inst == node.inst && m.PrepareReply? ==>
      OnReply(cfg, node, m) == OnPrepareReply(cfg, node, m.from, m.id, m.rejectBy, m.pre, m.value)
    ensures m.inst == node.inst && m.AcceptReply? ==>
      OnReply(cfg, node, m) == OnAcceptReply(cfg, node, m.from, m.id, m.rejectBy)
    ensures m.inst != node.inst ==>
      || OnReply(cfg, node, m) == Quiet(node)
      || OnReply(cfg, node, m) == Quiet(node.(prop := NoteReject(node.prop, m.rejectBy)))
  {
  }

  lemma ReplyStep(cfg: Config, s: Sys, n: NodeId, m: Message)
    requires n in cfg.nodes && n in s.nodes && m in s.sent && (m.PrepareReply? || m.AcceptReply?) && m.to == n
    requires Inv(cfg, s)
    ensures Inv(cfg, Apply(s, n, OnReply(cfg, s.nodes[n], m)))
  {
    hide *;
    InvAt(cfg, s, n);
    SentOk(cfg, s, m);
    ReplyFacts(cfg, s, n, m);
    ReplyParts(cfg, s.nodes[n], m);
    if m.inst != s.nodes[n].inst {
      NoChange(s, n);
      LateReplyStep(cfg, s, n, m.rejectBy);
    } else if m.PrepareReply? {
      PrepareReplyStep(cfg, s, n, m.from, m.id, m.rejectBy, m.pre, m.value);
    } else {
      AcceptReplyStep(cfg, s, n, m.from, m.id, m.rejectBy);
    }
  }

  lemma AcceptorParts(cfg: Config, node: Node, m: Message)
    requires m.Prepare? || m.Accept?
    ensures m.inst != node.inst ==> AcceptorReceive(cfg, node, m) == Quiet(node)
    ensures m.inst == node.inst && m.Prepare? ==>
      var r := AcceptorOnPrepare(cfg, node, m.from, m.id);
      AcceptorReceive(cfg, node, m) ==
        Send(Quiet(r.node), PrepareReply(node.inst, node.me, m.from, m.id, r.rejectBy, r.pre, r.value))
    ensures m.inst == node.inst && m.Accept? ==>
      var r := AcceptorOnAccept(cfg, node, m.from, m.id, m.value);
      AcceptorReceive(cfg, node, m) ==
        Send(Out(r.node, Effects({}, r.votes, {})), AcceptReply(node.inst, node.me, m.from, m.id, r.rejectBy))
  {
  }

  lemma AcceptorStep(cfg: Config, s: Sys, n: NodeId, m: Message)
    requires n in cfg.nodes && n in s.nodes && m in s.sent && (m.Prepare? || m.Accept?)
    requires Inv(cfg, s)
    ensures Inv(cfg, Apply(s, n, AcceptorReceive(cfg, s.nodes[n], m)))
  {
    hide *;
    InvAt(cfg, s, n);
    RequestFacts(cfg, s, m);
    RequestPositive(cfg, s, m.inst, Ballot(m.id, m.from));
    AcceptorParts(cfg, s.nodes[n], m);
    if m.inst != s.nodes[n].inst {
      NoChange(s, n);
    } else if m.Prepare? {
      OnOthersPrepare(cfg, s, n, m.from, m.id);
    } else {
      OnOthersAccept(cfg, s, n, m.from, m.id, m.value);
    }
  }

  lemma RequestPositive(cfg: Config, s: Sys, i: nat, b: Ballot)
    requires Wf(cfg, s) && RequestOk(cfg, s, i, b)
    ensures b.id > 0 && b.node in cfg.nodes
  {
  }

  lemma ShortcutSize(cfg: Config, node: Node, m: Message)
    requires ShortcutPermitted(cfg, node, m) && (m.Prepare? || m.Accept?) && m.inst == node.inst + 1
    requires node.acc.accepted == Ballot(m.id, m.from)
    ensures |cfg.nodes| <= 4
  {
  }

  lemma RequestShortcut(cfg: Config, s: Sys, n: NodeId, m: Message)
    requires n in cfg.nodes && n in s.nodes && m in s.sent && (m.Prepare? || m.Accept?) && m.from != n
    requires m.inst == s.nodes[n].inst + 1 && ShortcutPermitted(cfg, s.nodes[n], m)
    requires Inv(cfg, s)
    ensures Inv(cfg, Apply(s, n, LearnBySuccess(s.nodes[n], s.nodes[n].inst, m.from, m.id)))
  {
    hide *;
    InvAt(cfg, s, n);
    var node := s.nodes[n];
    StoreParts(cfg, s, n, node);
    RequestFacts(cfg, s, m);
    RequestPositive(cfg, s, m.inst, Ballot(m.id, m.from));
    if node.acc.accepted == Ballot(m.id, m.from) {
      ShortcutSize(cfg, node, m);
      ShortcutChosen(cfg, s, n, m.inst, m.from, m.id);
    }
    LearnOwnStep(cfg, s, n, node.inst, m.from, m.id);
  }

  lemma RequestParts(cfg: Config, s: Sys, n: NodeId, m: Message)
    requires n in s.nodes && (m.Prepare? || m.Accept?)
    ensures var node := s.nodes[n];
      m.inst != node.inst + 1 ==> OnRequest(cfg, node, m) == AcceptorReceive(cfg, node, m)
    ensures var node := s.nodes[n];
      var o := LearnBySuccess(node, node.inst, m.from, m.id);
      m.inst == node.inst + 1 ==> OnRequest(cfg, node, m) == Then(o, AcceptorReceive(cfg, o.node, m))
    ensures var node := s.nodes[n];
      m in s.sent ==> m in Apply(s, n, LearnBySuccess(node, node.inst, m.from, m.id)).sent
  {
    var node := s.nodes[n];
    var p := AcceptorReceive(cfg, node, m);
    assert Then(Quiet(node), p).fx == p.fx;
  }

  lemma RequestStep(cfg: Config, s: Sys, n: NodeId, m: Message)
    requires n in cfg.nodes && n in s.nodes && m in s.sent && (m.Prepare? || m.Accept?) && m.from != n
    requires ShortcutPermitted(cfg, s.nodes[n], m)
    requires Inv(cfg, s)
    ensures Inv(cfg, Apply(s, n, OnRequest(cfg, s.nodes[n], m)))
  {
    hide *;
    var node := s.nodes[n];
    RequestParts(cfg, s, n, m);
    if m.inst == node.inst + 1 {
      RequestShortcut(cfg, s, n, m);
      var o := LearnBySuccess(node, node.inst, m.from, m.id);
      ApplyNode(s, n, o);
      AcceptorStep(cfg, Apply(s, n, o), n, m);
      ApplyTwice(s, n, o, AcceptorReceive(cfg, o.node, m));
    } else {
      AcceptorStep(cfg, s, n, m);
    }
  }

  lemma LearnerFacts(cfg: Config, s: Sys, m: Message) returns (v: Value)
    requires Wf(cfg, s) && MsgOk(cfg, s, m) && (m.Success? || m.Learn?)
    ensures m.Success? ==> ChosenAt(cfg, s, m.inst, Ballot(m.id, m.from), v)
    ensures m.Learn? ==> m.value != [] && Chosen(cfg, s, m.inst, m.value)
  {
    if m.Success? {
      v :| ChosenAt(cfg, s, m.inst, Ballot(m.id, m.from), v);
    } else {
      v := [];
    }
  }

  lemma LearnerParts(cfg: Config, node: Node, m: Message)
    requires m.Success? || m.Learn?
    ensures m.Success? ==> OnLearnerMsg(cfg, node, m) == LearnBySuccess(node, m.inst, m.from, m.id)
    ensures m.Learn? ==> OnLearnerMsg(cfg, node, m) == LearnByCopy(cfg, node, m.inst, m.ballot, m.value)
  {
  }

  lemma LearnerStep(cfg: Config, s: Sys, n: NodeId, m: Message)
    requires n in cfg.nodes && n in s.nodes && m in s.sent && (m.Success? || m.Learn?)
    requires Inv(cfg, s)
    ensures Inv(cfg, Apply(s, n, OnLearnerMsg(cfg, s.nodes[n], m)))
  {
    hide *;
    InvAt(cfg, s, n);
    SentOk(cfg, s, m);
    var v := LearnerFacts(cfg, s, m);
    LearnerParts(cfg, s.nodes[n], m);
    if m.Success? {
      HeedSuccess(cfg, s, n, m.inst, m.from, m.id, v);
    } else {
      LearnCopyStep(cfg, s, n, m.inst, m.ballot, m.value);
    }
  }

  /** With the checksum silent, delivery is the plain handler. */
  lemma ReceiveParts(cfg: Config, node: Node, m: Message)
    requires ChecksumLogic(node, m) == Some(node)
    ensures Receive(cfg, node, m) ==
      if (m.PrepareReply? || m.AcceptReply?) && m.from in cfg.nodes then Some(OnReply(cfg, node, m))
      else if (m.Prepare? || m.Accept?) && m.from in cfg.nodes then Some(OnRequest(cfg, node, m))
      else if m.Success? || m.Learn? then Some(OnLearnerMsg(cfg, node, m))
      else Some(Quiet(node))
  {
  }

  lemma AddressedFacts(m: Message, n: NodeId)
    requires Addressed(m, n)
    ensures m.Prepare? || m.Accept? ==> m.from != n
    ensures m.PrepareReply? || m.AcceptReply? ==> m.to == n
  {
  }

  lemma DeliverStep(cfg: Config, s: Sys, n: NodeId, m: Message)
    requires n in cfg.nodes && n in s.nodes && m in s.sent && Addressed(m, n)
    requires ShortcutPermitted(cfg, s.nodes[n], m)
    requires Inv(cfg, s)
    ensures Receive(cfg, s.nodes[n], m).Some?
    ensures Inv(cfg, Apply(s, n, Receive(cfg, s.nodes[n], m).value))
  {
    hide *;
    ChecksumSilent(cfg, s, n, m);
    ReceiveParts(cfg, s.nodes[n], m);
    AddressedFacts(m, n);
    if (m.PrepareReply? || m.AcceptReply?) && m.from in cfg.nodes {
      ReplyStep(cfg, s, n, m);
    } else if (m.Prepare? || m.Accept?) && m.from in cfg.nodes {
      RequestStep(cfg, s, n, m);
    } else if m.Success? || m.Learn? {
      LearnerStep(cfg, s, n, m);
    } else {
      NoChange(s, n);
    }
  }

  // ---------------------------------------------------------------- events

  lemma OfferStep(cfg: Config, s: Sys, n: NodeId, v: Value)
    requires n in cfg.nodes && n in s.nodes && v != []
    requires Inv(cfg, s)
    ensures Inv(cfg, Apply(s, n, Quiet(OfferValue(s.nodes[n], v))))
    ensures OfferValue(s.nodes[n], v).prop.value != []
  {
    hide *;
    InvAt(cfg, s, n);
    GlobalVotes(cfg, s);
    ValueOffered(cfg, s, n, s.nodes[n], v);
    OfferShape(s.nodes[n], v);
    BookkeepingStep(cfg, s, n, OfferValue(s.nodes[n], v).prop);
  }

  lemma OfferShape(node: Node, v: Value)
    ensures var n1 := OfferValue(node, v);
      n1 == node.(prop := n1.prop) && n1.prop.id == node.prop.id && n1.me == node.me
      && n1.prop.canSkip == node.prop.canSkip && n1.prop.wasRejected == node.prop.wasRejected
      && SkipEarned(node, n1) && SkipEarned(n1, n1)
  {
  }

  lemma NewValueParts(cfg: Config, node: Node, v: Value)
    ensures var n1 := OfferValue(node, v);
      NewValue(cfg, node, v) == Then(Quiet(n1),
        if n1.prop.canSkip && !n1.prop.wasRejected then StartAcceptRound(cfg, n1)
        else StartPrepareRound(cfg, n1, n1.prop.wasRejected))
  {
    hide StartAcceptRound, StartPrepareRound, OfferValue;
    var n1 := OfferValue(node, v);
    AfterQuiet(n1, NewValue(cfg, node, v));
  }

  lemma AfterQuiet(n: Node, o: Out)
    ensures Then(Quiet(n), o) == o
  {
    assert {} + o.fx.msgs == o.fx.msgs && {} + o.fx.votes == o.fx.votes && {} + o.fx.learned == o.fx.learned;
  }

  lemma NewValueStep(cfg: Config, s: Sys, n: NodeId, v: Value)
    requires n in cfg.nodes && n in s.nodes && v != []
    requires (s.nodes[n].prop.canSkip && !s.nodes[n].prop.wasRejected) || RepreparePermitted(s, n)
    requires Inv(cfg, s)
    ensures Inv(cfg, Apply(s, n, NewValue(cfg, s.nodes[n], v)))
  {
    hide *;
    var node := s.nodes[n];
    var n1 := OfferValue(node, v);
    InvAt(cfg, s, n);
    NewValueParts(cfg, node, v);
    OfferStep(cfg, s, n, v);
    OfferShape(node, v);
    QuietNode(n1);
    ApplyNode(s, n, Quiet(n1));
    var s1 := Apply(s, n, Quiet(n1));
    InvAt(cfg, s1, n);
    if n1.prop.canSkip && !n1.prop.wasRejected {
      GlobalVotes(cfg, s1);
      SkipReady(cfg, s1, n, n1);
      AcceptRoundAfter(cfg, s, n, Quiet(n1), n1);
    } else {
      GuardKept(s, n, n1);
      GuardReady(cfg, s1, n, n1);
      PrepareRoundStep(cfg, s1, n, n1.prop.wasRejected);
      ApplyTwice(s, n, Quiet(n1), StartPrepareRound(cfg, n1, n1.prop.wasRejected));
    }
  }

  lemma GuardKept(s: Sys, n: NodeId, n1: Node)
    requires n in s.nodes && RepreparePermitted(s, n)
    requires n1 == s.nodes[n].(prop := n1.prop) && n1.prop.id == s.nodes[n].prop.id
    requires n1.prop.wasRejected == s.nodes[n].prop.wasRejected
    ensures n in Apply(s, n, Quiet(n1)).nodes && RepreparePermitted(Apply(s, n, Quiet(n1)), n)
  {
    var s1 := Apply(s, n, Quiet(n1));
    assert s1.sent == s.sent;
    assert AcceptOut(s1, n) ==> AcceptOut(s, n);
  }

  lemma WorkingHasValue(cfg: Config, s: Sys, n: NodeId, node: Node)
    requires Wf(cfg, s) && ProposalsSafe(cfg, s) && PropInv(cfg, s, n, node)
    requires node.prop.preparing || node.prop.accepting
    ensures node.prop.value != []
  {
  }

  lemma TimeoutParts(cfg: Config, node: Node)
    ensures OnTimeout(cfg, node) == Quiet(node)
         || OnTimeout(cfg, node) == StartPrepareRound(cfg, node, node.prop.wasRejected)
  {
  }

  lemma TimeoutStep(cfg: Config, s: Sys, n: NodeId)
    requires n in cfg.nodes && n in s.nodes && (s.nodes[n].prop.preparing || s.nodes[n].prop.accepting)
    requires RepreparePermitted(s, n)
    requires Inv(cfg, s)
    ensures Inv(cfg, Apply(s, n, OnTimeout(cfg, s.nodes[n])))
  {
    hide *;
    InvAt(cfg, s, n);
    GlobalVotes(cfg, s);
    NoChange(s, n);
    TimeoutParts(cfg, s.nodes[n]);
    WorkingHasValue(cfg, s, n, s.nodes[n]);
    GuardReady(cfg, s, n, s.nodes[n]);
    PrepareRoundStep(cfg, s, n, s.nodes[n].prop.wasRejected);
  }

  lemma CommitTimeoutStep(cfg: Config, s: Sys, n: NodeId)
    requires n in cfg.nodes && n in s.nodes
    requires Inv(cfg, s)
    ensures Inv(cfg, Apply(s, n, OnCommitTimeout(s.nodes[n])))
  {
    InvAt(cfg, s, n);
    hide PropInv, StoreInv, IdInv, Inv, GlobalInv;
    PhaseLeft(cfg, s, n, s.nodes[n]);
    BookkeepingStep(cfg, s, n, s.nodes[n].prop.(preparing := false, accepting := false));
  }

  // ---------------------------------------------------------------- dying with Accept sent

  lemma CutShape(s: Sys, n: NodeId, n1: Node, nd: Node, lost: Option<nat>, k: nat, next: nat)
    requires n in s.nodes && n1 == s.nodes[n].(prop := n1.prop) && nd == n1.(prop := nd.prop)
    ensures var s2 := Apply(Apply(s, n, Quiet(n1)), n, CutPart(nd));
      && n in s2.nodes && s2.nodes[n].log == s.nodes[n].log && s2.nodes[n].inst == s.nodes[n].inst
      && Apply(s2, n, Reopen(Survivor(s2.nodes[n], lost), k, next)) ==
           Apply(s, n, Send(Reopen(Survivor(s.nodes[n], lost), k, next), AcceptMsg(nd)))
  {
    var s2 := Apply(Apply(s, n, Quiet(n1)), n, CutPart(nd));
    assert Reopen(Survivor(s2.nodes[n], lost), k, next) == Reopen(Survivor(s.nodes[n], lost), k, next);
    assert s.nodes[n := n1][n := CutPart(nd).node] == s.nodes[n := CutPart(nd).node];
  }

  /** From the moment Accept is broadcast, the node goes straight to its next start. */
  lemma CutThenRestart(cfg: Config, s: Sys, n: NodeId, n1: Node, nd: Node, lost: Option<nat>, k: nat, next: nat)
    requires n in cfg.nodes && n in s.nodes && n1 == s.nodes[n].(prop := n1.prop) && nd.me == n
    requires nd == n1.(prop := nd.prop) && nd.prop.id == n1.prop.id && SkipEarned(n1, nd) && nd.prop.canSkip
    requires Starts(s.nodes[n], lost, k, next) && RestartPermitted(Survivor(s.nodes[n], lost), k)
    requires CheckpointPermitted(lost, next)
    requires Wf(cfg, Apply(s, n, Quiet(n1))) && AcceptReady(cfg, Apply(s, n, Quiet(n1)), n, nd)
    requires Inv(cfg, Apply(s, n, Quiet(n1)))
    ensures Inv(cfg, Apply(s, n, Send(Reopen(Survivor(s.nodes[n], lost), k, next), AcceptMsg(nd))))
  {
    hide *;
    var s1 := Apply(s, n, Quiet(n1));
    QuietNode(n1);
    ApplyNode(s, n, Quiet(n1));
    CutPartStep(cfg, s1, n, nd);
    CutShape(s, n, n1, nd, lost, k, next);
    SameStart(s.nodes[n], Apply(s1, n, CutPart(nd)).nodes[n], lost, k, next);
    CrashStep(cfg, Apply(s1, n, CutPart(nd)), n, lost, k, next);
  }

  lemma SameStart(n: Node, n': Node, lost: Option<nat>, k: nat, next: nat)
    requires n'.log == n.log && n'.inst == n.inst
    requires Starts(n, lost, k, next) && RestartPermitted(Survivor(n, lost), k)
    ensures Starts(n', lost, k, next) && RestartPermitted(Survivor(n', lost), k)
  {
  }

  lemma AcceptingParts(cfg: Config, node: Node, c: Event)
    requires Accepting(cfg, node, c).Some?
    ensures c.EvNewValue? || c.EvDeliver?
    ensures c.EvNewValue? ==>
      && c.value != [] && Accepting(cfg, node, c).value == OfferValue(node, c.value)
      && OfferValue(node, c.value).prop.canSkip && !OfferValue(node, c.value).prop.wasRejected
    ensures c.EvDeliver? ==>
      var m := c.msg;
      && m.PrepareReply? && m.from in cfg.nodes && m.inst == node.inst && node.prop.preparing && m.id == node.prop.id
      && var n1 := RecordPrepareReply(node, m.from, m.rejectBy, m.pre, m.value);
         Passed(cfg, n1.prop.counter) && Accepting(cfg, node, c).value == Skippable(n1)
  {
  }

  lemma CutAcceptStep(cfg: Config, s: Sys, n: NodeId, c: Event, lost: Option<nat>, k: nat, next: nat)
    requires n in cfg.nodes && n in s.nodes && Accepting(cfg, s.nodes[n], c).Some?
    requires c.EvDeliver? ==> c.msg in s.sent && Addressed(c.msg, n)
    requires Starts(s.nodes[n], lost, k, next) && RestartPermitted(Survivor(s.nodes[n], lost), k)
    requires CheckpointPermitted(lost, next)
    requires Inv(cfg, s)
    ensures Inv(cfg, Apply(s, n,
      Send(Reopen(Survivor(s.nodes[n], lost), k, next), AcceptMsg(Accepting(cfg, s.nodes[n], c).value))))
  {
    hide *;
    var node := s.nodes[n];
    InvAt(cfg, s, n);
    AcceptingParts(cfg, node, c);
    var n1;
    if c.EvNewValue? {
      n1 := OfferValue(node, c.value);
      OfferStep(cfg, s, n, c.value);
      OfferShape(node, c.value);
    } else {
      var m := c.msg;
      n1 := RecordPrepareReply(node, m.from, m.rejectBy, m.pre, m.value);
      GlobalVotes(cfg, s);
      SentOk(cfg, s, m);
      AddressedReply(m, n);
      ReplyFacts(cfg, s, n, m);
      PrepareReplyParts(cfg, node, m.from, m.rejectBy, m.pre, m.value);
      CountPrepareReply(cfg, s, n, node, m.from, m.rejectBy, m.pre, m.value);
      BookkeepingStep(cfg, s, n, n1.prop);
    }
    var s1 := Apply(s, n, Quiet(n1));
    QuietNode(n1);
    ApplyNode(s, n, Quiet(n1));
    InvAt(cfg, s1, n);
    GlobalVotes(cfg, s1);
    if c.EvNewValue? {
      SkipReady(cfg, s1, n, n1);
    } else {
      PassReady(cfg, s1, n, n1);
      ReadyIgnoresSkip(cfg, s1, n, n1);
    }
    CutThenRestart(cfg, s, n, n1, Accepting(cfg, node, c).value, lost, k, next);
  }

  lemma AddressedReply(m: Message, n: NodeId)
    requires Addressed(m, n) && m.PrepareReply?
    ensures m.to == n
  {
  }

  lemma EventParts(cfg: Config, s: Sys, n: NodeId, e: Event)
    requires Wf(cfg, s) && Enabled(cfg, s, n, e) && Permitted(cfg, s, n, e)
    ensures n in s.nodes
    ensures e.EvNewValue? ==>
      && e.value != [] && Run(cfg, s, n, e) == NewValue(cfg, s.nodes[n], e.value)
      && ((s.nodes[n].prop.canSkip && !s.nodes[n].prop.wasRejected) || RepreparePermitted(s, n))
    ensures e.EvTimeout? ==>
      && (s.nodes[n].prop.preparing || s.nodes[n].prop.accepting)
      && RepreparePermitted(s, n) && Run(cfg, s, n, e) == OnTimeout(cfg, s.nodes[n])
    ensures e.EvCommitTimeout? ==> Run(cfg, s, n, e) == OnCommitTimeout(s.nodes[n])
    ensures e.EvDeliver? ==>
      && e.msg in s.sent && Addressed(e.msg, n) && ShortcutPermitted(cfg, s.nodes[n], e.msg)
      && Receive(cfg, s.nodes[n], e.msg).Some? && Run(cfg, s, n, e) == Receive(cfg, s.nodes[n], e.msg).value
    ensures e.EvSendOne? ==>
      && e.inst < s.nodes[n].inst && e.inst in s.nodes[n].log
      && Run(cfg, s, n, e) == SendOne(s.nodes[n], e.inst, e.to, e.withChk)
  {
    assert Holds(ReprepareGuard, cfg, s, n, e);
    assert Holds(ShortcutGuard, cfg, s, n, e);
  }

  lemma CrashParts(cfg: Config, s: Sys, n: NodeId, e: Event)
    requires Wf(cfg, s) && Enabled(cfg, s, n, e) && Permitted(cfg, s, n, e)
    ensures n in s.nodes
    ensures e.EvRestart? || e.EvCutAccept? ==>
      && Starts(s.nodes[n], e.lost, e.newest, e.next) && RestartPermitted(Survivor(s.nodes[n], e.lost), e.newest)
      && CheckpointPermitted(e.lost, e.next)
    ensures e.EvRestart? ==> Run(cfg, s, n, e) == Reopen(Survivor(s.nodes[n], e.lost), e.newest, e.next)
    ensures e.EvCutAccept? ==>
      && Accepting(cfg, s.nodes[n], e.cause).Some? && (e.cause.EvDeliver? ==> e.cause.msg in s.sent && Addressed(e.cause.msg, n))
      && Run(cfg, s, n, e) == Send(Reopen(Survivor(s.nodes[n], e.lost), e.newest, e.next),
                                   AcceptMsg(Accepting(cfg, s.nodes[n], e.cause).value))
  {
    assert Holds(RestartGuard, cfg, s, n, e);
    assert Holds(CheckpointGuard, cfg, s, n, e);
  }

  lemma CrashKeepsInv(cfg: Config, s: Sys, n: NodeId, e: Event)
    requires n in cfg.nodes && Wf(cfg, s) && (e.EvRestart? || e.EvCutAccept?)
    requires Enabled(cfg, s, n, e) && Permitted(cfg, s, n, e)
    requires Inv(cfg, s)
    ensures Inv(cfg, Apply(s, n, Run(cfg, s, n, e)))
  {
    hide *;
    CrashParts(cfg, s, n, e);
    match e
    case EvRestart(lost, k, next) => CrashStep(cfg, s, n, lost, k, next);
    case EvCutAccept(c, lost, k, next) => CutAcceptStep(cfg, s, n, c, lost, k, next);
  }

  lemma HandlerKeepsInv(cfg: Config, s: Sys, n: NodeId, e: Event)
    requires n in cfg.nodes && Wf(cfg, s) && !e.EvRestart? && !e.EvCutAccept?
    requires Enabled(cfg, s, n, e) && Permitted(cfg, s, n, e)
    requires Inv(cfg, s)
    ensures Inv(cfg, Apply(s, n, Run(cfg, s, n, e)))
  {
    hide *;
    EventParts(cfg, s, n, e);
    match e
    case EvNewValue(v) => NewValueStep(cfg, s, n, v);
    case EvTimeout => TimeoutStep(cfg, s, n);
    case EvCommitTimeout => CommitTimeoutStep(cfg, s, n);
    case EvDeliver(m) => DeliverStep(cfg, s, n, m);
    case EvSendOne(i, to, c) => SendOneOk(cfg, s, n, i, to, c);
  }

  lemma EventKeepsInv(cfg: Config, s: Sys, n: NodeId, e: Event)
    requires n in cfg.nodes && Wf(cfg, s)
    requires Enabled(cfg, s, n, e) && Permitted(cfg, s, n, e)
    requires Inv(cfg, s)
    ensures Inv(cfg, Apply(s, n, Run(cfg, s, n, e)))
  {
    hide *;
    if e.EvRestart? || e.EvCutAccept? {
      CrashKeepsInv(cfg, s, n, e);
    } else {
      HandlerKeepsInv(cfg, s, n, e);
    }
  }

  lemma GuardedStepKeepsInv(cfg: Config, s: Sys, s': Sys)
    requires Inv(cfg, s) && GuardedStep(cfg, s, s')
    ensures Inv(cfg, s')
  {
    hide Inv, Run, Permitted;
    var n, e :| StepBy(cfg, s, s', n, e) && Permitted(cfg, s, n, e);
    assert n in cfg.nodes by { EnabledNode(cfg, s, n, e); }
    EventKeepsInv(cfg, s, n, e);
  }

  lemma EnabledNode(cfg: Config, s: Sys, n: NodeId, e: Event)
    requires Wf(cfg, s) && Enabled(cfg, s, n, e)
    ensures n in cfg.nodes
  {
  }

  lemma InitInv(cfg: Config, s: Sys)
    requires Init(cfg, s)
    ensures Inv(cfg, s)
  {
    forall n | n in cfg.nodes
      ensures NodeInv(cfg, s, n)
    {
      var node := s.nodes[n];
      assert node == InitNode(n);
      assert LogPrefix(node.log, 0) == [];
    }
  }

  // ---------------------------------------------------------------- whole runs

  lemma RunStart(cfg: Config, r: seq<Sys>)
    requires GuardedRun(cfg, r)
    ensures Init(cfg, r[0])
  {
  }

  lemma RunStep(cfg: Config, r: seq<Sys>, k: nat)
    requires GuardedRun(cfg, r) && k < |r|
    ensures k > 0 ==> GuardedStep(cfg, r[k - 1], r[k])
  {
    assert k > 0 ==> r[k] == r[k - 1 + 1];
  }

  lemma {:induction false} RunKeepsInv(cfg: Config, r: seq<Sys>, k: nat)
    requires GuardedRun(cfg, r) && k < |r|
    ensures Inv(cfg, r[k])
  {
    hide *;
    if k == 0 {
      RunStart(cfg, r);
      InitInv(cfg, r[0]);
    } else {
      RunKeepsInv(cfg, r, k - 1);
      RunStep(cfg, r, k);
      GuardedStepKeepsInv(cfg, r[k - 1], r[k]);
    }
  }
}
