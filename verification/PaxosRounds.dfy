/** Whole handler calls: every permitted event keeps the invariant. */
module PaxosRounds {
  import opened PaxosTypes
  import opened NodeSpec
  import opened PaxosSystem
  import opened PaxosInvariant
  import opened PaxosStable
  import opened PaxosSteps
  import opened PaxosAcceptorSteps
  import opened PaxosLearnSteps
  import opened PaxosProposerSteps

  // ---------------------------------------------------------------- success

  lemma PassedChosen(cfg: Config, s: Sys, n: NodeId, node: Node)
    requires Wf(cfg, s) && PropInv(cfg, s, n, node) && node.prop.accepting && Passed(cfg, node.prop.counter)
    ensures ChosenAt(cfg, s, node.inst, Ballot(node.prop.id, n), node.prop.value)
  {
    var q := node.prop.counter.granted;
    assert IsQuorum(cfg, q) && QuorumVoted(s, q, node.inst, Ballot(node.prop.id, n), node.prop.value);
  }

  lemma ChosenIsValue(cfg: Config, s: Sys, n: NodeId, i: nat, b: Ballot, v: Value)
    requires Wf(cfg, s) && GlobalInv(cfg, s) && n in cfg.nodes && AccInv(s, n, s.nodes[n])
    requires ChosenAt(cfg, s, i, b, v)
    ensures v != [] && Chosen(cfg, s, i, v)
    ensures s.nodes[n].inst == i && s.nodes[n].acc.accepted == b ==> s.nodes[n].acc.value == v
  {
    ChosenProposed(cfg, s, i, b, v);
    AcceptedNonEmpty(cfg, s, n, s.nodes[n]);
  }

  /** A success notice for (i, b) may be heeded by any node. */
  lemma HeedSuccess(cfg: Config, s: Sys, n: NodeId, i: nat, from: NodeId, id: nat, v: Value)
    requires n in cfg.nodes && n in s.nodes
    requires ChosenAt(cfg, s, i, Ballot(id, from), v)
    requires Inv(cfg, s)
    ensures Inv(cfg, Apply(s, n, LearnBySuccess(s.nodes[n], i, from, id)))
  {
    hide *;
    InvAt(cfg, s, n);
    StoreParts(cfg, s, n, s.nodes[n]);
    ChosenIsValue(cfg, s, n, i, Ballot(id, from), v);
    LearnOwnStep(cfg, s, n, i, from, id);
  }

  function Calm(n: Node): Node {
    n.(prop := n.prop.(accepting := false))
  }

  lemma SucceedParts(s: Sys, n: NodeId, node: Node)
    requires node.me == n
    ensures var o := LearnBySuccess(Calm(node), node.inst, n, node.prop.id);
      Succeed(node) == Send(o, Success(node.inst, n, node.prop.id, node.lastChk))
    ensures n in Apply(s, n, Quiet(Calm(node))).nodes
    ensures Apply(s, n, Quiet(Calm(node))).nodes[n] == Calm(node)
    ensures Apply(s, n, Quiet(Calm(node))).votes == s.votes
    ensures forall o: Out :: Apply(Apply(s, n, Quiet(Calm(node))), n, o) == Apply(s, n, o)
  {
  }

  lemma LearnShape(cfg: Config, s: Sys, n: NodeId, node: Node, inst: nat, from: NodeId, id: nat)
    requires Wf(cfg, s) && n in cfg.nodes && node.me == n && node.acc == s.nodes[n].acc
    ensures OwnEffects(s, n, LearnBySuccess(node, inst, from, id))
  {
  }

  lemma SuccessOk(cfg: Config, s: Sys, i: nat, from: NodeId, id: nat, c: nat, v: Value)
    requires Wf(cfg, s) && from in cfg.nodes && ChkOk(cfg, s, i, c) && ChosenAt(cfg, s, i, Ballot(id, from), v)
    ensures MsgOk(cfg, s, Success(i, from, id, c))
  {
  }

  lemma SucceedStep(cfg: Config, s: Sys, n: NodeId)
    requires n in cfg.nodes && n in s.nodes && s.nodes[n].prop.accepting && Passed(cfg, s.nodes[n].prop.counter)
    requires Inv(cfg, s)
    ensures Inv(cfg, Apply(s, n, Succeed(s.nodes[n])))
  {
    hide *;
    InvAt(cfg, s, n);
    var node := s.nodes[n];
    var b := Ballot(node.prop.id, n);
    var v := node.prop.value;
    PassedChosen(cfg, s, n, node);
    PhaseLeft(cfg, s, n, node);
    OwnChkOk(cfg, s, n, node);
    SuccessOk(cfg, s, node.inst, n, node.prop.id, node.lastChk, v);
    CalmStep(cfg, s, n);
    var s1 := Apply(s, n, Quiet(Calm(node)));
    SucceedParts(s, n, node);
    ChosenAtGrows(cfg, s, s1, node.inst, b, v);
    HeedSuccess(cfg, s1, n, node.inst, n, node.prop.id, v);
    var o := LearnBySuccess(Calm(node), node.inst, n, node.prop.id);
    CalmShape(node);
    LearnShape(cfg, s, n, Calm(node), node.inst, n, node.prop.id);
    ApplyGrows(cfg, s, n, o);
    FactGrows(cfg, s, Apply(s, n, o), Success(node.inst, n, node.prop.id, node.lastChk));
    SendAfter(cfg, s, n, o, Success(node.inst, n, node.prop.id, node.lastChk));
  }

  lemma CalmShape(node: Node)
    ensures Calm(node).me == node.me && Calm(node).acc == node.acc && Calm(node).inst == node.inst
  {
  }

  lemma CalmStep(cfg: Config, s: Sys, n: NodeId)
    requires n in cfg.nodes && n in s.nodes && s.nodes[n].prop.accepting
    requires Inv(cfg, s)
    ensures Inv(cfg, Apply(s, n, Quiet(Calm(s.nodes[n]))))
  {
    InvAt(cfg, s, n);
    hide PropInv, StoreInv, IdInv, Inv, GlobalInv;
    PhaseLeft(cfg, s, n, s.nodes[n]);
    BookkeepingStep(cfg, s, n, s.nodes[n].prop.(accepting := false));
  }

  // ---------------------------------------------------------------- accept rounds

  lemma AcceptRoundStep(cfg: Config, s: Sys, n: NodeId, nd: Node)
    requires n in cfg.nodes && n in s.nodes && nd.me == n
    requires nd == s.nodes[n].(prop := nd.prop) && nd.prop.id == s.nodes[n].prop.id && SkipEarned(s.nodes[n], nd)
    requires Wf(cfg, s) && AcceptReady(cfg, s, n, nd)
    requires Inv(cfg, s)
    ensures Inv(cfg, Apply(s, n, StartAcceptRound(cfg, nd)))
  {
    hide *;
    var o := AcceptPart(cfg, nd);
    AcceptRoundParts(cfg, nd);
    AcceptPartStep(cfg, s, n, nd);
    AcceptPartNode(cfg, nd);
    ApplyNode(s, n, o);
    if Passed(cfg, o.node.prop.counter) {
      SucceedStep(cfg, Apply(s, n, o), n);
      ApplyTwice(s, n, o, Succeed(o.node));
    }
  }

  lemma AcceptPartNode(cfg: Config, nd: Node)
    ensures AcceptPart(cfg, nd).node.prop.accepting
  {
  }

  /** The same, one state later: after a step `o1` of the node itself. */
  lemma AcceptRoundAfter(cfg: Config, s: Sys, n: NodeId, o1: Out, nd: Node)
    requires n in cfg.nodes && nd.me == n
    requires nd == o1.node.(prop := nd.prop) && nd.prop.id == o1.node.prop.id && SkipEarned(o1.node, nd)
    requires Wf(cfg, Apply(s, n, o1)) && AcceptReady(cfg, Apply(s, n, o1), n, nd)
    requires Inv(cfg, Apply(s, n, o1))
    ensures Inv(cfg, Apply(s, n, Then(o1, StartAcceptRound(cfg, nd))))
  {
    hide *;
    ApplyNode(s, n, o1);
    AcceptRoundStep(cfg, Apply(s, n, o1), n, nd);
    ApplyTwice(s, n, o1, StartAcceptRound(cfg, nd));
  }

  lemma ApplyNode(s: Sys, n: NodeId, o: Out)
    ensures n in Apply(s, n, o).nodes && Apply(s, n, o).nodes[n] == o.node
  {
  }

  function Skippable(n: Node): Node {
    n.(prop := n.prop.(canSkip := true))
  }

  lemma ReadyIgnoresSkip(cfg: Config, s: Sys, n: NodeId, node: Node)
    requires Wf(cfg, s) && AcceptReady(cfg, s, n, node)
    ensures AcceptReady(cfg, s, n, Skippable(node))
    ensures Skippable(node).me == node.me && Skippable(node).prop.id == node.prop.id
    ensures Skippable(node) == node.(prop := Skippable(node).prop) && Skippable(node).prop.canSkip
    ensures node.prop.preparing ==> SkipEarned(node, Skippable(node))
  {
  }

  /** The end of a prepare round, whichever reply completed it. */
  lemma PassAfter(cfg: Config, s: Sys, n: NodeId, o1: Out)
    requires n in cfg.nodes && o1.node.prop.preparing && Passed(cfg, o1.node.prop.counter)
    requires Inv(cfg, Apply(s, n, o1))
    ensures Inv(cfg, Apply(s, n, Then(o1, StartAcceptRound(cfg, Skippable(o1.node)))))
  {
    hide *;
    var s1 := Apply(s, n, o1);
    ApplyNode(s, n, o1);
    InvAt(cfg, s1, n);
    GlobalVotes(cfg, s1);
    PassReady(cfg, s1, n, o1.node);
    ReadyIgnoresSkip(cfg, s1, n, o1.node);
    AcceptRoundAfter(cfg, s, n, o1, Skippable(o1.node));
  }

  // ---------------------------------------------------------------- replies

  lemma PrepareReplyParts(cfg: Config, node: Node, a: NodeId, rejectBy: nat, pre: Ballot, v: Value)
    requires node.prop.preparing
    ensures var n1 := RecordPrepareReply(node, a, rejectBy, pre, v);
      && n1.prop.preparing && n1.prop.id == node.prop.id && n1 == node.(prop := n1.prop) && SkipEarned(node, n1)
      && OnPrepareReply(cfg, node, a, node.prop.id, rejectBy, pre, v) ==
           (if Passed(cfg, n1.prop.counter) then Then(Quiet(n1), StartAcceptRound(cfg, Skippable(n1))) else Quiet(n1))
  {
    var n1 := RecordPrepareReply(node, a, rejectBy, pre, v);
    var o := StartAcceptRound(cfg, Skippable(n1));
    assert Then(Quiet(n1), o).fx == o.fx;
  }

  lemma PrepareReplyStep(cfg: Config, s: Sys, n: NodeId, a: NodeId, id: nat, rejectBy: nat, pre: Ballot, v: Value)
    requires n in cfg.nodes && n in s.nodes
    requires Wf(cfg, s) ==> PrepareFact(cfg, s, a, s.nodes[n].inst, Ballot(id, n), rejectBy, pre, v)
    requires Inv(cfg, s)
    ensures Inv(cfg, Apply(s, n, OnPrepareReply(cfg, s.nodes[n], a, id, rejectBy, pre, v)))
  {
    hide *;
    var node := s.nodes[n];
    if !node.prop.preparing || id != node.prop.id {
      PrepareReplyIgnored(cfg, s, n, a, id, rejectBy, pre, v);
    } else {
      InvAt(cfg, s, n);
      GlobalVotes(cfg, s);
      PrepareReplyParts(cfg, node, a, rejectBy, pre, v);
      var n1 := RecordPrepareReply(node, a, rejectBy, pre, v);
      CountPrepareReply(cfg, s, n, node, a, rejectBy, pre, v);
      BookkeepingStep(cfg, s, n, n1.prop);
      if Passed(cfg, n1.prop.counter) {
        QuietNode(n1);
        PassAfter(cfg, s, n, Quiet(n1));
      }
    }
  }

  lemma QuietNode(n: Node)
    ensures Quiet(n).node == n
  {
  }

  lemma PrepareReplyIgnored(cfg: Config, s: Sys, n: NodeId, a: NodeId, id: nat, rejectBy: nat, pre: Ballot, v: Value)
    requires n in s.nodes && (!s.nodes[n].prop.preparing || id != s.nodes[n].prop.id)
    ensures Apply(s, n, OnPrepareReply(cfg, s.nodes[n], a, id, rejectBy, pre, v)) == s
  {
    assert OnPrepareReply(cfg, s.nodes[n], a, id, rejectBy, pre, v) == Quiet(s.nodes[n]);
    NoChange(s, n);
  }

  lemma AcceptReplyIgnored(cfg: Config, s: Sys, n: NodeId, a: NodeId, id: nat, rejectBy: nat)
    requires n in s.nodes && (!s.nodes[n].prop.accepting || id != s.nodes[n].prop.id)
    ensures Apply(s, n, OnAcceptReply(cfg, s.nodes[n], a, id, rejectBy)) == s
  {
    assert OnAcceptReply(cfg, s.nodes[n], a, id, rejectBy) == Quiet(s.nodes[n]);
    NoChange(s, n);
  }

  lemma NoChange(s: Sys, n: NodeId)
    requires n in s.nodes
    ensures Apply(s, n, Quiet(s.nodes[n])) == s
  {
  }

  lemma AcceptReplyParts(cfg: Config, node: Node, a: NodeId, rejectBy: nat)
    requires node.prop.accepting
    ensures var n1 := RecordAcceptReply(node, a, rejectBy);
      && n1.prop.accepting && n1.prop.id == node.prop.id && n1 == node.(prop := n1.prop) && SkipEarned(node, n1)
      && OnAcceptReply(cfg, node, a, node.prop.id, rejectBy) ==
           (if Passed(cfg, n1.prop.counter) then Then(Quiet(n1), Succeed(n1)) else Quiet(n1))
  {
    var n1 := RecordAcceptReply(node, a, rejectBy);
    assert Then(Quiet(n1), Succeed(n1)).fx == Succeed(n1).fx;
  }

  lemma AcceptReplyStep(cfg: Config, s: Sys, n: NodeId, a: NodeId, id: nat, rejectBy: nat)
    requires n in cfg.nodes && n in s.nodes
    requires AcceptFact(cfg, s, a, s.nodes[n].inst, Ballot(id, n), rejectBy)
    requires Inv(cfg, s)
    ensures Inv(cfg, Apply(s, n, OnAcceptReply(cfg, s.nodes[n], a, id, rejectBy)))
  {
    hide *;
    var node := s.nodes[n];
    if !node.prop.accepting || id != node.prop.id {
      AcceptReplyIgnored(cfg, s, n, a, id, rejectBy);
    } else {
      InvAt(cfg, s, n);
      GlobalVotes(cfg, s);
      AcceptReplyParts(cfg, node, a, rejectBy);
      var n1 := RecordAcceptReply(node, a, rejectBy);
      CountAcceptReply(cfg, s, n, node, a, rejectBy);
      BookkeepingStep(cfg, s, n, n1.prop);
      if Passed(cfg, n1.prop.counter) {
        QuietNode(n1);
        ApplyNode(s, n, Quiet(n1));
        SucceedStep(cfg, Apply(s, n, Quiet(n1)), n);
        ApplyTwice(s, n, Quiet(n1), Succeed(n1));
      }
    }
  }

  // ---------------------------------------------------------------- prepare rounds

  /** Prepare, up to and including the own acceptor's answer. */
  function PreparePart(cfg: Config, node: Node, needNew: bool): Out {
    var n1 := StartPrepare(node, needNew);
    var r := AcceptorOnPrepare(cfg, n1, node.me, n1.prop.id);
    Send(Quiet(RecordPrepareReply(r.node, node.me, r.rejectBy, r.pre, r.value)), Prepare(node.inst, node.me, n1.prop.id))
  }

  lemma PrepareRoundParts(cfg: Config, node: Node, needNew: bool)
    ensures var o := PreparePart(cfg, node, needNew);
      && o.node.prop.preparing
      && StartPrepareRound(cfg, node, needNew) ==
           (if Passed(cfg, o.node.prop.counter) then Then(o, StartAcceptRound(cfg, Skippable(o.node))) else o)
  {
    var o := PreparePart(cfg, node, needNew);
    var n1 := StartPrepare(node, needNew);
    var r := AcceptorOnPrepare(cfg, n1, node.me, n1.prop.id);
    PrepareReplyParts(cfg, r.node, node.me, r.rejectBy, r.pre, r.value);
    var p := StartAcceptRound(cfg, Skippable(o.node));
    var m := Prepare(node.inst, node.me, n1.prop.id);
    assert Send(Then(Quiet(o.node), p), m).fx.msgs == Then(o, p).fx.msgs;
  }

  lemma PreparePartShape(cfg: Config, s: Sys, n: NodeId, node: Node, needNew: bool)
    requires Wf(cfg, s) && n in cfg.nodes && node.me == n && node.acc == s.nodes[n].acc
    ensures var o := PreparePart(cfg, node, needNew);
      var id := StartPrepare(node, needNew).prop.id;
      var s' := Apply(s, n, o);
      && OwnEffects(s, n, o) && Wf(cfg, s') && o.fx.learned == {} && o.fx.votes == {}
      && o.fx.msgs == {Prepare(node.inst, n, id)}
      && s'.nodes[n] == o.node && s'.votes == s.votes
      && o.node.acc.promise.AtLeast(Ballot(id, n))
      && o.node.inst == node.inst && o.node.prop.id == id
      && o.node.prop.preparing && !o.node.prop.accepting && !o.node.prop.canSkip
      && (needNew ==> id > node.prop.id) && (!needNew ==> id == node.prop.id)
  {
  }

  /** What the own acceptor's answer leaves in the proposer. */
  lemma PreparePartAnswer(cfg: Config, n: NodeId, node: Node, needNew: bool)
    requires node.me == n && node.prop.id > 0
    ensures var o := PreparePart(cfg, node, needNew);
      var b := Ballot(o.node.prop.id, n);
      var p := o.node.prop;
      && (!b.AtLeast(node.acc.promise) ==>
            p.counter.granted == {} && p.highestPre == NULL_BALLOT && p.value == node.prop.value)
      && (b.AtLeast(node.acc.promise) ==>
            && p.counter.granted == {n} && o.node.acc.promise == b
            && (node.acc.accepted.id > 0 ==> p.highestPre == node.acc.accepted && p.value == node.acc.value)
            && (node.acc.accepted.id == 0 ==> p.highestPre == NULL_BALLOT && p.value == node.prop.value))
  {
  }

  lemma PreparePartStore(cfg: Config, s: Sys, n: NodeId, node: Node, needNew: bool)
    requires Wf(cfg, s) && GlobalInv(cfg, s) && StoreInv(cfg, s, n, node) && node.me == n
    ensures StoreInv(cfg, s, n, PreparePart(cfg, node, needNew).node)
  {
    hide StoreInv, GlobalInv, AcceptorOnPrepare;
    var n1 := StartPrepare(node, needNew);
    StoreIgnoresProp(cfg, s, n, node, n1.prop);
    PrepareStore(cfg, s, n, n1, n, n1.prop.id);
    var r := AcceptorOnPrepare(cfg, n1, n, n1.prop.id);
    StoreIgnoresProp(cfg, s, n, r.node, RecordPrepareReply(r.node, n, r.rejectBy, r.pre, r.value).prop);
  }

  /** The ballot of this round: new, or the old one under the guard. */
  ghost predicate BallotReady(s: Sys, n: NodeId, node: Node, needNew: bool) {
    !needNew ==>
      && (forall i: nat, v :: Proposed(s, i, Ballot(node.prop.id, n), v) ==>
            Vote(n, i, Ballot(node.prop.id, n), v) in s.votes)
      && (forall v :: Proposed(s, node.inst, Ballot(node.prop.id, n), v) ==>
            Ballot(node.prop.id, n).AtLeast(node.acc.promise))
  }

  lemma PreparePartProposals(cfg: Config, s: Sys, n: NodeId, node: Node, needNew: bool)
    requires IdInv(s, n, node) && BallotReady(s, n, node, needNew)
    ensures var id := StartPrepare(node, needNew).prop.id;
      && (forall i: nat, v :: Proposed(s, i, Ballot(id, n), v) ==> Vote(n, i, Ballot(id, n), v) in s.votes)
      && (forall v :: Proposed(s, node.inst, Ballot(id, n), v) ==> Ballot(id, n).AtLeast(node.acc.promise))
  {
    if needNew {
      var id := StartPrepare(node, needNew).prop.id;
      forall i: nat, v
        ensures !Proposed(s, i, Ballot(id, n), v)
      {
        FreshId(s, n, id, i, v);
      }
    }
  }

  /** The re-prepared value is pinned: the own acceptor reports it at the highest ballot there is. */
  lemma PreparePartPinned(cfg: Config, s: Sys, n: NodeId, node: Node, needNew: bool, v: Value)
    requires Wf(cfg, s) && VotesProposed(cfg, s) && OneValue(s)
    requires AccInv(s, n, node) && node.me == n && node.prop.id > 0
    requires var b := Ballot(StartPrepare(node, needNew).prop.id, n);
      && Proposed(s, node.inst, b, v)
      && Vote(n, node.inst, b, v) in s.votes
      && b.AtLeast(node.acc.promise)
    ensures var p := PreparePart(cfg, node, needNew).node.prop; p.value == v && p.highestPre == Ballot(p.id, n)
  {
    PreparePartAnswer(cfg, n, node, needNew);
    var b := Ballot(StartPrepare(node, needNew).prop.id, n);
    var x := Vote(n, node.inst, b, v);
    assert AccRecord(node).accepted.AtLeast(x.ballot);
    assert node.acc.accepted == b;
    assert Vote(n, node.inst, b, node.acc.value) in s.votes;
    assert Proposed(s, node.inst, b, node.acc.value);
  }

  lemma PreparePartInst(cfg: Config, node: Node, needNew: bool)
    ensures PreparePart(cfg, node, needNew).node.inst == node.inst
  {
  }

  /** The own acceptor's promise, and what it reports with it. */
  lemma OwnPromised(s: Sys, n: NodeId, node: Node, b: Ballot)
    requires AccInv(s, n, node) && n in s.nodes && s.nodes[n].acc.promise.AtLeast(b)
    ensures Promised(s, n, node.inst, b, node.acc.accepted)
  {
  }

  lemma AccKeptByVotes(s: Sys, s': Sys, n: NodeId, node: Node)
    requires AccInv(s, n, node) && s'.votes == s.votes
    ensures AccInv(s', n, node)
  {
  }

  lemma NothingAccepted(s: Sys, n: NodeId, node: Node)
    requires AccInv(s, n, node)
    ensures node.acc.accepted.id == 0 ==> node.acc.accepted == NULL_BALLOT
    ensures node.acc.promise.AtLeast(node.acc.accepted)
  {
  }

  lemma PreparePartPromised(cfg: Config, s: Sys, s': Sys, n: NodeId, node: Node, needNew: bool)
    requires Wf(cfg, s) && GlobalInv(cfg, s) && AccInv(s, n, node) && node.me == n && node.prop.id > 0
    requires node.prop.value != []
    requires Wf(cfg, s') && n in cfg.nodes && s'.nodes[n] == PreparePart(cfg, node, needNew).node
    requires s'.votes == s.votes && s.sent <= s'.sent
    ensures PreparingInv(cfg, s', n, s'.nodes[n])
  {
    PreparePartAnswer(cfg, n, node, needNew);
    PreparePartInst(cfg, node, needNew);
    AcceptedNonEmpty(cfg, s, n, node);
    NothingAccepted(s, n, node);
    AccKeptByVotes(s, s', n, node);
    hide PreparePart, GlobalInv, Proposed, AccInv, Promised;
    var b := Ballot(s'.nodes[n].prop.id, n);
    if b.AtLeast(node.acc.promise) {
      OwnPromised(s', n, node, b);
    }
    if node.acc.accepted.id > 0 {
      ProposedGrows(s, s', node.inst, node.acc.accepted, node.acc.value);
    }
  }

  lemma PreparePartProp(cfg: Config, s: Sys, n: NodeId, node: Node, needNew: bool)
    requires Wf(cfg, s) && GlobalInv(cfg, s) && AccInv(s, n, node) && IdInv(s, n, node)
    requires BallotReady(s, n, node, needNew)
    requires n in cfg.nodes && node.me == n && node.acc == s.nodes[n].acc && node.prop.value != []
    ensures var o := PreparePart(cfg, node, needNew);
      var s' := Apply(s, n, o); Wf(cfg, s') && PropInv(cfg, s', n, o.node)
  {
    var o := PreparePart(cfg, node, needNew);
    var s' := Apply(s, n, o);
    var b := Ballot(o.node.prop.id, n);
    PreparePartShape(cfg, s, n, node, needNew);
    PreparePartProposals(cfg, s, n, node, needNew);
    IdPositive(s, n, node);
    GlobalVotes(cfg, s);
    PreparePartPromised(cfg, s, s', n, node, needNew);
    hide AccInv, PreparePart, Apply, PreparingInv, GlobalInv, VotesProposed;
    assert o.node == s'.nodes[n];
    forall i: nat, v | Proposed(s', i, b, v)
      ensures Vote(n, i, b, v) in s'.votes
      ensures i == o.node.inst ==> v == o.node.prop.value && o.node.prop.highestPre == b
    {
      PrepareAddsNone(s, s', Prepare(node.inst, n, o.node.prop.id), i, b, v);
      if i == node.inst {
        PreparePartPinned(cfg, s, n, node, needNew, v);
      }
    }
  }

  lemma PrepareAddsNone(s: Sys, s': Sys, m: Message, i: nat, b: Ballot, v: Value)
    requires m.Prepare? && s'.sent == s.sent + {m} && Proposed(s', i, b, v)
    ensures Proposed(s, i, b, v)
  {
    var c :| Accept(i, b.node, b.id, v, c) in s'.sent;
    assert Accept(i, b.node, b.id, v, c) in s.sent;
  }

  lemma PrepareVoted(s: Sys, s': Sys, n: NodeId, m: Message, i: nat)
    requires m.Prepare? && s'.sent == s.sent + {m} && s'.votes == s.votes
    requires forall j: nat, v :: Proposed(s, j, Ballot(m.id, n), v) ==> Vote(n, j, Ballot(m.id, n), v) in s.votes
    ensures OwnVotes(s', Ballot(m.id, n), i)
  {
    hide Proposed;
    forall j: nat, v | j < i && Proposed(s', j, Ballot(m.id, n), v)
      ensures Vote(n, j, Ballot(m.id, n), v) in s'.votes
    {
      PrepareAddsNone(s, s', m, j, Ballot(m.id, n), v);
    }
  }

  lemma PreparePartMsg(cfg: Config, s: Sys, n: NodeId, node: Node, needNew: bool)
    requires Wf(cfg, s) && LogInv(cfg, s, n, node) && IdInv(s, n, node) && BallotReady(s, n, node, needNew)
    requires n in cfg.nodes && node.me == n && node.acc == s.nodes[n].acc
    ensures var o := PreparePart(cfg, node, needNew);
      var s' := Apply(s, n, o); Wf(cfg, s') && NewFacts(cfg, s', o.fx)
  {
    var o := PreparePart(cfg, node, needNew);
    var s' := Apply(s, n, o);
    PreparePartShape(cfg, s, n, node, needNew);
    PreparePartProposals(cfg, s, n, node, needNew);
    IdPositive(s, n, node);
    HistoryPrefix(cfg, s, n, node);
    hide LogInv, PreparePart, Apply, Prefix, IdInv, BallotReady, Proposed, OwnVotes;
    PrefixGrows(cfg, s, s', LogPrefix(node.log, node.inst), node.inst);
    PrepareVoted(s, s', n, Prepare(node.inst, n, o.node.prop.id), node.inst);
    assert RequestOk(cfg, s', node.inst, Ballot(o.node.prop.id, n));
  }

  lemma PreparePartId(cfg: Config, s: Sys, n: NodeId, node: Node, needNew: bool)
    requires Wf(cfg, s) && IdInv(s, n, node)
    requires n in cfg.nodes && node.me == n && node.acc == s.nodes[n].acc
    ensures var o := PreparePart(cfg, node, needNew); IdInv(Apply(s, n, o), n, o.node)
  {
    PreparePartShape(cfg, s, n, node, needNew);
    hide PreparePart;
  }

  lemma PreparePartStep(cfg: Config, s: Sys, n: NodeId, needNew: bool)
    requires n in cfg.nodes && n in s.nodes && s.nodes[n].prop.value != []
    requires BallotReady(s, n, s.nodes[n], needNew)
    requires Inv(cfg, s)
    ensures Inv(cfg, Apply(s, n, PreparePart(cfg, s.nodes[n], needNew)))
  {
    hide *;
    InvAt(cfg, s, n);
    var node := s.nodes[n];
    var o := PreparePart(cfg, node, needNew);
    var s' := Apply(s, n, o);
    StoreParts(cfg, s, n, node);
    PreparePartShape(cfg, s, n, node, needNew);
    PreparePartStore(cfg, s, n, node, needNew);
    SameVotesStore(cfg, s, s', n, o.node);
    PreparePartProp(cfg, s, n, node, needNew);
    PreparePartMsg(cfg, s, n, node, needNew);
    PreparePartId(cfg, s, n, node, needNew);
    NodeInvFrom(cfg, s', n);
    PlainStep(cfg, s, n, o);
  }

  lemma SameVotesStore(cfg: Config, s: Sys, s': Sys, n: NodeId, node: Node)
    requires s'.votes == s.votes && StoreInv(cfg, s, n, node)
    ensures StoreInv(cfg, s', n, node)
  {
    StoreKept(cfg, s, s', n, node);
  }

  lemma PrepareRoundStep(cfg: Config, s: Sys, n: NodeId, needNew: bool)
    requires n in cfg.nodes && n in s.nodes && s.nodes[n].prop.value != []
    requires BallotReady(s, n, s.nodes[n], needNew)
    requires Inv(cfg, s)
    ensures Inv(cfg, Apply(s, n, StartPrepareRound(cfg, s.nodes[n], needNew)))
  {
    hide *;
    var node := s.nodes[n];
    PrepareRoundParts(cfg, node, needNew);
    PreparePartStep(cfg, s, n, needNew);
    var o := PreparePart(cfg, node, needNew);
    if Passed(cfg, o.node.prop.counter) {
      PassAfter(cfg, s, n, o);
    }
  }

  /** The guard is what the round needs. */
  lemma GuardReady(cfg: Config, s: Sys, n: NodeId, node: Node)
    requires n in s.nodes && n in cfg.nodes && Wf(cfg, s) && PropInv(cfg, s, n, node)
    requires node.inst == s.nodes[n].inst && node.acc == s.nodes[n].acc
    requires node.prop.id == s.nodes[n].prop.id && node.prop.wasRejected == s.nodes[n].prop.wasRejected
    requires RepreparePermitted(s, n)
    ensures BallotReady(s, n, node, node.prop.wasRejected)
  {
    forall v | Proposed(s, node.inst, Ballot(node.prop.id, n), v)
      ensures AcceptOut(s, n)
    {
      var c :| Accept(node.inst, n, node.prop.id, v, c) in s.sent;
      var m := Accept(node.inst, n, node.prop.id, v, c);
      assert m in s.sent && m.Accept?;
    }
  }
}
