/** The proposer's rounds: each part keeps the invariant. */
module PaxosProposerSteps {
  import opened PaxosTypes
  import opened NodeSpec
  import opened PaxosSystem
  import opened PaxosInvariant
  import opened PaxosStable
  import opened PaxosSteps
  import opened PaxosAcceptorSteps
  import opened PaxosLearnSteps

  // ---------------------------------------------------------------- bookkeeping

  /** What a reply to Prepare tells its reader. */
  ghost predicate PrepareFact(cfg: Config, s: Sys, a: NodeId, i: nat, b: Ballot, rejectBy: nat, pre: Ballot, v: Value)
    requires Wf(cfg, s)
  {
    a in cfg.nodes &&
    (rejectBy == 0 ==>
       && Promised(s, a, i, b, pre)
       && (pre.id > 0 ==> Proposed(s, i, pre, v) && b.AtLeast(pre))
       && (pre.id == 0 ==> pre == NULL_BALLOT))
  }

  lemma PromisedRaise(s: Sys, a: NodeId, i: nat, b: Ballot, h: Ballot, h': Ballot)
    requires a in s.nodes && Promised(s, a, i, b, h) && h'.AtLeast(h)
    ensures Promised(s, a, i, b, h')
  {
  }

  lemma CountPrepareReply(cfg: Config, s: Sys, n: NodeId, node: Node, a: NodeId, rejectBy: nat, pre: Ballot, v: Value)
    requires Wf(cfg, s) && OneValue(s) && PropInv(cfg, s, n, node) && node.prop.preparing
    requires ProposalsSafe(cfg, s)
    requires PrepareFact(cfg, s, a, node.inst, Ballot(node.prop.id, n), rejectBy, pre, v)
    ensures PropInv(cfg, s, n, RecordPrepareReply(node, a, rejectBy, pre, v))
  {
    var b := Ballot(node.prop.id, n);
    var node' := RecordPrepareReply(node, a, rejectBy, pre, v);
    if rejectBy == 0 {
      var h' := node'.prop.highestPre;
      assert h'.AtLeast(node.prop.highestPre) && h'.AtLeast(pre);
      forall x | x in node'.prop.counter.granted
        ensures x in cfg.nodes && Promised(s, x, node.inst, b, h')
      {
        if x == a {
          PromisedRaise(s, a, node.inst, b, pre, h');
        } else {
          PromisedRaise(s, x, node.inst, b, node.prop.highestPre, h');
        }
      }
      assert PinInv(s, n, node');
    }
  }

  ghost predicate AcceptFact(cfg: Config, s: Sys, a: NodeId, i: nat, b: Ballot, rejectBy: nat) {
    a in cfg.nodes && (rejectBy == 0 ==> VotedSome(s, a, i, b))
  }

  lemma VotedPinned(cfg: Config, s: Sys, a: NodeId, i: nat, b: Ballot, v: Value)
    requires VotesProposed(cfg, s) && OneValue(s) && VotedSome(s, a, i, b) && Proposed(s, i, b, v)
    ensures Vote(a, i, b, v) in s.votes
  {
    var v' :| Vote(a, i, b, v') in s.votes;
  }

  lemma CountAcceptReply(cfg: Config, s: Sys, n: NodeId, node: Node, a: NodeId, rejectBy: nat)
    requires Wf(cfg, s) && VotesProposed(cfg, s) && OneValue(s)
    requires PropInv(cfg, s, n, node) && node.prop.accepting
    requires AcceptFact(cfg, s, a, node.inst, Ballot(node.prop.id, n), rejectBy)
    ensures PropInv(cfg, s, n, RecordAcceptReply(node, a, rejectBy))
  {
    if rejectBy == 0 {
      VotedPinned(cfg, s, a, node.inst, Ballot(node.prop.id, n), node.prop.value);
    }
  }

  lemma RejectNoted(cfg: Config, s: Sys, n: NodeId, node: Node, rejectBy: nat)
    requires Wf(cfg, s) && PropInv(cfg, s, n, node)
    ensures PropInv(cfg, s, n, node.(prop := NoteReject(node.prop, rejectBy)))
  {
  }

  lemma PhaseLeft(cfg: Config, s: Sys, n: NodeId, node: Node)
    requires Wf(cfg, s) && PropInv(cfg, s, n, node)
    ensures PropInv(cfg, s, n, node.(prop := node.prop.(preparing := false, accepting := false)))
    ensures node.prop.accepting ==> PropInv(cfg, s, n, node.(prop := node.prop.(accepting := false)))
  {
  }

  lemma ValueOffered(cfg: Config, s: Sys, n: NodeId, node: Node, v: Value)
    requires Wf(cfg, s) && ProposalsSafe(cfg, s) && PropInv(cfg, s, n, node) && v != []
    ensures PropInv(cfg, s, n, OfferValue(node, v)) && OfferValue(node, v).prop.value != []
  {
  }

  // ---------------------------------------------------------------- an accept round

  /** Accept may be sent: the value is safe at this ballot and unopposed later. */
  ghost predicate AcceptReady(cfg: Config, s: Sys, n: NodeId, node: Node)
    requires Wf(cfg, s)
  {
    var b := Ballot(node.prop.id, n);
    && node.prop.value != []
    && SafeAt(cfg, s, node.inst, b, node.prop.value)
    && QuorumPledged(cfg, s, node.inst + 1, b)
    && (forall v :: Proposed(s, node.inst, b, v) ==> v == node.prop.value)
    && forall i: nat, v :: Proposed(s, i, b, v) ==> Vote(n, i, b, v) in s.votes
  }

  lemma PledgedSafe(cfg: Config, s: Sys, i: nat, b: Ballot, v: Value)
    requires Wf(cfg, s) && QuorumPledged(cfg, s, i, b)
    ensures SafeAt(cfg, s, i, b, v)
  {
    var q :| AllPledged(cfg, s, q, i, b);
    forall b' | b.Above(b')
      ensures Blocked(cfg, s, i, b', v)
    {
      forall a | a in q
        ensures Closed(s, a, i, b', v)
      {
        assert Pledged(s, a, i, b);
      }
      assert QuorumClosed(cfg, s, q, i, b', v);
    }
  }

  /** Skipping Prepare in a later instance is as safe as preparing it. */
  lemma SkipReady(cfg: Config, s: Sys, n: NodeId, node: Node)
    requires Wf(cfg, s) && ProposalsSafe(cfg, s) && PropInv(cfg, s, n, node)
    requires node.prop.canSkip && !node.prop.wasRejected && node.prop.value != []
    ensures AcceptReady(cfg, s, n, node)
  {
    var b := Ballot(node.prop.id, n);
    if !Proposed(s, node.inst, b, node.prop.value) {
      PledgedSafe(cfg, s, node.inst, b, node.prop.value);
    }
  }

  /** Property P2c: the highest reported value is safe at the prepared ballot. */
  lemma PassSafe(cfg: Config, s: Sys, n: NodeId, node: Node, b': Ballot)
    requires Wf(cfg, s) && VotesProposed(cfg, s) && OneValue(s) && ProposalsSafe(cfg, s)
    requires PreparingInv(cfg, s, n, node) && Passed(cfg, node.prop.counter)
    requires Ballot(node.prop.id, n).Above(b')
    ensures Blocked(cfg, s, node.inst, b', node.prop.value)
  {
    var b := Ballot(node.prop.id, n);
    var h := node.prop.highestPre;
    var v := node.prop.value;
    var q := node.prop.counter.granted;
    if h.Above(b') {
      assert SafeAt(cfg, s, node.inst, h, v);
    } else {
      forall a | a in q
        ensures Closed(s, a, node.inst, b', v)
      {
        assert Promised(s, a, node.inst, b, h);
        forall v' | Vote(a, node.inst, b', v') in s.votes
          ensures v' == v
        {
          var x := Vote(a, node.inst, b', v');
          assert h.AtLeast(x.ballot);
          assert b' == h;
          assert Proposed(s, node.inst, h, v');
        }
      }
      assert QuorumClosed(cfg, s, q, node.inst, b', v);
    }
  }

  lemma PassReady(cfg: Config, s: Sys, n: NodeId, node: Node)
    requires Wf(cfg, s) && VotesProposed(cfg, s) && OneValue(s) && ProposalsSafe(cfg, s)
    requires PropInv(cfg, s, n, node) && node.prop.preparing && Passed(cfg, node.prop.counter)
    ensures AcceptReady(cfg, s, n, node)
  {
    var b := Ballot(node.prop.id, n);
    forall b' | b.Above(b')
      ensures Blocked(cfg, s, node.inst, b', node.prop.value)
    {
      PassSafe(cfg, s, n, node, b');
    }
    var q := node.prop.counter.granted;
    forall a | a in q
      ensures Pledged(s, a, node.inst + 1, b)
    {
      assert Promised(s, a, node.inst, b, node.prop.highestPre);
    }
    assert AllPledged(cfg, s, q, node.inst + 1, b);
  }

  /** Accept, up to and including the own acceptor's answer. */
  function AcceptPart(cfg: Config, nd: Node): Out {
    var r := AcceptorOnAccept(cfg, StartAccept(nd), nd.me, nd.prop.id, nd.prop.value);
    Send(Out(RecordAcceptReply(r.node, nd.me, r.rejectBy), Effects({}, r.votes, {})), AcceptMsg(nd))
  }

  lemma AcceptRoundParts(cfg: Config, nd: Node)
    ensures var o := AcceptPart(cfg, nd);
      StartAcceptRound(cfg, nd) ==
        (if Passed(cfg, o.node.prop.counter) then Then(o, Succeed(o.node)) else o)
  {
  }

  /**
   * `o` sends Accept and no more: the own acceptor has voted and is the only one counted,
   * or the reject flag is up.
   */
  ghost predicate SendsAccept(cfg: Config, s: Sys, n: NodeId, nd: Node, o: Out)
    requires Wf(cfg, s) && n in cfg.nodes
  {
    var b := Ballot(nd.prop.id, n);
    var x := Vote(n, nd.inst, b, nd.prop.value);
    && OwnEffects(s, n, o)
    && o.fx.msgs == {AcceptMsg(nd)} && o.fx.learned == {} && (forall y :: y in o.fx.votes ==> y == x)
    && o.node.acc.promise.AtLeast(b)
    && o.node.inst == nd.inst && o.node.prop.id == nd.prop.id && o.node.prop.value == nd.prop.value
    && !o.node.prop.preparing
    && (x in o.fx.votes || o.node.prop.wasRejected)
    && (o.node.prop.accepting ==> forall a :: a in o.node.prop.counter.granted ==> a == n && x in o.fx.votes)
  }

  lemma AcceptPartSends(cfg: Config, s: Sys, n: NodeId, nd: Node)
    requires Wf(cfg, s) && n in cfg.nodes && nd.me == n && nd.acc == s.nodes[n].acc && nd.prop.id > 0
    ensures SendsAccept(cfg, s, n, nd, AcceptPart(cfg, nd)) && AcceptPart(cfg, nd).node.prop.accepting
  {
  }

  lemma SendsShape(cfg: Config, s: Sys, n: NodeId, nd: Node, o: Out)
    requires Wf(cfg, s) && n in cfg.nodes && nd.me == n && SendsAccept(cfg, s, n, nd, o)
    ensures var s' := Apply(s, n, o);
      && Wf(cfg, s') && Grows(cfg, s, s') && s'.nodes[n] == o.node
      && s'.sent == s.sent + {AcceptMsg(nd)} && s'.votes == s.votes + o.fx.votes
      && n in s'.nodes && s'.nodes[n].acc.promise.AtLeast(Ballot(nd.prop.id, n))
  {
    ApplyGrows(cfg, s, n, o);
  }

  lemma AcceptPartStore(cfg: Config, s: Sys, n: NodeId, nd: Node)
    requires Wf(cfg, s) && GlobalInv(cfg, s) && StoreInv(cfg, s, n, nd)
    requires nd.me == n && nd.prop.value != [] && nd.prop.id > 0
    requires n in cfg.nodes && nd.acc == s.nodes[n].acc
    ensures StoreInv(cfg, Apply(s, n, AcceptPart(cfg, nd)), n, AcceptPart(cfg, nd).node)
  {
    hide StoreInv, GlobalInv, AcceptorOnAccept;
    var s' := Apply(s, n, AcceptPart(cfg, nd));
    StoreIgnoresProp(cfg, s, n, nd, StartAccept(nd).prop);
    var r := AcceptorOnAccept(cfg, StartAccept(nd), n, nd.prop.id, nd.prop.value);
    AcceptStore(cfg, s, s', n, StartAccept(nd), n, nd.prop.id, nd.prop.value);
    StoreIgnoresProp(cfg, s', n, r.node, RecordAcceptReply(r.node, n, r.rejectBy).prop);
  }

  lemma OneMoreProposal(s: Sys, s': Sys, m: Message, i: nat, b: Ballot, v: Value)
    requires m.Accept? && s'.sent == s.sent + {m} && Proposed(s', i, b, v)
    ensures Proposed(s, i, b, v) || (i == m.inst && b == Ballot(m.id, m.from) && v == m.value)
  {
    var c :| Accept(i, b.node, b.id, v, c) in s'.sent;
    if Accept(i, b.node, b.id, v, c) in s.sent {
      assert Proposed(s, i, b, v);
    }
  }

  lemma SendsGlobal(cfg: Config, s: Sys, n: NodeId, nd: Node, o: Out)
    requires Wf(cfg, s) && OneValue(s) && ProposalsSafe(cfg, s) && IdInv(s, n, nd) && AcceptReady(cfg, s, n, nd)
    requires n in cfg.nodes && nd.me == n && SendsAccept(cfg, s, n, nd, o)
    ensures var s' := Apply(s, n, o);
      Wf(cfg, s') && OwnVotesKept(s, s') && OneValue(s') && ProposalsSafe(cfg, s')
  {
    var s' := Apply(s, n, o);
    var m := AcceptMsg(nd);
    SendsShape(cfg, s, n, nd, o);
    hide Apply, SafeAt, QuorumPledged, SendsAccept;
    forall i: nat, b, v | Proposed(s', i, b, v)
      ensures v != [] && b.id > 0 && b.node in cfg.nodes && SafeAt(cfg, s', i, b, v)
    {
      OneMoreProposal(s, s', m, i, b, v);
      SafeGrows(cfg, s, s', i, b, v);
    }
    forall i: nat, b, v, v' | Proposed(s', i, b, v) && Proposed(s', i, b, v')
      ensures v == v'
    {
      OneMoreProposal(s, s', m, i, b, v);
      OneMoreProposal(s, s', m, i, b, v');
    }
    forall j: nat, b, v | Proposed(s', j, b, v) && !Proposed(s, j, b, v)
      ensures forall m :: m in s.sent && (m.Prepare? || m.Accept?) && Ballot(m.id, m.from) == b ==> m.inst <= j
    {
      OneMoreProposal(s, s', m, j, b, v);
    }
  }

  /** The history before the instance is as good after a step as it was before. */
  lemma PrefixLater(cfg: Config, s: Sys, s': Sys, n: NodeId, nd: Node)
    requires Wf(cfg, s) && StoreInv(cfg, s, n, nd) && Grows(cfg, s, s') && s.votes <= s'.votes
    ensures Prefix(cfg, s', LogPrefix(nd.log, nd.inst), nd.inst) && ChkOk(cfg, s', nd.inst, nd.lastChk)
  {
    hide *;
    OwnPrefix(cfg, s, n, nd);
    OwnChkOk(cfg, s, n, nd);
    PrefixGrows(cfg, s, s', LogPrefix(nd.log, nd.inst), nd.inst);
    ChkOkGrows(cfg, s, s', nd.inst, nd.lastChk);
  }

  lemma OwnPrefix(cfg: Config, s: Sys, n: NodeId, nd: Node)
    requires StoreInv(cfg, s, n, nd)
    ensures Prefix(cfg, s, LogPrefix(nd.log, nd.inst), nd.inst)
  {
    HistoryPrefix(cfg, s, n, nd);
  }

  lemma SendsVoted(cfg: Config, s: Sys, s': Sys, n: NodeId, nd: Node)
    requires Wf(cfg, s) && AcceptReady(cfg, s, n, nd) && nd.me == n
    requires s'.sent == s.sent + {AcceptMsg(nd)} && s.votes <= s'.votes
    ensures forall j: nat, v :: j < nd.inst && Proposed(s', j, Ballot(nd.prop.id, n), v) ==>
      Vote(n, j, Ballot(nd.prop.id, n), v) in s'.votes
  {
    hide SafeAt, QuorumPledged, Proposed;
    forall j: nat, v | j < nd.inst && Proposed(s', j, Ballot(nd.prop.id, n), v)
      ensures Vote(n, j, Ballot(nd.prop.id, n), v) in s'.votes
    {
      OneMoreProposal(s, s', AcceptMsg(nd), j, Ballot(nd.prop.id, n), v);
    }
  }

  lemma AcceptMsgOk(cfg: Config, s: Sys, n: NodeId, nd: Node)
    requires Wf(cfg, s) && n in cfg.nodes && n in s.nodes && nd.me == n && nd.prop.id > 0
    requires s.nodes[n].acc.promise.AtLeast(Ballot(nd.prop.id, n))
    requires Prefix(cfg, s, LogPrefix(nd.log, nd.inst), nd.inst) && ChkOk(cfg, s, nd.inst, nd.lastChk)
    requires forall j: nat, v :: j < nd.inst && Proposed(s, j, Ballot(nd.prop.id, n), v) ==>
      Vote(n, j, Ballot(nd.prop.id, n), v) in s.votes
    ensures MsgOk(cfg, s, AcceptMsg(nd))
  {
    hide Prefix, ChkOk, Proposed;
  }

  lemma SendsMsg(cfg: Config, s: Sys, n: NodeId, nd: Node, o: Out)
    requires Wf(cfg, s) && StoreInv(cfg, s, n, nd) && AcceptReady(cfg, s, n, nd)
    requires n in cfg.nodes && nd.me == n && nd.prop.id > 0 && SendsAccept(cfg, s, n, nd, o)
    ensures var s' := Apply(s, n, o); Wf(cfg, s') && MsgOk(cfg, s', AcceptMsg(nd))
  {
    hide *;
    var s' := Apply(s, n, o);
    SendsShape(cfg, s, n, nd, o);
    PrefixLater(cfg, s, s', n, nd);
    SendsVoted(cfg, s, s', n, nd);
    AcceptMsgOk(cfg, s', n, nd);
  }

  lemma SendsProp(cfg: Config, s: Sys, n: NodeId, nd: Node, o: Out)
    requires Wf(cfg, s) && AcceptReady(cfg, s, n, nd)
    requires n in cfg.nodes && nd.me == n && SendsAccept(cfg, s, n, nd, o)
    ensures var s' := Apply(s, n, o); Wf(cfg, s') && PropInv(cfg, s', n, o.node)
  {
    var s' := Apply(s, n, o);
    SendsShape(cfg, s, n, nd, o);
    hide Apply, SafeAt, QuorumPledged;
    ProposalSent(s', AcceptMsg(nd));
    QuorumPledgedGrows(cfg, s, s', nd.inst + 1, Ballot(nd.prop.id, n));
    AcceptPartOwn(cfg, s, s', n, nd, o.node);
    hide AcceptReady, OwnVoteInv, PinInv, Proposed;
  }

  /** One more proposal, voted for or refused, of the value in hand. */
  lemma AcceptPartOwn(cfg: Config, s: Sys, s': Sys, n: NodeId, nd: Node, nd': Node)
    requires Wf(cfg, s) && AcceptReady(cfg, s, n, nd) && nd.me == n
    requires s'.sent == s.sent + {AcceptMsg(nd)} && s.votes <= s'.votes
    requires var b := Ballot(nd.prop.id, n);
      Vote(n, nd.inst, b, nd.prop.value) in s'.votes || nd'.prop.wasRejected
    requires nd'.inst == nd.inst && nd'.prop.id == nd.prop.id && nd'.prop.value == nd.prop.value && !nd'.prop.preparing
    ensures OwnVoteInv(s', n, nd') && PinInv(s', n, nd')
  {
    var b := Ballot(nd.prop.id, n);
    hide SafeAt, QuorumPledged;
    forall i: nat, v | Proposed(s', i, b, v)
      ensures Vote(n, i, b, v) in s'.votes || nd'.prop.wasRejected
      ensures i == nd.inst ==> v == nd.prop.value
    {
      OneMoreProposal(s, s', AcceptMsg(nd), i, b, v);
    }
  }

  lemma SendsId(cfg: Config, s: Sys, n: NodeId, nd: Node, o: Out)
    requires Wf(cfg, s) && IdInv(s, n, nd) && n in cfg.nodes && nd.me == n
    requires nd.acc == s.nodes[n].acc && SendsAccept(cfg, s, n, nd, o)
    ensures IdInv(Apply(s, n, o), n, o.node)
  {
    SendsShape(cfg, s, n, nd, o);
    hide Apply;
  }

  lemma SendsVotes(cfg: Config, s: Sys, n: NodeId, nd: Node, o: Out)
    requires Wf(cfg, s) && n in cfg.nodes && nd.me == n && SendsAccept(cfg, s, n, nd, o)
    requires Wf(cfg, Apply(s, n, o)) && MsgOk(cfg, Apply(s, n, o), AcceptMsg(nd))
    ensures NewFacts(cfg, Apply(s, n, o), o.fx)
  {
    SendsShape(cfg, s, n, nd, o);
    hide Apply, MsgOk, Proposed;
    ProposalSent(Apply(s, n, o), AcceptMsg(nd));
  }

  lemma SendsOwn(cfg: Config, s: Sys, n: NodeId, nd: Node, o: Out)
    requires Wf(cfg, s) && n in cfg.nodes && SendsAccept(cfg, s, n, nd, o)
    ensures OwnEffects(s, n, o)
  {
  }

  /** `nd` is the node with its skip flag set for the round. */
  lemma SendsStep(cfg: Config, s: Sys, n: NodeId, nd: Node, o: Out)
    requires n in cfg.nodes && n in s.nodes && nd.me == n
    requires nd == s.nodes[n].(prop := nd.prop) && nd.prop.id == s.nodes[n].prop.id && SkipEarned(s.nodes[n], nd)
    requires Wf(cfg, s) && AcceptReady(cfg, s, n, nd) && SendsAccept(cfg, s, n, nd, o)
    requires StoreInv(cfg, Apply(s, n, o), n, o.node)
    requires Inv(cfg, s)
    ensures Inv(cfg, Apply(s, n, o))
  {
    hide *;
    InvAt(cfg, s, n);
    GlobalVotes(cfg, s);
    IdPositive(s, n, s.nodes[n]);
    StoreIgnoresProp(cfg, s, n, s.nodes[n], nd.prop);
    IdIgnoresProp(s, n, s.nodes[n], nd);
    SendsShape(cfg, s, n, nd, o);
    SendsOwn(cfg, s, n, nd, o);
    SendsGlobal(cfg, s, n, nd, o);
    SendsMsg(cfg, s, n, nd, o);
    SendsProp(cfg, s, n, nd, o);
    SendsId(cfg, s, n, nd, o);
    SendsVotes(cfg, s, n, nd, o);
    NodeInvFrom(cfg, Apply(s, n, o), n);
    ApplyInv(cfg, s, n, o);
  }

  lemma AcceptPartStep(cfg: Config, s: Sys, n: NodeId, nd: Node)
    requires n in cfg.nodes && n in s.nodes && nd.me == n
    requires nd == s.nodes[n].(prop := nd.prop) && nd.prop.id == s.nodes[n].prop.id && SkipEarned(s.nodes[n], nd)
    requires Wf(cfg, s) && AcceptReady(cfg, s, n, nd)
    requires Inv(cfg, s)
    ensures Inv(cfg, Apply(s, n, AcceptPart(cfg, nd)))
  {
    hide *;
    InvAt(cfg, s, n);
    IdPositive(s, n, s.nodes[n]);
    ReadyNonEmpty(cfg, s, n, nd);
    StoreIgnoresProp(cfg, s, n, s.nodes[n], nd.prop);
    AcceptPartSends(cfg, s, n, nd);
    AcceptPartStore(cfg, s, n, nd);
    SendsStep(cfg, s, n, nd, AcceptPart(cfg, nd));
  }

  // ---------------------------------------------------------------- Accept sent, and the process gone

  /** Accept is out and the own acceptor has not seen it: the node could as well have been rejected. */
  function CutPart(nd: Node): Out {
    Out(nd.(prop := nd.prop.(preparing := false, accepting := false, wasRejected := true)), Effects({AcceptMsg(nd)}, {}, {}))
  }

  lemma CutPartSends(cfg: Config, s: Sys, n: NodeId, nd: Node)
    requires Wf(cfg, s) && n in cfg.nodes && nd.me == n && nd.acc == s.nodes[n].acc
    requires nd.acc.promise.AtLeast(Ballot(nd.prop.id, n))
    ensures SendsAccept(cfg, s, n, nd, CutPart(nd))
  {
  }

  lemma CutPartStore(cfg: Config, s: Sys, n: NodeId, nd: Node)
    requires Wf(cfg, s) && n in cfg.nodes && nd.me == n && SendsAccept(cfg, s, n, nd, CutPart(nd))
    requires StoreInv(cfg, s, n, nd)
    ensures StoreInv(cfg, Apply(s, n, CutPart(nd)), n, CutPart(nd).node)
  {
    SendsShape(cfg, s, n, nd, CutPart(nd));
    StoreIgnoresProp(cfg, s, n, nd, CutPart(nd).node.prop);
    hide StoreInv;
    StoreKept(cfg, s, Apply(s, n, CutPart(nd)), n, CutPart(nd).node);
  }

  lemma CutPromise(s: Sys, n: NodeId, node: Node, nd: Node)
    requires IdInv(s, n, node) && nd == node.(prop := nd.prop) && nd.prop.id == node.prop.id && SkipEarned(node, nd)
    requires nd.prop.canSkip
    ensures nd.acc.promise.AtLeast(Ballot(nd.prop.id, n))
  {
  }

  lemma CutPartStep(cfg: Config, s: Sys, n: NodeId, nd: Node)
    requires n in cfg.nodes && n in s.nodes && nd.me == n && nd.prop.canSkip
    requires nd == s.nodes[n].(prop := nd.prop) && nd.prop.id == s.nodes[n].prop.id && SkipEarned(s.nodes[n], nd)
    requires Wf(cfg, s) && AcceptReady(cfg, s, n, nd)
    requires Inv(cfg, s)
    ensures Inv(cfg, Apply(s, n, CutPart(nd)))
  {
    hide *;
    InvAt(cfg, s, n);
    StoreIgnoresProp(cfg, s, n, s.nodes[n], nd.prop);
    CutPromise(s, n, s.nodes[n], nd);
    assert nd.acc == s.nodes[n].acc;
    CutPartSends(cfg, s, n, nd);
    CutPartStore(cfg, s, n, nd);
    SendsStep(cfg, s, n, nd, CutPart(nd));
  }

  lemma ReadyNonEmpty(cfg: Config, s: Sys, n: NodeId, node: Node)
    requires Wf(cfg, s) && AcceptReady(cfg, s, n, node)
    ensures node.prop.value != []
  {
  }

  lemma IdPositive(s: Sys, n: NodeId, node: Node)
    requires IdInv(s, n, node)
    ensures node.prop.id > 0
  {
  }

  lemma IdIgnoresProp(s: Sys, n: NodeId, node: Node, node': Node)
    requires IdInv(s, n, node) && node'.prop.id == node.prop.id && node'.inst == node.inst && node'.acc == node.acc
    requires SkipEarned(node, node')
    ensures IdInv(s, n, node')
  {
  }

  lemma NodeInvFrom(cfg: Config, s: Sys, n: NodeId)
    requires Wf(cfg, s) && n in cfg.nodes
    requires StoreInv(cfg, s, n, s.nodes[n]) && IdInv(s, n, s.nodes[n]) && PropInv(cfg, s, n, s.nodes[n])
    ensures NodeInv(cfg, s, n)
  {
  }
}
