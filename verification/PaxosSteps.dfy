/** The small steps of one node, each keeping the invariant. */
module PaxosSteps {
  import opened PaxosTypes
  import opened NodeSpec
  import opened PaxosSystem
  import opened PaxosInvariant
  import opened PaxosStable

  lemma InvAt(cfg: Config, s: Sys, n: NodeId)
    requires Inv(cfg, s) && n in cfg.nodes
    ensures Wf(cfg, s) && GlobalInv(cfg, s) && n in s.nodes && s.nodes[n].me == n
    ensures StoreInv(cfg, s, n, s.nodes[n]) && IdInv(s, n, s.nodes[n]) && PropInv(cfg, s, n, s.nodes[n])
  {
    assert NodeInv(cfg, s, n);
  }

  // ---------------------------------------------------------------- frame

  /** The effects of a step come from node `n`, which keeps its promise. */
  ghost predicate OwnEffects(s: Sys, n: NodeId, o: Out)
    requires n in s.nodes
  {
    && o.node.me == n
    && o.node.acc.promise.AtLeast(s.nodes[n].acc.promise)
    && (forall m :: m in o.fx.msgs ==> m.from == n)
    && (forall x :: x in o.fx.votes ==> x.node == n && x.ballot.AtLeast(s.nodes[n].acc.promise))
  }

  lemma ApplyGrows(cfg: Config, s: Sys, n: NodeId, o: Out)
    requires Wf(cfg, s) && n in cfg.nodes && OwnEffects(s, n, o)
    ensures Grows(cfg, s, Apply(s, n, o))
  {
  }

  lemma OthersKept(cfg: Config, s: Sys, n: NodeId, o: Out, a: NodeId)
    requires Inv(cfg, s) && n in cfg.nodes && OwnEffects(s, n, o)
    requires a in cfg.nodes && a != n
    ensures Wf(cfg, Apply(s, n, o)) && NodeInv(cfg, Apply(s, n, o), a)
  {
    var s' := Apply(s, n, o);
    ApplyGrows(cfg, s, n, o);
    StoreKept(cfg, s, s', a, s.nodes[a]);
    IdKept(s, s', a, s.nodes[a]);
    PropKept(cfg, s, s', a, s.nodes[a]);
  }

  /** What is new in `s'` is in order. */
  ghost predicate NewFacts(cfg: Config, s': Sys, fx: Effects)
    requires Wf(cfg, s')
  {
    && (forall m :: m in fx.msgs ==> MsgOk(cfg, s', m))
    && (forall x :: x in fx.votes ==> x.ballot.id > 0 && Proposed(s', x.inst, x.ballot, x.value))
    && (forall l :: l in fx.learned ==> Chosen(cfg, s', l.inst, l.value))
  }

  lemma OldFacts(cfg: Config, s: Sys, n: NodeId, o: Out)
    requires Inv(cfg, s) && n in cfg.nodes && OwnEffects(s, n, o)
    requires var s' := Apply(s, n, o); Wf(cfg, s') && NewFacts(cfg, s', o.fx) && OwnVotesKept(s, s')
    ensures var s' := Apply(s, n, o); VotesProposed(cfg, s') && MessagesOk(cfg, s') && LearnedChosen(cfg, s')
  {
    var s' := Apply(s, n, o);
    ApplyGrows(cfg, s, n, o);
    forall m | m in s.sent
      ensures MsgOk(cfg, s', m)
    {
      MsgOkGrows(cfg, s, s', m);
    }
    forall x | x in s.votes
      ensures Proposed(s', x.inst, x.ballot, x.value)
    {
      ProposedGrows(s, s', x.inst, x.ballot, x.value);
    }
    forall l | l in s.learned
      ensures Chosen(cfg, s', l.inst, l.value)
    {
      ChosenGrows(cfg, s, s', l.inst, l.value);
    }
  }

  lemma ApplyInv(cfg: Config, s: Sys, n: NodeId, o: Out)
    requires Inv(cfg, s) && n in cfg.nodes && OwnEffects(s, n, o)
    requires var s' := Apply(s, n, o);
      && Wf(cfg, s') && NewFacts(cfg, s', o.fx) && OwnVotesKept(s, s')
      && OneValue(s') && ProposalsSafe(cfg, s')
      && NodeInv(cfg, s', n)
    ensures Inv(cfg, Apply(s, n, o))
  {
    OldFacts(cfg, s, n, o);
    forall a | a in cfg.nodes
      ensures NodeInv(cfg, Apply(s, n, o), a)
    {
      if a != n {
        OthersKept(cfg, s, n, o, a);
      }
    }
  }

  ghost predicate NoRequest(fx: Effects) {
    forall m :: m in fx.msgs ==> !m.Prepare? && !m.Accept?
  }

  lemma SameProposals(cfg: Config, s: Sys, n: NodeId, o: Out)
    requires Inv(cfg, s) && n in cfg.nodes && OwnEffects(s, n, o)
    requires forall m :: m in o.fx.msgs ==> !m.Accept?
    ensures var s' := Apply(s, n, o);
      Wf(cfg, s') && OwnVotesKept(s, s') && OneValue(s') && ProposalsSafe(cfg, s')
  {
    var s' := Apply(s, n, o);
    ApplyGrows(cfg, s, n, o);
    forall i: nat, b, v | Proposed(s', i, b, v)
      ensures Proposed(s, i, b, v) && SafeAt(cfg, s', i, b, v)
    {
      var c :| Accept(i, b.node, b.id, v, c) in s'.sent;
      assert Accept(i, b.node, b.id, v, c) in s.sent;
      assert Proposed(s, i, b, v);
      SafeGrows(cfg, s, s', i, b, v);
    }
  }

  /** A step that proposes nothing. */
  lemma PlainStep(cfg: Config, s: Sys, n: NodeId, o: Out)
    requires Inv(cfg, s) && n in cfg.nodes && OwnEffects(s, n, o)
    requires forall m :: m in o.fx.msgs ==> !m.Accept?
    requires var s' := Apply(s, n, o); Wf(cfg, s') ==> NewFacts(cfg, s', o.fx) && NodeInv(cfg, s', n)
    ensures Inv(cfg, Apply(s, n, o))
  {
    SameProposals(cfg, s, n, o);
    ApplyInv(cfg, s, n, o);
  }

  lemma StoreIgnoresProp(cfg: Config, s: Sys, n: NodeId, node: Node, p: Proposer)
    requires StoreInv(cfg, s, n, node)
    ensures StoreInv(cfg, s, n, node.(prop := p))
  {
  }

  /** A proposer prepares or may skip it only where it did before. */
  predicate SkipEarned(node: Node, nd: Node) {
    nd.prop.preparing || nd.prop.canSkip ==> node.prop.preparing || node.prop.canSkip
  }

  /** A step without a new request or vote keeps the invariant of its node. */
  lemma NodeKept(cfg: Config, s: Sys, n: NodeId, o: Out)
    requires Wf(cfg, s) && n in cfg.nodes && OwnEffects(s, n, o)
    requires NoRequest(o.fx) && o.fx.votes == {}
    requires StoreInv(cfg, s, n, o.node) && IdInv(s, n, o.node) && PropInv(cfg, s, n, o.node)
    ensures var s' := Apply(s, n, o); Wf(cfg, s') && NodeInv(cfg, s', n)
  {
    hide StoreInv, IdInv, PropInv;
    var s' := Apply(s, n, o);
    ApplyGrows(cfg, s, n, o);
    StoreKept(cfg, s, s', n, o.node);
    IdKept(s, s', n, o.node);
    PropKept(cfg, s, s', n, o.node);
  }

  /** Only the proposer's bookkeeping changes. */
  lemma BookkeepingStep(cfg: Config, s: Sys, n: NodeId, p: Proposer)
    requires Inv(cfg, s) && n in cfg.nodes && p.id == s.nodes[n].prop.id
    requires SkipEarned(s.nodes[n], s.nodes[n].(prop := p))
    requires PropInv(cfg, s, n, s.nodes[n].(prop := p))
    ensures Inv(cfg, Apply(s, n, Quiet(s.nodes[n].(prop := p))))
  {
    hide StoreInv, PropInv;
    var o := Quiet(s.nodes[n].(prop := p));
    StoreIgnoresProp(cfg, s, n, s.nodes[n], p);
    NodeKept(cfg, s, n, o);
    PlainStep(cfg, s, n, o);
  }

  lemma ApplyTwice(s: Sys, n: NodeId, o: Out, o': Out)
    ensures Apply(Apply(s, n, o), n, o') == Apply(s, n, Then(o, o'))
  {
  }

  lemma SendStep(cfg: Config, s: Sys, n: NodeId, m: Message)
    requires Inv(cfg, s) && n in cfg.nodes && n in s.nodes
    requires m.from == n && !m.Prepare? && !m.Accept?
    requires Wf(cfg, s) ==> MsgOk(cfg, s, m)
    ensures Inv(cfg, Apply(s, n, Send(Quiet(s.nodes[n]), m)))
  {
    hide StoreInv, PropInv, IdInv, MsgOk;
    var o := Send(Quiet(s.nodes[n]), m);
    ApplyGrows(cfg, s, n, o);
    NodeKept(cfg, s, n, o);
    FactGrows(cfg, s, Apply(s, n, o), m);
    PlainStep(cfg, s, n, o);
  }

  lemma SendTwice(s: Sys, n: NodeId, o: Out, m: Message)
    ensures n in Apply(s, n, o).nodes
    ensures var s1 := Apply(s, n, o); Apply(s1, n, Send(Quiet(s1.nodes[n]), m)) == Apply(s, n, Send(o, m))
  {
  }

  /** After a step, one more message that tells the truth. */
  lemma SendAfter(cfg: Config, s: Sys, n: NodeId, o: Out, m: Message)
    requires n in cfg.nodes && Inv(cfg, Apply(s, n, o))
    requires m.from == n && !m.Prepare? && !m.Accept?
    requires Wf(cfg, Apply(s, n, o)) ==> MsgOk(cfg, Apply(s, n, o), m)
    ensures Inv(cfg, Apply(s, n, Send(o, m)))
  {
    hide *;
    SendTwice(s, n, o, m);
    SendStep(cfg, Apply(s, n, o), n, m);
  }

  lemma ProposalSent(s: Sys, m: Message)
    requires m in s.sent && m.Accept?
    ensures Proposed(s, m.inst, Ballot(m.id, m.from), m.value)
  {
    var b := Ballot(m.id, m.from);
    assert Accept(m.inst, b.node, b.id, m.value, m.chk) in s.sent;
  }

  lemma RequestFacts(cfg: Config, s: Sys, m: Message)
    requires Wf(cfg, s) && GlobalInv(cfg, s) && m in s.sent && (m.Prepare? || m.Accept?)
    ensures RequestOk(cfg, s, m.inst, Ballot(m.id, m.from))
    ensures m.Accept? ==> m.value != [] && Proposed(s, m.inst, Ballot(m.id, m.from), m.value)
  {
    hide RequestOk, SafeAt;
    assert MsgOk(cfg, s, m);
    if m.Accept? {
      ProposalSent(s, m);
    }
  }
}
