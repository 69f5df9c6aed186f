/** What a node may rely on while other nodes take steps. */
module PaxosStable {
  import opened PaxosTypes
  import opened NodeSpec
  import opened PaxosSystem
  import opened PaxosInvariant

  lemma QuorumsMeet(cfg: Config, p: set<NodeId>, q: set<NodeId>) returns (a: NodeId)
    requires IsQuorum(cfg, p) && IsQuorum(cfg, q)
    ensures a in p && a in q
  {
    if p * q == {} {
      assert |p + q| == |p| + |q|;
      SubsetSize(p + q, cfg.nodes);
      assert false;
    }
    a :| a in p * q;
  }

  lemma SubsetSize(a: set<NodeId>, b: set<NodeId>)
    requires a <= b
    ensures |a| <= |b|
  {
    if a != {} {
      var x :| x in a;
      SubsetSize(a - {x}, b - {x});
    }
  }

  lemma ProposedGrows(s: Sys, s': Sys, i: nat, b: Ballot, v: Value)
    requires s.sent <= s'.sent && Proposed(s, i, b, v)
    ensures Proposed(s', i, b, v)
  {
    var c :| Accept(i, b.node, b.id, v, c) in s.sent;
    assert Accept(i, b.node, b.id, v, c) in s'.sent;
  }

  lemma ChosenGrows(cfg: Config, s: Sys, s': Sys, i: nat, v: Value)
    requires s.votes <= s'.votes && Chosen(cfg, s, i, v)
    ensures Chosen(cfg, s', i, v)
  {
    var b :| ChosenAt(cfg, s, i, b, v);
    ChosenAtGrows(cfg, s, s', i, b, v);
  }

  lemma ChosenAtGrows(cfg: Config, s: Sys, s': Sys, i: nat, b: Ballot, v: Value)
    requires s.votes <= s'.votes && ChosenAt(cfg, s, i, b, v)
    ensures ChosenAt(cfg, s', i, b, v)
  {
    var q :| IsQuorum(cfg, q) && QuorumVoted(s, q, i, b, v);
    assert QuorumVoted(s', q, i, b, v);
  }

  lemma SafeGrows(cfg: Config, s: Sys, s': Sys, i: nat, b: Ballot, v: Value)
    requires Grows(cfg, s, s') && SafeAt(cfg, s, i, b, v)
    ensures SafeAt(cfg, s', i, b, v)
  {
    forall b' | b.Above(b')
      ensures Blocked(cfg, s', i, b', v)
    {
      var q :| QuorumClosed(cfg, s, q, i, b', v);
      forall a | a in q
        ensures Closed(s', a, i, b', v)
      {
        assert Closed(s, a, i, b', v);
      }
      assert QuorumClosed(cfg, s', q, i, b', v);
    }
  }

  lemma PledgedGrows(cfg: Config, s: Sys, s': Sys, a: NodeId, i: nat, b: Ballot)
    requires Grows(cfg, s, s') && a in cfg.nodes && Pledged(s, a, i, b)
    ensures Pledged(s', a, i, b)
  {
  }

  lemma QuorumPledgedGrows(cfg: Config, s: Sys, s': Sys, i: nat, b: Ballot)
    requires Grows(cfg, s, s') && QuorumPledged(cfg, s, i, b)
    ensures QuorumPledged(cfg, s', i, b)
  {
    var q :| AllPledged(cfg, s, q, i, b);
    forall a | a in q
      ensures Pledged(s', a, i, b)
    {
      PledgedGrows(cfg, s, s', a, i, b);
    }
    assert AllPledged(cfg, s', q, i, b);
  }

  lemma PromisedGrows(cfg: Config, s: Sys, s': Sys, a: NodeId, i: nat, b: Ballot, h: Ballot)
    requires Grows(cfg, s, s') && a in cfg.nodes && Promised(s, a, i, b, h)
    ensures Promised(s', a, i, b, h)
  {
    PledgedGrows(cfg, s, s', a, i + 1, b);
  }

  lemma PrefixGrows(cfg: Config, s: Sys, s': Sys, vs: seq<Value>, i: nat)
    requires s.votes <= s'.votes && Prefix(cfg, s, vs, i)
    ensures Prefix(cfg, s', vs, i)
  {
    forall k | 0 <= k < |vs|
      ensures Chosen(cfg, s', k, vs[k])
    {
      ChosenGrows(cfg, s, s', k, vs[k]);
    }
  }

  lemma ChkOkGrows(cfg: Config, s: Sys, s': Sys, i: nat, c: nat)
    requires s.votes <= s'.votes && ChkOk(cfg, s, i, c)
    ensures ChkOk(cfg, s', i, c)
  {
    if c != 0 {
      var vs :| Prefix(cfg, s, vs, i) && c == Fold(cfg, vs);
      PrefixGrows(cfg, s, s', vs, i);
    }
  }

  /** New proposals of ballot `b` come with the proposer's vote or in instance `i` and later. */
  ghost predicate OwnVotesKept(s: Sys, s': Sys) {
    forall j: nat, b, v :: Proposed(s', j, b, v) && !Proposed(s, j, b, v) ==>
      forall m :: m in s.sent && (m.Prepare? || m.Accept?) && Ballot(m.id, m.from) == b ==> m.inst <= j
  }

  lemma FactGrows(cfg: Config, s: Sys, s': Sys, m: Message)
    requires Grows(cfg, s, s') && !m.Prepare? && !m.Accept? && MsgOk(cfg, s, m)
    ensures MsgOk(cfg, s', m)
  {
    match m
    case PrepareReply(i, f, t, id, r, pre, v) =>
      if r == 0 {
        PromisedGrows(cfg, s, s', f, i, Ballot(id, t), pre);
        if pre.id > 0 { ProposedGrows(s, s', i, pre, v); }
      }
    case AcceptReply(i, f, t, id, r) =>
      if r == 0 {
        var v :| Vote(f, i, Ballot(id, t), v) in s.votes;
        assert Vote(f, i, Ballot(id, t), v) in s'.votes;
      }
    case Success(i, f, id, c) =>
      ChkOkGrows(cfg, s, s', i, c);
      var v :| ChosenAt(cfg, s, i, Ballot(id, f), v);
      ChosenAtGrows(cfg, s, s', i, Ballot(id, f), v);
    case Learn(i, f, t, b, v, c) =>
      ChkOkGrows(cfg, s, s', i, c);
      ChosenGrows(cfg, s, s', i, v);
  }

  lemma MsgOkGrows(cfg: Config, s: Sys, s': Sys, m: Message)
    requires Grows(cfg, s, s') && OwnVotesKept(s, s')
    requires m in s.sent && MsgOk(cfg, s, m)
    ensures MsgOk(cfg, s', m)
  {
    if m.Prepare? || m.Accept? {
      RequestGrows(cfg, s, s', m, m.inst, Ballot(m.id, m.from));
      if m.Accept? {
        ChkOkGrows(cfg, s, s', m.inst, m.chk);
      }
    } else {
      FactGrows(cfg, s, s', m);
    }
  }

  lemma RequestGrows(cfg: Config, s: Sys, s': Sys, m: Message, i: nat, b: Ballot)
    requires Grows(cfg, s, s') && OwnVotesKept(s, s') && RequestOk(cfg, s, i, b)
    requires m in s.sent && (m.Prepare? || m.Accept?) && Ballot(m.id, m.from) == b && m.inst == i
    ensures RequestOk(cfg, s', i, b)
  {
    var vs :| Prefix(cfg, s, vs, i);
    PrefixGrows(cfg, s, s', vs, i);
    forall j: nat, v | j < i && Proposed(s', j, b, v)
      ensures Vote(b.node, j, b, v) in s'.votes
    {
      assert Proposed(s, j, b, v);
    }
  }

  /** Node `n` sent no new Prepare or Accept. */
  ghost predicate NoNewRequests(s: Sys, s': Sys, n: NodeId) {
    forall m :: m in s'.sent && m.from == n && (m.Prepare? || m.Accept?) ==> m in s.sent
  }

  lemma NoNewProposal(s: Sys, s': Sys, n: NodeId, i: nat, id: nat, v: Value)
    requires NoNewRequests(s, s', n) && Proposed(s', i, Ballot(id, n), v)
    ensures Proposed(s, i, Ballot(id, n), v)
  {
    var c :| Accept(i, n, id, v, c) in s'.sent;
    var m := Accept(i, n, id, v, c);
    assert m in s.sent;
  }

  /** Node `n` cast no new vote in instance `k`. */
  ghost predicate NoNewVotes(s: Sys, s': Sys, n: NodeId, k: nat) {
    && s.votes <= s'.votes
    && forall x :: x in s'.votes && x.node == n && x.inst == k ==> x in s.votes
  }

  lemma RecOkKept(s: Sys, s': Sys, n: NodeId, k: nat, r: Record)
    requires NoNewVotes(s, s', n, k) && RecOk(s, n, k, r)
    ensures RecOk(s', n, k, r)
  {
  }

  lemma HistoryKept(cfg: Config, s: Sys, s': Sys, n: NodeId, log: map<nat, Record>, inst: nat)
    requires s.votes <= s'.votes && HistoryInv(cfg, s, n, log, inst)
    requires forall x :: x in s'.votes && x.node == n && x.inst < inst ==> x in s.votes
    ensures HistoryInv(cfg, s', n, log, inst)
  {
    forall k: nat | k < inst
      ensures Chosen(cfg, s', k, log[k].value)
    {
      ChosenGrows(cfg, s, s', k, log[k].value);
    }
    forall k | k in log && k < inst && log[k].persisted
      ensures RecOk(s', n, k, log[k])
    {
      RecOkKept(s, s', n, k, log[k]);
    }
  }

  lemma StoreKept(cfg: Config, s: Sys, s': Sys, n: NodeId, node: Node)
    requires s.votes <= s'.votes && StoreInv(cfg, s, n, node)
    requires forall x :: x in s'.votes && x.node == n ==> x in s.votes
    ensures StoreInv(cfg, s', n, node)
  {
    HistoryKept(cfg, s, s', n, node.log, node.inst);
    RecOkKept(s, s', n, node.inst, AccRecord(node));
    OwnKept(cfg, s, s', n, node.log, node.acc.promise);
  }

  lemma OwnKept(cfg: Config, s: Sys, s': Sys, n: NodeId, log: map<nat, Record>, promise: Ballot)
    requires s.votes <= s'.votes && OwnInv(cfg, s, n, log, promise)
    requires forall x :: x in s'.votes && x.node == n ==> x in s.votes
    ensures OwnInv(cfg, s', n, log, promise)
  {
    forall k | k in log && OwnRecord(log, k).Some?
      ensures OwnRecOk(cfg, s', n, log, k, OwnRecord(log, k).value)
    {
      RecOkKept(s, s', n, k, OwnRecord(log, k).value);
    }
  }

  lemma IdKept(s: Sys, s': Sys, n: NodeId, node: Node)
    requires NoNewRequests(s, s', n) && IdInv(s, n, node)
    ensures IdInv(s', n, node)
  {
  }

  lemma PropKept(cfg: Config, s: Sys, s': Sys, n: NodeId, node: Node)
    requires Grows(cfg, s, s') && n in cfg.nodes && NoNewRequests(s, s', n)
    requires PropInv(cfg, s, n, node)
    ensures PropInv(cfg, s', n, node)
  {
    var b := Ballot(node.prop.id, n);
    forall i: nat, v | Proposed(s', i, b, v)
      ensures Proposed(s, i, b, v)
    {
      NoNewProposal(s, s', n, i, node.prop.id, v);
    }
    if node.prop.preparing {
      PreparingGrows(cfg, s, s', n, node);
    }
    if node.prop.accepting {
      ProposedGrows(s, s', node.inst, b, node.prop.value);
    }
    if node.prop.canSkip {
      SkipGrows(cfg, s, s', n, node);
    }
  }

  lemma PreparingGrows(cfg: Config, s: Sys, s': Sys, n: NodeId, node: Node)
    requires Grows(cfg, s, s') && PreparingInv(cfg, s, n, node)
    ensures PreparingInv(cfg, s', n, node)
  {
    var b := Ballot(node.prop.id, n);
    forall a | a in node.prop.counter.granted
      ensures a in cfg.nodes && Promised(s', a, node.inst, b, node.prop.highestPre)
    {
      PromisedGrows(cfg, s, s', a, node.inst, b, node.prop.highestPre);
    }
    if node.prop.highestPre.id > 0 {
      ProposedGrows(s, s', node.inst, node.prop.highestPre, node.prop.value);
    }
  }

  lemma SkipGrows(cfg: Config, s: Sys, s': Sys, n: NodeId, node: Node)
    requires Grows(cfg, s, s') && SkipInv(cfg, s, n, node)
    ensures SkipInv(cfg, s', n, node)
  {
    var b := Ballot(node.prop.id, n);
    QuorumPledgedGrows(cfg, s, s', node.inst + 1, b);
    if Proposed(s, node.inst, b, node.prop.value) {
      ProposedGrows(s, s', node.inst, b, node.prop.value);
    } else {
      QuorumPledgedGrows(cfg, s, s', node.inst, b);
    }
  }

  // ---------------------------------------------------------------- uniqueness

  /** The heart of agreement: a safe ballot cannot contradict a lower choice. */
  lemma ChosenBelowSafe(cfg: Config, s: Sys, i: nat, b: Ballot, v: Value, b': Ballot, v': Value)
    requires Wf(cfg, s) && ChosenAt(cfg, s, i, b, v)
    requires b'.Above(b) && SafeAt(cfg, s, i, b', v')
    ensures v == v'
  {
    var q :| IsQuorum(cfg, q) && QuorumVoted(s, q, i, b, v);
    assert Blocked(cfg, s, i, b, v');
    var q' :| QuorumClosed(cfg, s, q', i, b, v');
    var a := QuorumsMeet(cfg, q, q');
    assert Closed(s, a, i, b, v');
    assert Vote(a, i, b, v) in s.votes;
  }

  lemma ChosenProposed(cfg: Config, s: Sys, i: nat, b: Ballot, v: Value)
    requires VotesProposed(cfg, s) && ChosenAt(cfg, s, i, b, v)
    ensures Proposed(s, i, b, v)
  {
    var q :| IsQuorum(cfg, q) && QuorumVoted(s, q, i, b, v);
    var a := QuorumsMeet(cfg, q, q);
    assert Vote(a, i, b, v) in s.votes;
  }

  lemma ChosenUnique(cfg: Config, s: Sys, i: nat, v: Value, v': Value)
    requires Wf(cfg, s) && VotesProposed(cfg, s) && OneValue(s) && ProposalsSafe(cfg, s)
    requires Chosen(cfg, s, i, v) && Chosen(cfg, s, i, v')
    ensures v == v'
  {
    var b :| ChosenAt(cfg, s, i, b, v);
    var b' :| ChosenAt(cfg, s, i, b', v');
    ChosenProposed(cfg, s, i, b, v);
    ChosenProposed(cfg, s, i, b', v');
    if b'.Above(b) {
      ChosenBelowSafe(cfg, s, i, b, v, b', v');
    } else if b.Above(b') {
      ChosenBelowSafe(cfg, s, i, b', v', b, v);
    } else {
      assert b == b';
    }
  }

  lemma PrefixUnique(cfg: Config, s: Sys, vs: seq<Value>, ws: seq<Value>)
    requires Wf(cfg, s) && VotesProposed(cfg, s) && OneValue(s) && ProposalsSafe(cfg, s)
    requires |vs| == |ws| && AllChosen(cfg, s, vs) && AllChosen(cfg, s, ws)
    ensures vs == ws
  {
    forall k | 0 <= k < |vs|
      ensures vs[k] == ws[k]
    {
      ChosenUnique(cfg, s, k, vs[k], ws[k]);
    }
  }
}
