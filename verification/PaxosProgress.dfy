/** Progress: with a majority within reach, one undisturbed round gets a value executed. */
module PaxosProgress {
  import opened PaxosTypes
  import opened NodeSpec
  import opened PaxosSystem
  import opened PaxosInvariant
  import opened PaxosStable
  import opened PaxosSteps
  import opened PaxosProposerSteps
  import opened PaxosRounds
  import opened PaxosAgreement
  import opened PaxosRejection
  import opened PaxosTimers

  // ---------------------------------------------------------------- going on from a state

  /** A guarded stretch of a run leads from `s` to `s'`. */
  ghost predicate Leads(cfg: Config, s: Sys, s': Sys) {
    exists r :: Stretch(cfg, r) && r[0] == s && r[|r| - 1] == s'
  }

  ghost predicate Stretch(cfg: Config, r: seq<Sys>) {
    |r| > 0 && forall k :: 0 <= k < |r| - 1 ==> GuardedStep(cfg, r[k], r[k + 1])
  }

  lemma LeadsNowhere(cfg: Config, s: Sys)
    ensures Leads(cfg, s, s)
  {
    assert Stretch(cfg, [s]);
  }

  lemma LeadsOn(cfg: Config, s: Sys, t: Sys, u: Sys)
    requires Leads(cfg, s, t) && GuardedStep(cfg, t, u)
    ensures Leads(cfg, s, u)
  {
    hide GuardedStep;
    var r :| Stretch(cfg, r) && r[0] == s && r[|r| - 1] == t;
    var r' := r + [u];
    forall k | 0 <= k < |r'| - 1
      ensures GuardedStep(cfg, r'[k], r'[k + 1])
    {
      if k < |r| - 1 {
        assert r'[k] == r[k] && r'[k + 1] == r[k + 1];
      }
    }
    assert Stretch(cfg, r') && r'[0] == s && r'[|r'| - 1] == u;
  }

  /** A state reached from `s0`, in which the invariant holds. */
  ghost predicate Goes(cfg: Config, s0: Sys, s: Sys) {
    Inv(cfg, s) && Leads(cfg, s0, s)
  }

  lemma Go(cfg: Config, s0: Sys, s: Sys, n: NodeId, e: Event) returns (s': Sys)
    requires Goes(cfg, s0, s) && n in cfg.nodes && n in s.nodes && Wf(cfg, s)
    requires Enabled(cfg, s, n, e) && Permitted(cfg, s, n, e)
    ensures s' == Apply(s, n, Run(cfg, s, n, e)) && Goes(cfg, s0, s')
  {
    hide Inv, Enabled, Holds, Run, Leads;
    s' := Apply(s, n, Run(cfg, s, n, e));
    EventKeepsInv(cfg, s, n, e);
    assert StepBy(cfg, s, s', n, e);
    assert GuardedStep(cfg, s, s');
    LeadsOn(cfg, s0, s, s');
  }

  lemma MayDeliver(cfg: Config, s: Sys, n: NodeId, m: Message)
    requires Wf(cfg, s) && n in cfg.nodes && n in s.nodes && m in s.sent && Addressed(m, n)
    requires m.from in cfg.nodes && m.inst == s.nodes[n].inst && ChecksumLogic(s.nodes[n], m) == Some(s.nodes[n])
    requires m.Prepare? || m.Accept? || m.PrepareReply? || m.AcceptReply?
    ensures Enabled(cfg, s, n, EvDeliver(m)) && Permitted(cfg, s, n, EvDeliver(m))
    ensures Run(cfg, s, n, EvDeliver(m)) ==
      if m.Prepare? || m.Accept? then OnRequest(cfg, s.nodes[n], m) else OnReply(cfg, s.nodes[n], m)
  {
    hide OnRequest, OnReply, ChecksumLogic;
  }

  /** A message of the present instance is delivered. */
  lemma Deliver(cfg: Config, s0: Sys, s: Sys, n: NodeId, m: Message) returns (s': Sys)
    requires Goes(cfg, s0, s) && n in cfg.nodes && n in s.nodes && m in s.sent && Addressed(m, n)
    requires m.from in cfg.nodes && m.inst == s.nodes[n].inst
    requires m.Prepare? || m.Accept? || m.PrepareReply? || m.AcceptReply?
    ensures Goes(cfg, s0, s') && s' == Apply(s, n,
      if m.Prepare? || m.Accept? then OnRequest(cfg, s.nodes[n], m) else OnReply(cfg, s.nodes[n], m))
  {
    hide *;
    assert Inv(cfg, s) by { GoesInv(cfg, s0, s); }
    InvAt(cfg, s, n);
    ChecksumSilent(cfg, s, n, m);
    MayDeliver(cfg, s, n, m);
    s' := Go(cfg, s0, s, n, EvDeliver(m));
  }

  lemma GoesInv(cfg: Config, s0: Sys, s: Sys)
    requires Goes(cfg, s0, s)
    ensures Inv(cfg, s)
  {
  }

  // ---------------------------------------------------------------- one node

  lemma GrantsPrepare(cfg: Config, node: Node, m: Message)
    requires m.Prepare? && m.inst == node.inst && Ballot(m.id, m.from).AtLeast(node.acc.promise)
    ensures var o := OnRequest(cfg, node, m);
      && o.node.me == node.me && o.node.inst == node.inst && o.node.prop == node.prop
      && o.node.acc.promise == Ballot(m.id, m.from) && o.node.acc.accepted == node.acc.accepted
      && PrepareReply(node.inst, node.me, m.from, m.id, 0, node.acc.accepted,
                      if node.acc.accepted.id > 0 then node.acc.value else []) in o.fx.msgs
  {
  }

  lemma GrantsAccept(cfg: Config, node: Node, m: Message)
    requires m.Accept? && m.inst == node.inst && Ballot(m.id, m.from).AtLeast(node.acc.promise)
    ensures var o := OnRequest(cfg, node, m);
      && o.node.me == node.me && o.node.inst == node.inst && o.node.prop == node.prop
      && o.node.acc.promise == Ballot(m.id, m.from)
      && AcceptReply(node.inst, node.me, m.from, m.id, 0) in o.fx.msgs
  {
  }

  /** `x` is one instance further than `node`, with the same right to leave Prepare out. */
  predicate MovedOn(node: Node, x: Node) {
    && x.me == node.me && x.inst == node.inst + 1 && x.prop.id == node.prop.id
    && x.prop.canSkip == node.prop.canSkip && x.prop.wasRejected == node.prop.wasRejected
  }

  /** The own acceptor votes first; alone it decides only in a group of one. */
  lemma AcceptStarts(cfg: Config, nd: Node)
    requires Ballot(nd.prop.id, nd.me).AtLeast(nd.acc.promise) && nd.prop.id > 0
    ensures var o := StartAcceptRound(cfg, nd);
      && AcceptMsg(nd) in o.fx.msgs
      && (MajorityCount(cfg) == 1 ==> Learned(nd.me, nd.inst, nd.prop.value) in o.fx.learned && MovedOn(nd, o.node))
      && (MajorityCount(cfg) > 1 ==>
            && o.node.me == nd.me && o.node.inst == nd.inst && o.node.prop.accepting && o.node.prop.id == nd.prop.id
            && o.node.prop.canSkip == nd.prop.canSkip && o.node.prop.wasRejected == nd.prop.wasRejected
            && o.node.prop.counter.granted == {nd.me}
            && o.node.acc.promise == Ballot(nd.prop.id, nd.me) && o.node.acc.accepted == Ballot(nd.prop.id, nd.me)
            && o.node.acc.value == nd.prop.value)
  {
    AcceptRoundParts(cfg, nd);
    OwnVote(cfg, nd);
    hide StartAcceptRound, AcceptPart, Succeed;
    var o := AcceptPart(cfg, nd);
    if MajorityCount(cfg) == 1 {
      SuccessLearns(o.node);
    }
  }

  lemma OwnVote(cfg: Config, nd: Node)
    requires Ballot(nd.prop.id, nd.me).AtLeast(nd.acc.promise) && nd.prop.id > 0
    ensures var o := AcceptPart(cfg, nd);
      && AcceptMsg(nd) in o.fx.msgs
      && o.node.me == nd.me && o.node.inst == nd.inst && o.node.prop.accepting && o.node.prop.id == nd.prop.id
      && o.node.prop.counter.granted == {nd.me} && |o.node.prop.counter.granted| == 1
      && o.node.prop.canSkip == nd.prop.canSkip && o.node.prop.wasRejected == nd.prop.wasRejected
      && o.node.acc.promise == Ballot(nd.prop.id, nd.me) && o.node.acc.accepted == Ballot(nd.prop.id, nd.me)
      && o.node.acc.value == nd.prop.value
  {
    assert {} + {nd.me} == {nd.me};
  }

  lemma SuccessLearns(node: Node)
    requires node.acc.accepted == Ballot(node.prop.id, node.me) && node.prop.id > 0
    ensures Learned(node.me, node.inst, node.acc.value) in Succeed(node).fx.learned && MovedOn(node, Succeed(node).node)
  {
  }

  lemma CountsVote(cfg: Config, node: Node, m: Message)
    requires m.AcceptReply? && m.rejectBy == 0 && m.inst == node.inst && node.prop.accepting && m.id == node.prop.id > 0
    requires node.acc.accepted == Ballot(m.id, node.me)
    ensures var o := OnReply(cfg, node, m);
      var g := node.prop.counter.granted + {m.from};
      if |g| >= MajorityCount(cfg) then Learned(node.me, node.inst, node.acc.value) in o.fx.learned && MovedOn(node, o.node)
      else o == Quiet(RecordAcceptReply(node, m.from, 0)) && o.node.prop.counter.granted == g
  {
  }

  lemma CountsPromise(cfg: Config, node: Node, m: Message)
    requires m.PrepareReply? && m.rejectBy == 0 && m.inst == node.inst && node.prop.preparing && m.id == node.prop.id
    ensures var o := OnReply(cfg, node, m);
      var n1 := RecordPrepareReply(node, m.from, 0, m.pre, m.value);
      && n1.prop.counter.granted == node.prop.counter.granted + {m.from}
      && o == if |n1.prop.counter.granted| >= MajorityCount(cfg)
              then Then(Quiet(n1), StartAcceptRound(cfg, Skippable(n1))) else Quiet(n1)
  {
    PrepareReplyParts(cfg, node, m.from, 0, m.pre, m.value);
    hide StartAcceptRound;
  }

  // ---------------------------------------------------------------- the nodes within reach

  /** `a` is in the instance and has promised nothing above the ballot. */
  predicate Ready(s: Sys, a: NodeId, i: nat, b: Ballot) {
    a in s.nodes && s.nodes[a].inst == i && b.AtLeast(s.nodes[a].acc.promise)
  }

  predicate AllReady(s: Sys, order: seq<NodeId>, i: nat, b: Ballot) {
    forall k :: 0 <= k < |order| ==> Ready(s, order[k], i, b)
  }

  predicate Others(cfg: Config, n: NodeId, order: seq<NodeId>) {
    && (forall k :: 0 <= k < |order| ==> order[k] in cfg.nodes && order[k] != n)
    && forall j, k :: 0 <= j < k < |order| ==> order[j] != order[k]
  }

  /** None of them has accepted anything in its instance. */
  predicate Unvoted(s: Sys, order: seq<NodeId>) {
    forall k :: 0 <= k < |order| ==> order[k] in s.nodes && s.nodes[order[k]].acc.accepted.id == 0
  }

  /** `n` prepares its ballot in instance `i`; all in `g` have promised. */
  predicate Preparing(s: Sys, n: NodeId, i: nat, b: Ballot, g: set<NodeId>, v: Value) {
    && b.node == n && b.id > 0 && n in s.nodes && Prepare(i, n, b.id) in s.sent
    && var x := s.nodes[n];
       && x.me == n && x.inst == i && x.acc.promise == b
       && x.prop.preparing && x.prop.id == b.id && x.prop.counter.granted == g && x.prop.value == v
       && !x.prop.wasRejected
  }

  /** `n` has sent Accept; all in `g` have voted. */
  predicate Accepting(s: Sys, n: NodeId, i: nat, b: Ballot, g: set<NodeId>, v: Value, chk: nat) {
    && b.node == n && b.id > 0 && n in s.nodes && Accept(i, n, b.id, v, chk) in s.sent
    && var x := s.nodes[n];
       && x.me == n && x.inst == i && x.acc.promise == b && x.acc.accepted == b && x.acc.value == v
       && x.prop.accepting && x.prop.id == b.id && x.prop.counter.granted == g
       && x.prop.canSkip && !x.prop.wasRejected
  }

  /** `n` has executed `v` in instance `i`, and holds the right to leave Prepare out in the next. */
  predicate Executed(s: Sys, n: NodeId, i: nat, v: Value, id: nat) {
    && Learned(n, i, v) in s.learned && n in s.nodes
    && var x := s.nodes[n];
       x.me == n && x.inst == i + 1 && x.prop.id == id && x.prop.canSkip && !x.prop.wasRejected
  }

  lemma MoreGranted(g: set<NodeId>, a: NodeId)
    requires a !in g
    ensures |g + {a}| == |g| + 1
  {
  }

  // ---------------------------------------------------------------- the accept phase

  predicate OnlyMoved(s: Sys, s': Sys, n: NodeId) {
    s'.nodes.Keys == s.nodes.Keys && forall k :: k in s.nodes && k != n ==> s'.nodes[k] == s.nodes[k]
  }

  /** The Accept reaches `a`, which votes. */
  lemma TellAccept(cfg: Config, s0: Sys, s: Sys, n: NodeId, i: nat, b: Ballot, g: set<NodeId>, v: Value, chk: nat, a: NodeId)
    returns (s': Sys)
    requires Goes(cfg, s0, s) && Wf(cfg, s) && n in cfg.nodes && Accepting(s, n, i, b, g, v, chk)
    requires a in cfg.nodes && a != n && Ready(s, a, i, b)
    ensures Goes(cfg, s0, s') && Wf(cfg, s') && Accepting(s', n, i, b, g, v, chk) && OnlyMoved(s, s', a)
    ensures AcceptReply(i, a, n, b.id, 0) in s'.sent
  {
    hide Goes, OnRequest, OnReply;
    assert s.nodes[a].me == a;
    GrantsAccept(cfg, s.nodes[a], Accept(i, n, b.id, v, chk));
    s' := Deliver(cfg, s0, s, a, Accept(i, n, b.id, v, chk));
  }

  /** A vote is counted; the one that makes the majority executes the value. */
  lemma HearVote(cfg: Config, s0: Sys, s: Sys, n: NodeId, i: nat, b: Ballot, g: set<NodeId>, v: Value, chk: nat, a: NodeId)
    returns (s': Sys)
    requires Goes(cfg, s0, s) && Wf(cfg, s) && n in cfg.nodes && Accepting(s, n, i, b, g, v, chk)
    requires a in cfg.nodes && a != n && a !in g && AcceptReply(i, a, n, b.id, 0) in s.sent
    ensures Goes(cfg, s0, s') && Wf(cfg, s') && OnlyMoved(s, s', n)
    ensures if |g| + 1 >= MajorityCount(cfg) then Executed(s', n, i, v, b.id)
            else Accepting(s', n, i, b, g + {a}, v, chk)
  {
    hide Goes, OnReply, MajorityCount, RecordAcceptReply;
    CountsVote(cfg, s.nodes[n], AcceptReply(i, a, n, b.id, 0));
    MoreGranted(g, a);
    RecordKeeps(s.nodes[n], a);
    s' := Deliver(cfg, s0, s, n, AcceptReply(i, a, n, b.id, 0));
    GoesWf(cfg, s0, s');
  }

  lemma RestReady(cfg: Config, s: Sys, s1: Sys, s': Sys, a: NodeId, n: NodeId, order: seq<NodeId>, i: nat, b: Ballot)
    requires OnlyMoved(s, s1, a) && OnlyMoved(s1, s', n) && order != [] && order[0] == a && Others(cfg, n, order)
    requires AllReady(s, order, i, b)
    ensures AllReady(s', order[1..], i, b)
  {
    forall k | 0 <= k < |order[1..]|
      ensures Ready(s', order[1..][k], i, b)
    {
      assert order[1..][k] == order[k + 1] && Ready(s, order[k + 1], i, b);
    }
  }

  /** The next node is told, votes, and its vote is counted. */
  lemma OneVote(cfg: Config, s0: Sys, s: Sys, n: NodeId, i: nat, b: Ballot, g: set<NodeId>, v: Value, chk: nat,
                order: seq<NodeId>) returns (s': Sys)
    requires Goes(cfg, s0, s) && n in cfg.nodes && Accepting(s, n, i, b, g, v, chk)
    requires order != [] && Others(cfg, n, order) && AllReady(s, order, i, b) && order[0] !in g && Wf(cfg, s)
    ensures Goes(cfg, s0, s')
    ensures if |g| + 1 >= MajorityCount(cfg) then Executed(s', n, i, v, b.id)
            else Accepting(s', n, i, b, g + {order[0]}, v, chk) && AllReady(s', order[1..], i, b) && Wf(cfg, s')
  {
    hide Goes, MajorityCount, Accepting, OnlyMoved;
    var a := order[0];
    assert Ready(s, a, i, b);
    var s1 := TellAccept(cfg, s0, s, n, i, b, g, v, chk, a);
    s' := HearVote(cfg, s0, s1, n, i, b, g, v, chk, a);
    RestReady(cfg, s, s1, s', a, n, order, i, b);
  }

  lemma RecordKeeps(node: Node, a: NodeId)
    ensures var n1 := RecordAcceptReply(node, a, 0);
      && n1 == node.(prop := n1.prop) && n1.prop.accepting == node.prop.accepting && n1.prop.id == node.prop.id
      && n1.prop.canSkip == node.prop.canSkip && n1.prop.wasRejected == node.prop.wasRejected
  {
  }

  lemma RestOthers(cfg: Config, n: NodeId, order: seq<NodeId>, g: set<NodeId>)
    requires order != [] && Others(cfg, n, order) && forall k :: 0 <= k < |order| ==> order[k] !in g
    ensures Others(cfg, n, order[1..]) && forall k :: 0 <= k < |order[1..]| ==> order[1..][k] !in g + {order[0]}
  {
    forall k | 0 <= k < |order[1..]|
      ensures order[1..][k] !in g + {order[0]}
    {
      assert order[1..][k] == order[k + 1];
    }
  }

  /** With a majority within reach the value of the Accept is executed. */
  lemma {:induction false} AcceptPhase(cfg: Config, s0: Sys, s: Sys, n: NodeId, i: nat, b: Ballot, g: set<NodeId>, v: Value,
                                       chk: nat, order: seq<NodeId>) returns (s': Sys)
    requires Goes(cfg, s0, s) && Wf(cfg, s) && n in cfg.nodes && Accepting(s, n, i, b, g, v, chk)
    requires Others(cfg, n, order) && AllReady(s, order, i, b) && forall k :: 0 <= k < |order| ==> order[k] !in g
    requires |g| < MajorityCount(cfg) == |g| + |order|
    ensures Goes(cfg, s0, s') && Executed(s', n, i, v, b.id)
    decreases |order|
  {
    hide *;
    RestOthers(cfg, n, order, g);
    MoreGranted(g, order[0]);
    s' := OneVote(cfg, s0, s, n, i, b, g, v, chk, order);
    if |g| + 1 < MajorityCount(cfg) {
      s' := AcceptPhase(cfg, s0, s', n, i, b, g + {order[0]}, v, chk, order[1..]);
    }
  }

  // ---------------------------------------------------------------- the prepare phase

  /** What a counted promise makes of the value in hand. */
  lemma PromiseKeeps(node: Node, m: Message)
    requires m.PrepareReply?
    ensures var n1 := RecordPrepareReply(node, m.from, 0, m.pre, m.value);
      && n1 == node.(prop := n1.prop) && n1.prop.preparing == node.prop.preparing && n1.prop.id == node.prop.id
      && n1.prop.wasRejected == node.prop.wasRejected
      && (m.pre.id == 0 ==> n1.prop.value == node.prop.value)
  {
  }

  /** Only `a` and `n` have moved, and `a` has promised the ballot. */
  predicate OnlyPromised(s: Sys, s': Sys, a: NodeId, n: NodeId, i: nat, b: Ballot) {
    && (forall k :: k in s.nodes && k != a && k != n ==> k in s'.nodes && s'.nodes[k] == s.nodes[k])
    && a in s.nodes && a in s'.nodes && s'.nodes[a].inst == i && s'.nodes[a].acc.promise == b
    && s'.nodes[a].acc.accepted == s.nodes[a].acc.accepted
  }

  lemma StillReady(cfg: Config, s: Sys, s': Sys, a: NodeId, n: NodeId, order: seq<NodeId>, i: nat, b: Ballot)
    requires OnlyPromised(s, s', a, n, i, b) && Others(cfg, n, order) && AllReady(s, order, i, b)
    ensures AllReady(s', order, i, b) && (order != [] ==> AllReady(s', order[1..], i, b))
  {
    forall k | 0 <= k < |order|
      ensures Ready(s', order[k], i, b)
    {
      assert Ready(s, order[k], i, b);
    }
    if order != [] {
      assert forall k :: 0 <= k < |order[1..]| ==> order[1..][k] == order[k + 1];
    }
  }

  lemma StillUnvoted(cfg: Config, s: Sys, s': Sys, a: NodeId, n: NodeId, order: seq<NodeId>, i: nat, b: Ballot)
    requires OnlyPromised(s, s', a, n, i, b)
    requires order != [] && Others(cfg, n, order) && Unvoted(s, order)
    ensures Unvoted(s', order[1..])
  {
    forall k | 0 <= k < |order[1..]|
      ensures order[1..][k] in s'.nodes && s'.nodes[order[1..][k]].acc.accepted.id == 0
    {
      assert order[1..][k] == order[k + 1];
    }
  }

  /** The Prepare reaches `a`, which promises and reports what it has accepted. */
  lemma TellPrepare(cfg: Config, s0: Sys, s: Sys, n: NodeId, i: nat, b: Ballot, g: set<NodeId>, v: Value, a: NodeId)
    returns (s': Sys, pre: Ballot, pv: Value)
    requires Goes(cfg, s0, s) && Wf(cfg, s) && n in cfg.nodes && Preparing(s, n, i, b, g, v)
    requires a in cfg.nodes && a != n && Ready(s, a, i, b)
    ensures Goes(cfg, s0, s') && Wf(cfg, s') && Preparing(s', n, i, b, g, v) && OnlyPromised(s, s', a, n, i, b)
    ensures s'.nodes[n] == s.nodes[n] && pre == s.nodes[a].acc.accepted && PrepareReply(i, a, n, b.id, 0, pre, pv) in s'.sent
  {
    hide Goes, OnRequest, OnReply;
    var x := s.nodes[a];
    assert x.me == a;
    GrantsPrepare(cfg, x, Prepare(i, n, b.id));
    s' := Deliver(cfg, s0, s, a, Prepare(i, n, b.id));
    pre, pv := x.acc.accepted, if x.acc.accepted.id > 0 then x.acc.value else [];
  }

  /** A promise is counted; the one that makes the majority lets the Accept go out. */
  lemma HearPromise(cfg: Config, s0: Sys, s: Sys, n: NodeId, i: nat, b: Ballot, g: set<NodeId>, v: Value,
                    a: NodeId, pre: Ballot, pv: Value) returns (s': Sys, v': Value, chk: nat)
    requires Goes(cfg, s0, s) && Wf(cfg, s) && n in cfg.nodes && Preparing(s, n, i, b, g, v)
    requires a in cfg.nodes && a != n && a !in g && PrepareReply(i, a, n, b.id, 0, pre, pv) in s.sent
    requires MajorityCount(cfg) > 1
    ensures Goes(cfg, s0, s') && Wf(cfg, s') && OnlyMoved(s, s', n) && (pre.id == 0 ==> v' == v)
    ensures if |g| + 1 >= MajorityCount(cfg) then Accepting(s', n, i, b, {n}, v', chk)
            else Preparing(s', n, i, b, g + {a}, v')
  {
    hide Goes, OnReply, MajorityCount, RecordPrepareReply, StartAcceptRound;
    var reply := PrepareReply(i, a, n, b.id, 0, pre, pv);
    CountsPromise(cfg, s.nodes[n], reply);
    PromiseKeeps(s.nodes[n], reply);
    MoreGranted(g, a);
    s' := Deliver(cfg, s0, s, n, reply);
    var nd := Skippable(RecordPrepareReply(s.nodes[n], a, 0, pre, pv));
    AcceptStarts(cfg, nd);
    v', chk := nd.prop.value, nd.lastChk;
  }

  lemma PromisedThenMoved(s: Sys, s1: Sys, s': Sys, a: NodeId, n: NodeId, i: nat, b: Ballot)
    requires OnlyPromised(s, s1, a, n, i, b) && OnlyMoved(s1, s', n) && a != n
    ensures OnlyPromised(s, s', a, n, i, b)
  {
  }

  /** The next node promises, and its promise is counted. */
  lemma OnePromise(cfg: Config, s0: Sys, s: Sys, n: NodeId, i: nat, b: Ballot, g: set<NodeId>, v: Value,
                   order: seq<NodeId>, later: seq<NodeId>) returns (s': Sys, v': Value, chk: nat)
    requires Goes(cfg, s0, s) && Wf(cfg, s) && n in cfg.nodes && Preparing(s, n, i, b, g, v)
    requires order != [] && Others(cfg, n, order) && AllReady(s, order, i, b) && order[0] !in g
    requires Others(cfg, n, later) && AllReady(s, later, i, b) && MajorityCount(cfg) > 1
    ensures Goes(cfg, s0, s') && Wf(cfg, s') && AllReady(s', later, i, b) && AllReady(s', order[1..], i, b)
    ensures if |g| + 1 >= MajorityCount(cfg) then Accepting(s', n, i, b, {n}, v', chk)
            else Preparing(s', n, i, b, g + {order[0]}, v')
    ensures Unvoted(s, order) ==> v' == v && Unvoted(s', order[1..])
  {
    hide Goes, MajorityCount, Preparing, Accepting, OnlyPromised, OnlyMoved;
    var a := order[0];
    assert Ready(s, a, i, b);
    var s1, pre, pv := TellPrepare(cfg, s0, s, n, i, b, g, v, a);
    s', v', chk := HearPromise(cfg, s0, s1, n, i, b, g, v, a, pre, pv);
    PromisedThenMoved(s, s1, s', a, n, i, b);
    StillReady(cfg, s, s', a, n, later, i, b);
    StillReady(cfg, s, s', a, n, order, i, b);
    if Unvoted(s, order) {
      StillUnvoted(cfg, s, s', a, n, order, i, b);
    }
  }

  /** With a majority within reach the Prepare gets through, and then the Accept. */
  lemma {:induction false} PreparePhase(cfg: Config, s0: Sys, s: Sys, n: NodeId, i: nat, b: Ballot, g: set<NodeId>, v: Value,
                                        order: seq<NodeId>, later: seq<NodeId>) returns (s': Sys, v': Value)
    requires Goes(cfg, s0, s) && Wf(cfg, s) && n in cfg.nodes && Preparing(s, n, i, b, g, v)
    requires Others(cfg, n, order) && AllReady(s, order, i, b) && forall k :: 0 <= k < |order| ==> order[k] !in g
    requires Others(cfg, n, later) && AllReady(s, later, i, b) && |later| + 1 == MajorityCount(cfg)
    requires |g| < MajorityCount(cfg) == |g| + |order| && MajorityCount(cfg) > 1
    ensures Goes(cfg, s0, s') && Executed(s', n, i, v', b.id) && (Unvoted(s, order) ==> v' == v)
    decreases |order|
  {
    hide *;
    RestOthers(cfg, n, order, g);
    MoreGranted(g, order[0]);
    var s1, v1, chk := OnePromise(cfg, s0, s, n, i, b, g, v, order, later);
    if |g| + 1 < MajorityCount(cfg) {
      s', v' := PreparePhase(cfg, s0, s1, n, i, b, g + {order[0]}, v1, order[1..], later);
    } else {
      v' := v1;
      assert |{n}| == 1;
      NotAmong(cfg, n, later);
      s' := AcceptPhase(cfg, s0, s1, n, i, b, {n}, v1, chk, later);
    }
  }

  lemma NotAmong(cfg: Config, n: NodeId, order: seq<NodeId>)
    requires Others(cfg, n, order)
    ensures forall k :: 0 <= k < |order| ==> order[k] !in {n}
  {
  }

  // ---------------------------------------------------------------- whole rounds

  /** The ballot of the next round: the old one, or after a rejection one above every id it knows of. */
  function NextBallot(x: Node): Ballot {
    Ballot(if !x.prop.wasRejected then x.prop.id
           else if x.prop.id > x.prop.highestOther then x.prop.id + 1 else x.prop.highestOther + 1, x.me)
  }

  /** Together with `n` these nodes are a majority, and `b` is high enough for them. */
  predicate WithinReach(cfg: Config, s: Sys, n: NodeId, order: seq<NodeId>, i: nat, b: Ballot) {
    Others(cfg, n, order) && AllReady(s, order, i, b) && |order| + 1 == MajorityCount(cfg)
  }

  /** The next value goes out as one Accept of the ballot `id`, without a Prepare. */
  ghost predicate SendsAtOnce(cfg: Config, x: Node, id: nat) {
    forall w :: w != [] ==> OnlyAccepts(NewValue(cfg, x, w), x, id)
  }

  predicate OnlyAccepts(o: Out, x: Node, id: nat) {
    && (forall m :: m in o.fx.msgs ==> !m.Prepare?)
    && exists m :: m in o.fx.msgs && m.Accept? && m.inst == x.inst && m.from == x.me && m.id == id
  }

  /**
   * Some guarded run goes on from `s` to where `n` has executed `v` in instance `i`, and
   * proposes the next value without a Prepare.
   */
  ghost predicate CanExecute(cfg: Config, s: Sys, n: NodeId, i: nat, v: Value, id: nat) {
    exists s' ::
      && Leads(cfg, s, s') && Learned(n, i, v) in s'.learned
      && n in s'.nodes && s'.nodes[n].inst == i + 1 && SendsAtOnce(cfg, s'.nodes[n], id)
  }

  /** What the own acceptor makes of the value in hand. */
  function Adopted(x: Node): Value {
    if x.acc.accepted.id > 0 then x.acc.value else x.prop.value
  }

  lemma RoundStarts(cfg: Config, s: Sys, n: NodeId, nd: Node)
    requires n in s.nodes && n in cfg.nodes && Wf(cfg, s) && nd.me == n && nd.acc == s.nodes[n].acc && nd.prop.id > 0
    requires NextBallot(nd).AtLeast(nd.acc.promise)
    ensures var s' := Apply(s, n, StartPrepareRound(cfg, nd, nd.prop.wasRejected));
      && OnlyMoved(s, s', n)
      && (MajorityCount(cfg) == 1 ==> Executed(s', n, nd.inst, Adopted(nd), NextBallot(nd).id))
      && (MajorityCount(cfg) > 1 ==> Preparing(s', n, nd.inst, NextBallot(nd), {n}, Adopted(nd)))
  {
    hide StartPrepareRound, PreparePart, StartAcceptRound, StartPrepare, MajorityCount;
    var o := PreparePart(cfg, nd, nd.prop.wasRejected);
    PrepareRoundParts(cfg, nd, nd.prop.wasRejected);
    PrepareStarts(cfg, n, nd);
    assert |{n}| == 1;
    if MajorityCount(cfg) == 1 {
      AcceptStarts(cfg, Skippable(o.node));
    }
  }

  /** The own acceptor promises first. */
  lemma PrepareStarts(cfg: Config, n: NodeId, nd: Node)
    requires nd.me == n && nd.prop.id > 0 && NextBallot(nd).AtLeast(nd.acc.promise)
    ensures var o := PreparePart(cfg, nd, nd.prop.wasRejected);
      var b := NextBallot(nd);
      && b.node == n && b.id > 0 && Prepare(nd.inst, n, b.id) in o.fx.msgs
      && o.node.me == n && o.node.inst == nd.inst && o.node.acc.promise == b
      && o.node.prop.preparing && o.node.prop.id == b.id && o.node.prop.counter.granted == {n}
      && !o.node.prop.wasRejected
      && o.node.prop.value == Adopted(nd)
      && (Adopted(nd) == nd.acc.value || nd.acc.accepted.id == 0)
  {
    assert {} + {n} == {n};
  }

  lemma OnlyMovedReady(cfg: Config, s: Sys, s': Sys, n: NodeId, order: seq<NodeId>, i: nat, b: Ballot)
    requires OnlyMoved(s, s', n) && WithinReach(cfg, s, n, order, i, b)
    ensures WithinReach(cfg, s', n, order, i, b) && (Unvoted(s, order) ==> Unvoted(s', order))
  {
    forall k | 0 <= k < |order|
      ensures Ready(s', order[k], i, b)
    {
      assert Ready(s, order[k], i, b);
    }
  }

  /** Once a Prepare round has begun. */
  lemma RoundEnds(cfg: Config, s: Sys, s': Sys, n: NodeId, nd: Node, order: seq<NodeId>, later: seq<NodeId>) returns (v: Value)
    requires Goes(cfg, s, s') && Wf(cfg, s) && Wf(cfg, s') && n in s.nodes && n in cfg.nodes
    requires s' == Apply(s, n, StartPrepareRound(cfg, nd, nd.prop.wasRejected))
    requires nd.me == n && nd.acc == s.nodes[n].acc && nd.prop.id > 0 && NextBallot(nd).AtLeast(nd.acc.promise)
    requires WithinReach(cfg, s, n, order, nd.inst, NextBallot(nd)) && WithinReach(cfg, s, n, later, nd.inst, NextBallot(nd))
    ensures CanExecute(cfg, s, n, nd.inst, v, NextBallot(nd).id) && (Unvoted(s, order) ==> v == Adopted(nd))
  {
    hide *;
    var i, b := nd.inst, NextBallot(nd);
    RoundStarts(cfg, s, n, nd);
    OnlyMovedReady(cfg, s, s', n, order, i, b);
    OnlyMovedReady(cfg, s, s', n, later, i, b);
    ReachParts(cfg, s', n, order, i, b);
    ReachParts(cfg, s', n, later, i, b);
    assert |{n}| == 1;
    v := Adopted(nd);
    var t := s';
    if MajorityCount(cfg) > 1 {
      t, v := PreparePhase(cfg, s, s', n, i, b, {n}, v, order, later);
    }
    Executes(cfg, s, t, n, i, v, b.id);
  }

  lemma ReachParts(cfg: Config, s: Sys, n: NodeId, order: seq<NodeId>, i: nat, b: Ballot)
    requires WithinReach(cfg, s, n, order, i, b)
    ensures Others(cfg, n, order) && AllReady(s, order, i, b) && |order| + 1 == MajorityCount(cfg) && MajorityCount(cfg) >= 1
    ensures forall k :: 0 <= k < |order| ==> order[k] !in {n}
  {
    NotAmong(cfg, n, order);
  }

  lemma Executes(cfg: Config, s: Sys, s': Sys, n: NodeId, i: nat, v: Value, id: nat)
    requires Goes(cfg, s, s') && Executed(s', n, i, v, id)
    ensures CanExecute(cfg, s, n, i, v, id)
  {
    hide OnlyAccepts, NewValue, Inv, Leads;
    forall w | w != []
      ensures OnlyAccepts(NewValue(cfg, s'.nodes[n], w), s'.nodes[n], id)
    {
      GoesAtOnce(cfg, s'.nodes[n], w);
    }
  }

  lemma GoesAtOnce(cfg: Config, x: Node, w: Value)
    requires x.prop.canSkip && !x.prop.wasRejected
    ensures OnlyAccepts(NewValue(cfg, x, w), x, x.prop.id)
  {
    hide StartAcceptRound, StartPrepareRound;
    var x1 := OfferValue(x, w);
    NoPrepares(cfg, x1);
    AcceptGoesOut(cfg, x1);
    assert AcceptMsg(x1) in NewValue(cfg, x, w).fx.msgs;
  }

  lemma AcceptGoesOut(cfg: Config, nd: Node)
    ensures AcceptMsg(nd) in StartAcceptRound(cfg, nd).fx.msgs
  {
  }

  lemma RunEnds(cfg: Config, r: seq<Sys>, n: NodeId)
    requires GuardedRun(cfg, r) && n in cfg.nodes
    ensures var s := r[|r| - 1];
      Goes(cfg, s, s) && Wf(cfg, s) && n in s.nodes && s.nodes[n].me == n && s.nodes[n].prop.id > 0
  {
    hide GlobalInv, StoreInv, PropInv, Leads, IdInv;
    RunKeepsInv(cfg, r, |r| - 1);
    var s := r[|r| - 1];
    LeadsNowhere(cfg, s);
    InvAt(cfg, s, n);
    PositiveId(cfg, s, n);
  }

  lemma PositiveId(cfg: Config, s: Sys, n: NodeId)
    requires Wf(cfg, s) && n in cfg.nodes && IdInv(s, n, s.nodes[n])
    ensures s.nodes[n].prop.id > 0
  {
  }

  /** The next ballot is high enough for the own acceptor, so the guard on preparing again holds. */
  lemma MayStart(cfg: Config, s: Sys, n: NodeId, e: Event)
    requires Wf(cfg, s) && n in s.nodes && n in cfg.nodes && NextBallot(s.nodes[n]).AtLeast(s.nodes[n].acc.promise)
    requires if e.EvNewValue? then e.value != [] else e.EvTimeout? && (s.nodes[n].prop.preparing || s.nodes[n].prop.accepting)
    ensures Enabled(cfg, s, n, e) && Permitted(cfg, s, n, e)
    ensures Run(cfg, s, n, e) == if e.EvNewValue? then NewValue(cfg, s.nodes[n], e.value) else OnTimeout(cfg, s.nodes[n])
  {
    hide NewValue, OnTimeout;
  }

  /**
   * The timer fires at a proposer whose next ballot is high enough for a majority in its
   * instance: with that majority's messages delivered the round ends in an execution, and
   * if none of them had accepted anything, of the proposer's own value.
   */
  lemma TimeoutGetsThrough(cfg: Config, r: seq<Sys>, n: NodeId, order: seq<NodeId>, later: seq<NodeId>) returns (v: Value)
    requires |r| > 0 && GuardedRun(cfg, r) && n in cfg.nodes && n in r[|r| - 1].nodes
    requires var x := r[|r| - 1].nodes[n];
      && (x.prop.preparing || x.prop.accepting)
      && NextBallot(x).AtLeast(x.acc.promise)
      && WithinReach(cfg, r[|r| - 1], n, order, x.inst, NextBallot(x))
      && WithinReach(cfg, r[|r| - 1], n, later, x.inst, NextBallot(x))
    ensures var s := r[|r| - 1];
      && CanExecute(cfg, s, n, s.nodes[n].inst, v, NextBallot(s.nodes[n]).id)
      && (Unvoted(s, order) && s.nodes[n].acc.accepted.id == 0 ==> v == s.nodes[n].prop.value)
  {
    hide *;
    var s := r[|r| - 1];
    var x := s.nodes[n];
    RunEnds(cfg, r, n);
    MayStart(cfg, s, n, EvTimeout);
    TimersLive(cfg, r, |r| - 1, n);
    TimeoutStarts(cfg, x);
    var s' := Go(cfg, s, s, n, EvTimeout);
    GoesWf(cfg, s, s');
    v := RoundEnds(cfg, s, s', n, x, order, later);
    AdoptsOwn(x);
  }

  lemma TimeoutStarts(cfg: Config, x: Node)
    requires Live(x) && (x.prop.preparing || x.prop.accepting)
    ensures OnTimeout(cfg, x) == StartPrepareRound(cfg, x, x.prop.wasRejected)
  {
    hide StartPrepareRound;
  }

  lemma AdoptsOwn(x: Node)
    ensures x.acc.accepted.id == 0 ==> Adopted(x) == x.prop.value
  {
  }

  lemma GoesWf(cfg: Config, s0: Sys, s: Sys)
    requires Goes(cfg, s0, s)
    ensures Wf(cfg, s)
  {
  }

  /** The same for a new value: it goes out with or without a Prepare round. */
  lemma NewValueGetsThrough(cfg: Config, r: seq<Sys>, n: NodeId, value: Value, order: seq<NodeId>, later: seq<NodeId>)
    returns (v: Value)
    requires |r| > 0 && GuardedRun(cfg, r) && n in cfg.nodes && n in r[|r| - 1].nodes && value != []
    requires var x := r[|r| - 1].nodes[n];
      && NextBallot(x).AtLeast(x.acc.promise)
      && WithinReach(cfg, r[|r| - 1], n, order, x.inst, NextBallot(x))
      && WithinReach(cfg, r[|r| - 1], n, later, x.inst, NextBallot(x))
    ensures var s := r[|r| - 1];
      && CanExecute(cfg, s, n, s.nodes[n].inst, v, NextBallot(s.nodes[n]).id)
      && (Unvoted(s, order) && s.nodes[n].acc.accepted.id == 0 ==>
            v == if s.nodes[n].prop.value == [] then value else s.nodes[n].prop.value)
  {
    hide *;
    var s := r[|r| - 1];
    var x := s.nodes[n];
    var x1 := OfferValue(x, value);
    RunEnds(cfg, r, n);
    MayStart(cfg, s, n, EvNewValue(value));
    OfferShape(x, value);
    NewValueStarts(cfg, x, value);
    var s' := Go(cfg, s, s, n, EvNewValue(value));
    GoesWf(cfg, s, s');
    AdoptsOwn(x1);
    if x.prop.canSkip && !x.prop.wasRejected {
      v := x1.prop.value;
      SkipEnds(cfg, s, s', n, x1, later);
    } else {
      v := RoundEnds(cfg, s, s', n, x1, order, later);
    }
  }

  lemma OfferShape(x: Node, value: Value)
    ensures var x1 := OfferValue(x, value);
      && x1 == x.(prop := x1.prop) && x1.prop.id == x.prop.id && NextBallot(x1) == NextBallot(x)
      && x1.prop.wasRejected == x.prop.wasRejected && x1.prop.canSkip == x.prop.canSkip
      && x1.prop.value == if x.prop.value == [] then value else x.prop.value
  {
  }

  lemma NewValueStarts(cfg: Config, x: Node, value: Value)
    ensures var x1 := OfferValue(x, value);
      NewValue(cfg, x, value) ==
        if x.prop.canSkip && !x.prop.wasRejected then StartAcceptRound(cfg, x1)
        else StartPrepareRound(cfg, x1, x1.prop.wasRejected)
  {
    hide StartAcceptRound, StartPrepareRound;
  }

  /** An Accept round without a Prepare round before it. */
  lemma SkipEnds(cfg: Config, s: Sys, s': Sys, n: NodeId, nd: Node, later: seq<NodeId>)
    requires Goes(cfg, s, s') && Wf(cfg, s) && Wf(cfg, s') && n in s.nodes && n in cfg.nodes
    requires s' == Apply(s, n, StartAcceptRound(cfg, nd))
    requires nd.me == n && nd.acc == s.nodes[n].acc && nd.prop.id > 0 && nd.prop.canSkip && !nd.prop.wasRejected
    requires NextBallot(nd).AtLeast(nd.acc.promise) && WithinReach(cfg, s, n, later, nd.inst, NextBallot(nd))
    ensures CanExecute(cfg, s, n, nd.inst, nd.prop.value, NextBallot(nd).id)
  {
    hide *;
    var i, b := nd.inst, NextBallot(nd);
    SkipStarts(cfg, s, n, nd);
    OnlyMovedReady(cfg, s, s', n, later, i, b);
    ReachParts(cfg, s', n, later, i, b);
    assert |{n}| == 1;
    var t := s';
    if MajorityCount(cfg) > 1 {
      t := AcceptPhase(cfg, s, s', n, i, b, {n}, nd.prop.value, nd.lastChk, later);
    }
    Executes(cfg, s, t, n, i, nd.prop.value, b.id);
  }

  lemma SkipStarts(cfg: Config, s: Sys, n: NodeId, nd: Node)
    requires n in s.nodes && nd.me == n && nd.prop.id > 0 && nd.prop.canSkip && !nd.prop.wasRejected
    requires NextBallot(nd).AtLeast(nd.acc.promise)
    ensures var s' := Apply(s, n, StartAcceptRound(cfg, nd));
      && OnlyMoved(s, s', n)
      && (MajorityCount(cfg) == 1 ==> Executed(s', n, nd.inst, nd.prop.value, NextBallot(nd).id))
      && (MajorityCount(cfg) > 1 ==> Accepting(s', n, nd.inst, NextBallot(nd), {n}, nd.prop.value, nd.lastChk))
  {
    AcceptStarts(cfg, nd);
    hide StartAcceptRound;
  }

  // ---------------------------------------------------------------- after rejections

  /** `a` is in the instance of `n` and grants the next ballot, or has told `n` what it has promised. */
  ghost predicate Heard(cfg: Config, r: seq<Sys>, es: seq<(NodeId, Event)>, n: NodeId, a: NodeId)
    requires |r| == |es| + 1
  {
    var s := r[|es|];
    && a in s.nodes && n in s.nodes && s.nodes[a].inst == s.nodes[n].inst
    && (NextBallot(s.nodes[n]).AtLeast(s.nodes[a].acc.promise) || RejectedWith(cfg, r, es, n, |es|, s.nodes[a].acc.promise.id))
  }

  ghost predicate AllHeard(cfg: Config, r: seq<Sys>, es: seq<(NodeId, Event)>, n: NodeId, order: seq<NodeId>)
    requires |r| == |es| + 1
  {
    && Others(cfg, n, order) && |order| + 1 == MajorityCount(cfg)
    && forall k :: 0 <= k < |order| ==> Heard(cfg, r, es, n, order[k])
  }

  lemma ToldIsNext(x: Node, id: nat)
    requires Told(x, id)
    ensures NextBallot(x).id > id
  {
  }

  lemma HeardIsReady(cfg: Config, r: seq<Sys>, es: seq<(NodeId, Event)>, n: NodeId, a: NodeId)
    requires Trace(cfg, r, es) && |r| == |es| + 1 && Heard(cfg, r, es, n, a)
    ensures var s := r[|es|]; n in s.nodes && Ready(s, a, s.nodes[n].inst, NextBallot(s.nodes[n]))
  {
    hide Trace, CountedAt, Stays, Told, NextBallot;
    var s := r[|es|];
    if !NextBallot(s.nodes[n]).AtLeast(s.nodes[a].acc.promise) {
      var x := s.nodes[a].acc.promise.id;
      var j: nat, m :| j < |es| && CountedAt(cfg, r, es, n, j, m) && Stays(r, es, n, j, |es|)
        && (m.PrepareReply? || m.AcceptReply?) && x <= m.rejectBy;
      CountedHere(cfg, r, es, n, j, m);
      StaysHere(r, es, n, j, |es|);
      ToldSince(cfg, r, es, n, j, |es|, m, x);
      ToldIsNext(s.nodes[n], x);
    }
  }

  lemma AllHeardReach(cfg: Config, r: seq<Sys>, es: seq<(NodeId, Event)>, n: NodeId, order: seq<NodeId>)
    requires Trace(cfg, r, es) && |r| == |es| + 1 && n in r[|es|].nodes && AllHeard(cfg, r, es, n, order)
    ensures var s := r[|es|]; WithinReach(cfg, s, n, order, s.nodes[n].inst, NextBallot(s.nodes[n]))
  {
    hide Trace, Heard, NextBallot, Ready;
    var s := r[|es|];
    forall k | 0 <= k < |order|
      ensures Ready(s, order[k], s.nodes[n].inst, NextBallot(s.nodes[n]))
    {
      HeardIsReady(cfg, r, es, n, order[k]);
    }
  }

  /**
   * After a majority has told the proposer what it has promised, and nobody has promised
   * anything since, the round the timer starts gets a value executed.
   */
  lemma RejectedOnlyOnce(cfg: Config, r: seq<Sys>, es: seq<(NodeId, Event)>, n: NodeId, order: seq<NodeId>, later: seq<NodeId>)
    returns (v: Value)
    requires Trace(cfg, r, es) && |r| == |es| + 1 && n in cfg.nodes && n in r[|es|].nodes
    requires var x := r[|es|].nodes[n];
      && (x.prop.preparing || x.prop.accepting)
      && Heard(cfg, r, es, n, n) && AllHeard(cfg, r, es, n, order) && AllHeard(cfg, r, es, n, later)
    ensures var s := r[|es|];
      && CanExecute(cfg, s, n, s.nodes[n].inst, v, NextBallot(s.nodes[n]).id)
      && (Unvoted(s, order) && s.nodes[n].acc.accepted.id == 0 ==> v == s.nodes[n].prop.value)
  {
    hide Trace, Heard, AllHeard, NextBallot, WithinReach, CanExecute, Unvoted;
    TraceIsRun(cfg, r, es);
    HeardIsReady(cfg, r, es, n, n);
    AllHeardReach(cfg, r, es, n, order);
    AllHeardReach(cfg, r, es, n, later);
    v := TimeoutGetsThrough(cfg, r, n, order, later);
  }
}
