/** Without any one of the three guards, agreement fails, and for which clusters. */
module PaxosLimits {
  import opened PaxosTypes
  import opened NodeSpec
  import opened PaxosSystem
  import opened PaxosSchedules
  import opened PaxosTheorems

  /** A proposer in an instance it has proposed nothing in. */
  function Resting(id: nat, canSkip: bool, pre: Ballot, inst: nat): Proposer {
    FreshProposer(id).(canSkip := canSkip, highestPre := pre, timeoutInst := inst)
  }

  function Preparer(id: nat, v: Value, pre: Ballot, granted: set<NodeId>): Proposer {
    FreshProposer(id).(value := v, highestPre := pre, preparing := true, counter := Counter(granted, {}, granted))
  }

  function Accepter(id: nat, v: Value, pre: Ballot, granted: set<NodeId>, inst: nat): Proposer {
    FreshProposer(id).(value := v, highestPre := pre, accepting := true, canSkip := true,
                       counter := Counter(granted, {}, granted), timeoutInst := inst)
  }

  function Promised(b: Ballot): Acceptor {
    Acceptor(b, NULL_BALLOT, [], 0)
  }

  function Accepted(b: Ballot, v: Value): Acceptor {
    Acceptor(b, b, v, 0)
  }

  // ---------------------------------------------------------------- clusters of any size

  function Half(nodes: set<NodeId>): nat {
    |nodes| / 2 + 1
  }

  lemma MajorityIs(nodes: set<NodeId>)
    ensures MajorityCount(Cluster(nodes)) == Half(nodes) && Cluster(nodes).nodes == nodes
  {
  }

  lemma {:induction false} Least(q: set<NodeId>) returns (x: NodeId)
    requires q != {}
    ensures x in q && forall y :: y in q ==> x <= y
    decreases q
  {
    var z :| z in q;
    x := z;
    if q - {z} != {} {
      var y := Least(q - {z});
      x := if y < z then y else z;
    }
    assert q == (q - {z}) + {z};
  }

  lemma {:induction false} Greatest(q: set<NodeId>) returns (x: NodeId)
    requires q != {}
    ensures x in q && forall y :: y in q ==> y <= x
    decreases q
  {
    var z :| z in q;
    x := z;
    if q - {z} != {} {
      var y := Greatest(q - {z});
      x := if y > z then y else z;
    }
    assert q == (q - {z}) + {z};
  }

  /** A part of `q` of the given size. */
  lemma {:induction false} Part(q: set<NodeId>, size: nat) returns (r: set<NodeId>)
    requires size <= |q|
    ensures r <= q && |r| == size
    decreases q
  {
    if size == |q| {
      r := q;
    } else {
      var x :| x in q;
      r := Part(q - {x}, size);
    }
  }

  /** A part of `q` of the given size with one of its members set apart. */
  lemma PartAndOne(q: set<NodeId>, size: nat) returns (r: set<NodeId>, x: NodeId)
    requires 0 < size <= |q|
    ensures r <= q && x in q && x !in r && |r| == size - 1 && |r + {x}| == size
  {
    var t := Part(q, size);
    x :| x in t;
    r := t - {x};
  }

  lemma Joined(x: NodeId, q: set<NodeId>, y: NodeId)
    requires x !in q && y !in q && x != y
    ensures |{x} + q| == |q| + 1 && |{x} + q + {y}| == |q| + 2
  {
  }

  /** Node `a` proposes 1, and all others promise. */
  lemma FirstPrepare(g: Guard, nodes: set<NodeId>, a: NodeId) returns (s: Sys)
    requires |nodes| >= 3 && a in nodes
    ensures Reached(g, Cluster(nodes), s) && s.nodes.Keys == nodes
    ensures Is(s, a, 0, Preparer(1, [1], NULL_BALLOT, {a}), Promised(Ballot(1, a)))
    ensures OnlyFirst(s, nodes - {a}) && s.nodes[a].log.Keys == {0}
    ensures forall k :: k in nodes - {a} ==>
      && Is(s, k, 0, FreshProposer(1), Promised(Ballot(1, a)))
      && PrepareReply(0, k, a, 1, 0, NULL_BALLOT, []) in s.sent
  {
    hide Is, Reached, MajorityCount, Cluster, LogsWith, OnlyFirst;
    var cfg := Cluster(nodes);
    MajorityIs(nodes);
    assert {} + {a} == {a};
    s := Start(g, nodes);
    s := Proposes(g, cfg, s, a, [1], 0, FreshProposer(1), FreshAcceptor());
    assert {} + {0} == {0};
    var s1 := s;
    s := ToldPrepareAll(g, cfg, s1, nodes - {a}, Prepare(0, a, 1), FreshProposer(1), FreshAcceptor());
    OnlyFirstAfter(s1, s, nodes - {a});
  }

  /** Node `a` proposes 1, hears promises of a majority, and sends out its Accept. */
  lemma FirstRound(g: Guard, nodes: set<NodeId>, a: NodeId) returns (s: Sys)
    requires |nodes| >= 3 && a in nodes
    ensures Reached(g, Cluster(nodes), s) && s.nodes.Keys == nodes
    ensures Is(s, a, 0, Accepter(1, [1], NULL_BALLOT, {a}, 0), Accepted(Ballot(1, a), [1]))
    ensures Accept(0, a, 1, [1], 0) in s.sent
    ensures s.nodes[a].log == map[0 := Record(Ballot(1, a), Ballot(1, a), [1], 0, true, None)]
    ensures OnlyFirst(s, nodes - {a})
    ensures forall k :: k in nodes - {a} ==> Is(s, k, 0, FreshProposer(1), Promised(Ballot(1, a)))
  {
    hide Is, Reached, MajorityCount, Cluster, OnlyFirst, LogsWith;
    var cfg := Cluster(nodes);
    MajorityIs(nodes);
    var t, x := PartAndOne(nodes - {a}, Half(nodes) - 1);
    Joined(a, t, x);
    var s1 := FirstPrepare(g, nodes, a);
    var s2 := HeardPromises(g, cfg, s1, a, t, 0, Preparer(1, [1], NULL_BALLOT, {a}), Promised(Ballot(1, a)),
                            NULL_BALLOT, []);
    OthersOutside(s1, s2, a);
    OnlyFirstStill(s1, s2, {a}, nodes - {a});
    s := HeardMajority(g, cfg, s2, a, PrepareReply(0, x, a, 1, 0, NULL_BALLOT, []),
                       Preparer(1, [1], NULL_BALLOT, {a} + t), Promised(Ballot(1, a)));
    OthersOutside(s2, s, a);
    OnlyFirstStill(s2, s, {a}, nodes - {a});
    OneRecord(s2.nodes[a].log, Record(Ballot(1, a), Ballot(1, a), [1], 0, true, None));
  }

  lemma OneRecord(log: map<nat, Record>, r: Record)
    requires log.Keys == {0}
    ensures log[0 := r] == map[0 := r]
  {
    assert log[0 := r].Keys == {0} + {0};
  }

  lemma OtherPrepare(g: Guard, nodes: set<NodeId>, s: Sys, a: NodeId, e: NodeId, q: set<NodeId>) returns (s': Sys)
    requires Reached(g, Cluster(nodes), s) && s.nodes.Keys == nodes && |nodes| >= 3
    requires e in nodes && e !in q && e >= a && q <= nodes
    requires Is(s, e, 0, FreshProposer(1), Promised(Ballot(1, a)))
    requires forall k :: k in q ==> Is(s, k, 0, FreshProposer(1), Promised(Ballot(1, a)))
    ensures Reached(g, Cluster(nodes), s') && Outside(s, s', q + {e})
    ensures Is(s', e, 0, Preparer(1, [2], NULL_BALLOT, {e}), Promised(Ballot(1, e))) && Prepare(0, e, 1) in s'.sent
    ensures forall k :: k in q ==>
      && Is(s', k, 0, FreshProposer(1), Promised(Ballot(1, e)))
      && PrepareReply(0, k, e, 1, 0, NULL_BALLOT, []) in s'.sent
  {
    hide Is, Reached, MajorityCount, Cluster, OnlyFirst, LogsWith;
    var cfg := Cluster(nodes);
    MajorityIs(nodes);
    assert {} + {e} == {e};
    s' := Proposes(g, cfg, s, e, [2], 0, FreshProposer(1), Promised(Ballot(1, a)));
    s' := ToldPrepareAll(g, cfg, s', q, Prepare(0, e, 1), FreshProposer(1), Promised(Ballot(1, a)));
  }

  lemma OtherMajority(g: Guard, nodes: set<NodeId>, s: Sys, e: NodeId, t: set<NodeId>, y: NodeId) returns (s': Sys)
    requires Reached(g, Cluster(nodes), s) && s.nodes.Keys == nodes && |nodes| >= 3
    requires e in nodes && t <= nodes && e !in t && y in nodes && y != e && y !in t && |t| == Half(nodes) - 2
    requires Is(s, e, 0, Preparer(1, [2], NULL_BALLOT, {e}), Promised(Ballot(1, e)))
    requires forall k :: k in t + {y} ==> PrepareReply(0, k, e, 1, 0, NULL_BALLOT, []) in s.sent
    ensures Reached(g, Cluster(nodes), s') && Others(s, s', e)
    ensures Is(s', e, 0, Accepter(1, [2], NULL_BALLOT, {e}, 0), Accepted(Ballot(1, e), [2]))
    ensures 0 in s'.nodes[e].log && s'.nodes[e].log[0].accepted == Ballot(1, e) && s'.nodes[e].log[0].value == [2]
    ensures Accept(0, e, 1, [2], 0) in s'.sent
  {
    hide Is, Reached, MajorityCount, Cluster, OnlyFirst, LogsWith;
    var cfg := Cluster(nodes);
    MajorityIs(nodes);
    Joined(e, t, y);
    s' := HeardPromises(g, cfg, s, e, t, 0, Preparer(1, [2], NULL_BALLOT, {e}), Promised(Ballot(1, e)), NULL_BALLOT, []);
    s' := HeardMajority(g, cfg, s', e, PrepareReply(0, y, e, 1, 0, NULL_BALLOT, []),
                        Preparer(1, [2], NULL_BALLOT, {e} + t), Promised(Ballot(1, e)));
  }

  /**
   * Node `e` proposes 2 above `a`, with promises of all in `q` and a majority with one
   * more voter `y` in hand; it sends out its Accept, and they all vote.
   */
  lemma OtherRound(g: Guard, nodes: set<NodeId>, s: Sys, a: NodeId, e: NodeId, q: set<NodeId>, t: set<NodeId>, y: NodeId)
    returns (s': Sys)
    requires Reached(g, Cluster(nodes), s) && s.nodes.Keys == nodes && |nodes| >= 3
    requires e in nodes && e !in q && e >= a && q <= nodes && t <= q && y in q && y !in t && |t| == Half(nodes) - 2
    requires Is(s, e, 0, FreshProposer(1), Promised(Ballot(1, a)))
    requires forall k :: k in q ==> Is(s, k, 0, FreshProposer(1), Promised(Ballot(1, a)))
    ensures Reached(g, Cluster(nodes), s') && Outside(s, s', q + {e})
    ensures Is(s', e, 0, Accepter(1, [2], NULL_BALLOT, {e}, 0), Accepted(Ballot(1, e), [2]))
    ensures 0 in s'.nodes[e].log && s'.nodes[e].log[0].accepted == Ballot(1, e) && s'.nodes[e].log[0].value == [2]
    ensures Prepare(0, e, 1) in s'.sent && Accept(0, e, 1, [2], 0) in s'.sent
    ensures forall k :: k in q ==>
      && Is(s', k, 0, FreshProposer(1), Accepted(Ballot(1, e), [2]))
      && PrepareReply(0, k, e, 1, 0, NULL_BALLOT, []) in s'.sent && AcceptReply(0, k, e, 1, 0) in s'.sent
  {
    hide Is, Reached, MajorityCount, Cluster, OnlyFirst, LogsWith;
    var cfg := Cluster(nodes);
    MajorityIs(nodes);
    s' := OtherPrepare(g, nodes, s, a, e, q);
    s' := OtherMajority(g, nodes, s', e, t, y);
    s' := ToldAcceptAll(g, cfg, s', q, Accept(0, e, 1, [2], 0), FreshProposer(1), Promised(Ballot(1, e)));
  }

  // ---------------------------------------------------------------- next-instance shortcut

  /** Node `b` alone votes for 1; then 2 is chosen without `a` and `b`. */
  lemma OtherChosen(nodes: set<NodeId>, a: NodeId, b: NodeId, e: NodeId) returns (s: Sys)
    requires |nodes| >= 5 && a in nodes && b in nodes && e in nodes && a != b && a != e && b != e && e >= a
    ensures Reached(ShortcutGuard, Cluster(nodes), s) && s.nodes.Keys == nodes
    ensures Is(s, a, 0, Accepter(1, [1], NULL_BALLOT, {a}, 0), Accepted(Ballot(1, a), [1]))
    ensures Is(s, b, 0, FreshProposer(1), Accepted(Ballot(1, a), [1]))
    ensures Is(s, e, 1, Resting(1, true, NULL_BALLOT, 0), Promised(Ballot(1, e))) && Learned(e, 0, [2]) in s.learned
    ensures 0 in s.nodes[e].log && s.nodes[e].log[0].accepted == Ballot(1, e) && s.nodes[e].log[0].value == [2]
  {
    hide Is, Reached, MajorityCount, Cluster, OnlyFirst, LogsWith;
    var g, cfg := ShortcutGuard, Cluster(nodes);
    MajorityIs(nodes);
    var q := nodes - {a, b, e};
    assert nodes == q + {a, b, e} && |{a, b, e}| == 3;
    var t, y := PartAndOne(q, Half(nodes) - 1);
    Joined(e, t, y);
    s := FirstRound(g, nodes, a);
    s := ToldAccept(g, cfg, s, b, Accept(0, a, 1, [1], 0), FreshProposer(1), Promised(Ballot(1, a)));
    s := OtherRound(g, nodes, s, a, e, q, t, y);
    s := HeardAccepts(g, cfg, s, e, t, 0, Accepter(1, [2], NULL_BALLOT, {e}, 0), Accepted(Ballot(1, e), [2]));
    s := HeardChosen(g, cfg, s, e, AcceptReply(0, y, e, 1, 0),
                     Accepter(1, [2], NULL_BALLOT, {e} + t, 0), Accepted(Ballot(1, e), [2]));
  }

  /**
   * With five or more nodes the shortcut is wrong: a node copies the chosen value, goes
   * on under its old ballot, and another takes that for the success of what it had
   * accepted from it.
   */
  lemma ShortcutGuardNeeded(nodes: set<NodeId>) returns (s: Sys)
    requires |nodes| >= 5
    ensures Reaches(ShortcutGuard, Cluster(nodes), s) && Disagree(s)
  {
    hide Is, MajorityCount, Cluster, Reaches;
    var g, cfg := ShortcutGuard, Cluster(nodes);
    MajorityIs(nodes);
    var a := Least(nodes);
    var r := Part(nodes - {a}, 2);
    var b :| b in r;
    assert |r - {b}| == 1;
    var e :| e in r - {b};
    s := OtherChosen(nodes, a, b, e);
    s := Offers(g, cfg, s, e, 0, a, 1, Resting(1, true, NULL_BALLOT, 0), Promised(Ballot(1, e)));
    s := Copied(g, cfg, s, a, Learn(0, e, a, Ballot(1, e), [2], 0),
                Accepter(1, [1], NULL_BALLOT, {a}, 0), Accepted(Ballot(1, a), [1]));
    s := Skips(g, cfg, s, a, [3], 1, Resting(1, true, NULL_BALLOT, 0), Promised(Ballot(1, a)));
    s := HeardNext(g, cfg, s, b, Accept(1, a, 1, [3], 0), 0, FreshProposer(1), Accepted(Ballot(1, a), [1]));
    assert Learned(b, 0, [1]) in s.learned && Learned(e, 0, [2]) in s.learned;
  }

  /** With at most four nodes the guard asks for nothing, so the other two are enough. */
  lemma SmallNeedsNoShortcutGuard(cfg: Config, s: Sys)
    requires |cfg.nodes| <= 4 && Reaches(ShortcutGuard, cfg, s)
    ensures !Disagree(s)
  {
    var r :| RunWithout(ShortcutGuard, cfg, r) && r[|r| - 1] == s;
    forall k | 0 <= k < |r| - 1
      ensures GuardedStep(cfg, r[k], r[k + 1])
    {
      SmallStep(cfg, r[k], r[k + 1]);
    }
    hide StepWithout, GuardedStep, Init;
    assert GuardedRun(cfg, r);
    forall l, l' | l in s.learned && l' in s.learned && l.inst == l'.inst
      ensures l.value == l'.value
    {
      Agreement(cfg, r, |r| - 1, |r| - 1, l, l');
    }
  }

  lemma SmallStep(cfg: Config, s: Sys, s': Sys)
    requires |cfg.nodes| <= 4 && StepWithout(ShortcutGuard, cfg, s, s')
    ensures GuardedStep(cfg, s, s')
  {
    hide Run, RepreparePermitted, RestartPermitted;
    var n, e :| StepBy(cfg, s, s', n, e) && forall h :: h != ShortcutGuard ==> Holds(h, cfg, s, n, e);
    assert Holds(ShortcutGuard, cfg, s, n, e);
    assert Permitted(cfg, s, n, e);
  }

  /** The size of the cluster decides, exactly, whether the shortcut is safe. */
  lemma ShortcutExact(nodes: set<NodeId>)
    ensures (exists s :: Reaches(ShortcutGuard, Cluster(nodes), s) && Disagree(s)) <==> |nodes| >= 5
  {
    hide Reaches, Disagree;
    if |nodes| >= 5 {
      var s := ShortcutGuardNeeded(nodes);
    } else {
      forall s | Reaches(ShortcutGuard, Cluster(nodes), s)
        ensures !Disagree(s)
      {
        SmallNeedsNoShortcutGuard(Cluster(nodes), s);
      }
    }
  }

  // ---------------------------------------------------------------- preparing a ballot again

  /** Node `b` after its own acceptor has promised more and it prepares its old ballot again. */
  function Again(b: NodeId, v: Value, pre: Ballot, received: set<NodeId>, granted: set<NodeId>): Proposer {
    FreshProposer(1).(highestOther := 1, value := v, highestPre := pre, preparing := true, wasRejected := true,
                      counter := Counter(received, {b}, granted))
  }

  function AgainAccepting(b: NodeId, pre: Ballot, received: set<NodeId>, granted: set<NodeId>): Proposer {
    Again(b, [1], pre, received, granted).(preparing := false, accepting := true, canSkip := true)
  }

  /** What all the next steps need of the cluster: `a` below `b` below `c`, which votes with `t`. */
  predicate Cast(nodes: set<NodeId>, a: NodeId, b: NodeId, c: NodeId, t: set<NodeId>) {
    && |nodes| >= 3 && a in nodes && b in nodes && c in nodes && a < b < c
    && t <= nodes && a !in t && b !in t && c !in t && |t| == Half(nodes) - 2
  }

  lemma Casting(nodes: set<NodeId>) returns (a: NodeId, b: NodeId, c: NodeId, t: set<NodeId>)
    requires |nodes| >= 3
    ensures Cast(nodes, a, b, c, t)
  {
    a := Least(nodes);
    c := Greatest(nodes);
    var d := Part(nodes - {a}, 1);
    var x :| x in d;
    var r := nodes - {a, c};
    assert nodes == r + {a, c};
    b :| b in r;
    assert nodes == (r - {b}) + {a, b, c} && |{a, b, c}| == 3;
    t := Part(r - {b}, Half(nodes) - 2);
  }

  /** All have voted for 2 under the ballot of `b`, unheard; the Prepare of `c` reaches `b`, which prepares again, at `a`. */
  lemma PreparedAgain(nodes: set<NodeId>, a: NodeId, b: NodeId, c: NodeId, t: set<NodeId>) returns (s: Sys)
    requires Cast(nodes, a, b, c, t)
    ensures Reached(ReprepareGuard, Cluster(nodes), s) && s.nodes.Keys == nodes
    ensures Is(s, a, 0, Accepter(1, [1], NULL_BALLOT, {a}, 0), Acceptor(Ballot(1, b), Ballot(1, a), [1], 0))
    ensures Is(s, b, 0, Again(b, [2], NULL_BALLOT, {b}, {}), Acceptor(Ballot(1, c), Ballot(1, b), [2], 0))
    ensures PrepareReply(0, a, b, 1, 0, Ballot(1, a), [1]) in s.sent
    ensures forall k :: k in t + {c} ==>
      PrepareReply(0, k, b, 1, 0, NULL_BALLOT, []) in s.sent && AcceptReply(0, k, b, 1, 0) in s.sent
  {
    hide Is, Reached, MajorityCount, Cluster, OnlyFirst, LogsWith;
    var g, cfg := ReprepareGuard, Cluster(nodes);
    MajorityIs(nodes);
    s := FirstRound(g, nodes, a);
    s := OtherRound(g, nodes, s, a, b, t + {c}, t, c);
    s := Proposes(g, cfg, s, c, [3], 0, FreshProposer(1), Accepted(Ballot(1, b), [2]));
    s := ToldPrepare(g, cfg, s, b, Prepare(0, c, 1), Accepter(1, [2], NULL_BALLOT, {b}, 0), Accepted(Ballot(1, b), [2]));
    s := PreparesAgain(g, cfg, s, b, 0, Accepter(1, [2], NULL_BALLOT, {b}, 0), Acceptor(Ballot(1, c), Ballot(1, b), [2], 0));
    s := ToldPrepare(g, cfg, s, a, Prepare(0, b, 1), Accepter(1, [1], NULL_BALLOT, {a}, 0), Accepted(Ballot(1, a), [1]));
  }

  /** The older value of `a`, and stale promises of the others: a second value under one ballot. */
  lemma SecondValue(nodes: set<NodeId>, a: NodeId, b: NodeId, c: NodeId, t: set<NodeId>) returns (s: Sys)
    requires Cast(nodes, a, b, c, t)
    ensures Reached(ReprepareGuard, Cluster(nodes), s) && s.nodes.Keys == nodes
    ensures Is(s, a, 0, Accepter(1, [1], NULL_BALLOT, {a}, 0), Acceptor(Ballot(1, b), Ballot(1, a), [1], 0))
    ensures Is(s, b, 0, AgainAccepting(b, Ballot(1, a), {b}, {}), Acceptor(Ballot(1, c), Ballot(1, b), [2], 0))
    ensures Accept(0, b, 1, [1], 0) in s.sent
    ensures forall k :: k in t + {c} ==> AcceptReply(0, k, b, 1, 0) in s.sent
  {
    hide Is, Reached, MajorityCount, Cluster, OnlyFirst, LogsWith;
    var g, cfg := ReprepareGuard, Cluster(nodes);
    MajorityIs(nodes);
    Joined(a, t, c);
    assert {} + {a} == {a};
    var pre, acc := Ballot(1, a), Acceptor(Ballot(1, c), Ballot(1, b), [2], 0);
    s := PreparedAgain(nodes, a, b, c, t);
    s := HeardPromise(g, cfg, s, b, PrepareReply(0, a, b, 1, 0, pre, [1]), Again(b, [2], NULL_BALLOT, {b}, {}), acc);
    s := HeardPromises(g, cfg, s, b, t, 0, Again(b, [1], pre, {b} + {a}, {a}), acc, NULL_BALLOT, []);
    s := HeardMajorityRejected(g, cfg, s, b, PrepareReply(0, c, b, 1, 0, NULL_BALLOT, []),
                               Again(b, [1], pre, {b} + {a} + t, {a} + t), acc);
  }

  /**
   * A ballot prepared again after its own acceptor has promised more can carry two
   * values: in every cluster of three or more nodes a run executes both in instance 0.
   */
  lemma ReprepareGuardNeeded(nodes: set<NodeId>) returns (s: Sys)
    requires |nodes| >= 3
    ensures Reaches(ReprepareGuard, Cluster(nodes), s) && Disagree(s)
  {
    hide Is, MajorityCount, Cluster, Reaches;
    var g, cfg := ReprepareGuard, Cluster(nodes);
    MajorityIs(nodes);
    var a, b, c, t := Casting(nodes);
    var pre, acc, q := Ballot(1, a), Acceptor(Ballot(1, c), Ballot(1, b), [2], 0), t + {c};
    assert {} + q == q && |q| == Half(nodes) - 1 && |q + {a}| == Half(nodes);
    s := SecondValue(nodes, a, b, c, t);
    s := ToldAccept(g, cfg, s, a, Accept(0, b, 1, [1], 0),
                    Accepter(1, [1], NULL_BALLOT, {a}, 0), Acceptor(Ballot(1, b), pre, [1], 0));
    s := HeardAccepts(g, cfg, s, b, q, 0, AgainAccepting(b, pre, {b}, {}), acc);
    s := HeardChosen(g, cfg, s, b, AcceptReply(0, a, b, 1, 0), AgainAccepting(b, pre, {b} + q, q), acc);
    s := HeardSuccess(g, cfg, s, a, Success(0, b, 1, 0), Accepter(1, [1], NULL_BALLOT, {a}, 0), Accepted(Ballot(1, b), [1]));
    assert Learned(b, 0, [2]) in s.learned && Learned(a, 0, [1]) in s.learned;
  }

  // ---------------------------------------------------------------- restart after a copied record

  /** `a` below `c`, and the voters `t` and `y` that make a majority with either. */
  predicate Parties(nodes: set<NodeId>, a: NodeId, c: NodeId, t: set<NodeId>, y: NodeId) {
    && |nodes| >= 3 && a in nodes && c in nodes && a < c && y in nodes && y != a && y != c
    && t <= nodes && a !in t && c !in t && y !in t && |t| == Half(nodes) - 2
  }

  lemma SomeParties(nodes: set<NodeId>) returns (a: NodeId, c: NodeId, t: set<NodeId>, y: NodeId)
    requires |nodes| >= 3
    ensures Parties(nodes, a, c, t, y)
  {
    var b;
    a, b, c, t := Casting(nodes);
    y := b;
  }

  /** The value of `a` is sent out in instance 0; `c` and the voters vote for it. */
  lemma FirstVotes(nodes: set<NodeId>, a: NodeId, q: set<NodeId>) returns (s: Sys)
    requires |nodes| >= 3 && a in nodes && q <= nodes - {a}
    ensures Reached(RestartGuard, Cluster(nodes), s) && s.nodes.Keys == nodes
    ensures Is(s, a, 0, Accepter(1, [1], NULL_BALLOT, {a}, 0), Accepted(Ballot(1, a), [1]))
    ensures 0 in s.nodes[a].log && s.nodes[a].log[0].accepted == Ballot(1, a) && s.nodes[a].log[0].value == [1]
    ensures OnlyFirst(s, q)
    ensures forall k :: k in q ==>
      Is(s, k, 0, FreshProposer(1), Accepted(Ballot(1, a), [1])) && AcceptReply(0, k, a, 1, 0) in s.sent
  {
    hide Is, Reached, MajorityCount, Cluster, LogsWith;
    var s1 := FirstRound(RestartGuard, nodes, a);
    MajorityIs(nodes);
    s := ToldAcceptAll(RestartGuard, Cluster(nodes), s1, q, Accept(0, a, 1, [1], 0), FreshProposer(1), Promised(Ballot(1, a)));
    OnlyFirstAfter(s1, s, q);
  }

  /** The value of `a` is chosen in instance 0. */
  lemma FirstChosen(nodes: set<NodeId>, a: NodeId, c: NodeId, t: set<NodeId>, y: NodeId) returns (s: Sys)
    requires Parties(nodes, a, c, t, y)
    ensures Reached(RestartGuard, Cluster(nodes), s) && s.nodes.Keys == nodes
    ensures Is(s, a, 1, Resting(1, true, NULL_BALLOT, 0), Promised(Ballot(1, a)))
    ensures 0 in s.nodes[a].log && s.nodes[a].log[0].accepted == Ballot(1, a) && s.nodes[a].log[0].value == [1]
    ensures OnlyFirst(s, t + {y, c})
    ensures forall k :: k in t + {y, c} ==> Is(s, k, 0, FreshProposer(1), Accepted(Ballot(1, a), [1]))
  {
    hide Is, Reached, MajorityCount, Cluster, OnlyFirst, Others, Outside;
    var g, cfg, q := RestartGuard, Cluster(nodes), t + {y, c};
    MajorityIs(nodes);
    Joined(a, t, y);
    var s1 := FirstVotes(nodes, a, q);
    var s2 := HeardAccepts(g, cfg, s1, a, t, 0, Accepter(1, [1], NULL_BALLOT, {a}, 0), Accepted(Ballot(1, a), [1]));
    OthersStand(s1, s2, a, q, 0, FreshProposer(1), Accepted(Ballot(1, a), [1]));
    OthersOutside(s1, s2, a);
    OnlyFirstStill(s1, s2, {a}, q);
    s := HeardChosen(g, cfg, s2, a, AcceptReply(0, y, a, 1, 0),
                     Accepter(1, [1], NULL_BALLOT, {a} + t, 0), Accepted(Ballot(1, a), [1]));
    OthersStand(s2, s, a, q, 0, FreshProposer(1), Accepted(Ballot(1, a), [1]));
    OthersOutside(s2, s, a);
    OnlyFirstStill(s2, s, {a}, q);
  }

  /** `c` prepares its own ballot; the voters promise and report the value. */
  lemma SecondPrepare(nodes: set<NodeId>, a: NodeId, c: NodeId, t: set<NodeId>, y: NodeId) returns (s: Sys)
    requires Parties(nodes, a, c, t, y)
    ensures Reached(RestartGuard, Cluster(nodes), s) && s.nodes.Keys == nodes
    ensures Is(s, a, 1, Resting(1, true, NULL_BALLOT, 0), Promised(Ballot(1, a)))
    ensures 0 in s.nodes[a].log && s.nodes[a].log[0].accepted == Ballot(1, a) && s.nodes[a].log[0].value == [1]
    ensures Is(s, c, 0, Preparer(1, [1], Ballot(1, a), {c}), Acceptor(Ballot(1, c), Ballot(1, a), [1], 0))
    ensures OnlyFirst(s, t + {y})
    ensures forall k :: k in t + {y} ==>
      && Is(s, k, 0, FreshProposer(1), Acceptor(Ballot(1, c), Ballot(1, a), [1], 0))
      && PrepareReply(0, k, c, 1, 0, Ballot(1, a), [1]) in s.sent
  {
    hide Is, Reached, MajorityCount, Cluster, LogsWith, Others, Outside, OnlyFirst;
    var g, cfg, ba, q := RestartGuard, Cluster(nodes), Ballot(1, a), t + {y};
    MajorityIs(nodes);
    assert {} + {c} == {c};
    var s0 := FirstChosen(nodes, a, c, t, y);
    var s1 := Proposes(g, cfg, s0, c, [2], 0, FreshProposer(1), Accepted(ba, [1]));
    OthersStand(s0, s1, c, q, 0, FreshProposer(1), Accepted(ba, [1]));
    OthersStand(s0, s1, c, {a}, 1, Resting(1, true, NULL_BALLOT, 0), Promised(ba));
    OthersOutside(s0, s1, c);
    OnlyFirstPart(s0, t + {y, c}, q);
    OnlyFirstStill(s0, s1, {c}, q);
    s := ToldPrepareAll(g, cfg, s1, q, Prepare(0, c, 1), FreshProposer(1), Accepted(ba, [1]));
    OneStands(s1, s, q, a, 1, Resting(1, true, NULL_BALLOT, 0), Promised(ba));
    OneStands(s1, s, q, c, 0, Preparer(1, [1], ba, {c}), Acceptor(Ballot(1, c), ba, [1], 0));
    OnlyFirstMore(s1, s, q);
  }

  /** A majority has promised: `c` repeats the value under its own ballot. */
  lemma SecondBallot(nodes: set<NodeId>, a: NodeId, c: NodeId, t: set<NodeId>, y: NodeId) returns (s: Sys)
    requires Parties(nodes, a, c, t, y)
    ensures Reached(RestartGuard, Cluster(nodes), s) && s.nodes.Keys == nodes
    ensures Is(s, a, 1, Resting(1, true, NULL_BALLOT, 0), Promised(Ballot(1, a)))
    ensures 0 in s.nodes[a].log && s.nodes[a].log[0].accepted == Ballot(1, a) && s.nodes[a].log[0].value == [1]
    ensures Is(s, c, 0, Accepter(1, [1], Ballot(1, a), {c}, 0), Accepted(Ballot(1, c), [1]))
    ensures OnlyFirst(s, t + {y})
    ensures forall k :: k in t + {y} ==> Is(s, k, 0, FreshProposer(1), Acceptor(Ballot(1, c), Ballot(1, a), [1], 0))
  {
    hide Is, Reached, MajorityCount, Cluster, OnlyFirst;
    var g, cfg, ba := RestartGuard, Cluster(nodes), Ballot(1, a);
    MajorityIs(nodes);
    Joined(c, t, y);
    var s1 := SecondPrepare(nodes, a, c, t, y);
    var s2 := HeardPromises(g, cfg, s1, c, t, 0, Preparer(1, [1], ba, {c}), Acceptor(Ballot(1, c), ba, [1], 0), ba, [1]);
    OthersOutside(s1, s2, c);
    OnlyFirstStill(s1, s2, {c}, t + {y});
    s := HeardMajority(g, cfg, s2, c, PrepareReply(0, y, c, 1, 0, ba, [1]),
                       Preparer(1, [1], ba, {c} + t), Acceptor(Ballot(1, c), ba, [1], 0));
    OthersOutside(s2, s, c);
    OnlyFirstStill(s2, s, {c}, t + {y});
  }

  /** All copy the value; the voters crash and forget their promises to `c`. */
  lemma PromisesForgotten(nodes: set<NodeId>, a: NodeId, c: NodeId, t: set<NodeId>, y: NodeId) returns (s: Sys)
    requires Parties(nodes, a, c, t, y)
    ensures Reached(RestartGuard, Cluster(nodes), s) && s.nodes.Keys == nodes
    ensures Is(s, a, 1, Resting(1, true, NULL_BALLOT, 0), Promised(Ballot(1, a)))
    ensures Is(s, c, 1, Resting(1, true, Ballot(1, a), 0), Promised(Ballot(1, c)))
    ensures forall k :: k in t + {y} ==> Is(s, k, 1, FreshProposer(2), Promised(Ballot(1, a)))
  {
    hide Is, Reached, MajorityCount, Cluster, OnlyFirst;
    var g, cfg, ba := RestartGuard, Cluster(nodes), Ballot(1, a);
    MajorityIs(nodes);
    var s1 := SecondBallot(nodes, a, c, t, y);
    var s2 := OffersAll(g, cfg, s1, a, 0, t + {y, c}, 1, Resting(1, true, NULL_BALLOT, 0), Promised(ba));
    OnlyFirstStill(s1, s2, {}, t + {y});
    s := Copied(g, cfg, s2, c, Learn(0, a, c, ba, [1], 0), Accepter(1, [1], ba, {c}, 0), Accepted(Ballot(1, c), [1]));
    OthersOutside(s2, s, c);
    OnlyFirstStill(s2, s, {c}, t + {y});
    s := CopiedAndCrashedAll(g, cfg, s, t + {y}, a, ba, [1], FreshProposer(1), Acceptor(Ballot(1, c), ba, [1], 0));
  }

  /** A value of `n` is sent without Prepare in instance 1, and voted for. */
  lemma SentInOne(nodes: set<NodeId>, s: Sys, n: NodeId, v: Value, pre: Ballot, q: set<NodeId>, u: Acceptor)
    returns (s': Sys)
    requires Reached(RestartGuard, Cluster(nodes), s) && s.nodes.Keys == nodes && |nodes| >= 3
    requires n in nodes && q <= nodes && n !in q && v != []
    requires Is(s, n, 1, Resting(1, true, pre, 0), Promised(Ballot(1, n)))
    requires u.chk == 0 && Ballot(1, n).AtLeast(u.promise) && forall k :: k in q ==> Is(s, k, 1, FreshProposer(2), u)
    ensures Reached(RestartGuard, Cluster(nodes), s') && Outside(s, s', q + {n})
    ensures Is(s', n, 1, Accepter(1, v, pre, {n}, 1), Accepted(Ballot(1, n), v))
    ensures forall k :: k in q ==>
      Is(s', k, 1, FreshProposer(2), Accepted(Ballot(1, n), v)) && AcceptReply(1, k, n, 1, 0) in s'.sent
  {
    hide Is, Reached, MajorityCount, Cluster, LogsWith;
    var g, cfg := RestartGuard, Cluster(nodes);
    MajorityIs(nodes);
    s' := Skips(g, cfg, s, n, v, 1, Resting(1, true, pre, 0), Promised(Ballot(1, n)));
    s' := ToldAcceptAll(g, cfg, s', q, Accept(1, n, 1, v, 0), FreshProposer(2), u);
  }

  /** All but the last vote of a majority have been heard. */
  lemma VotedInOne(nodes: set<NodeId>, s: Sys, n: NodeId, v: Value, pre: Ballot, t: set<NodeId>, y: NodeId, u: Acceptor)
    returns (s': Sys)
    requires Reached(RestartGuard, Cluster(nodes), s) && s.nodes.Keys == nodes && |nodes| >= 3
    requires n in nodes && t <= nodes && y in nodes && n !in t && n != y && y !in t && |t| == Half(nodes) - 2 && v != []
    requires Is(s, n, 1, Resting(1, true, pre, 0), Promised(Ballot(1, n)))
    requires u.chk == 0 && Ballot(1, n).AtLeast(u.promise) && forall k :: k in t + {y} ==> Is(s, k, 1, FreshProposer(2), u)
    ensures Reached(RestartGuard, Cluster(nodes), s') && Outside(s, s', t + {y} + {n}) && s'.nodes.Keys == nodes
    ensures Is(s', n, 1, Accepter(1, v, pre, {n} + t, 1), Accepted(Ballot(1, n), v)) && AcceptReply(1, y, n, 1, 0) in s'.sent
    ensures forall k :: k in t + {y} ==> Is(s', k, 1, FreshProposer(2), Accepted(Ballot(1, n), v))
  {
    hide Is, Reached, MajorityCount, Cluster, OnlyFirst, LogsWith, Outside, Others;
    var g, cfg, q := RestartGuard, Cluster(nodes), t + {y};
    MajorityIs(nodes);
    Joined(n, t, y);
    var s1 := SentInOne(nodes, s, n, v, pre, q, u);
    OutsideKeys(s, s1, q + {n});
    s' := HeardAccepts(g, cfg, s1, n, t, 1, Accepter(1, v, pre, {n}, 1), Accepted(Ballot(1, n), v));
    OthersStand(s1, s', n, q, 1, FreshProposer(2), Accepted(Ballot(1, n), v));
    OutsideToo(s, s1, s', q + {n}, n);
    assert q + {n} + {n} == q + {n};
  }

  /** A majority has voted for it in instance 1: it is executed. */
  lemma ChosenInOne(nodes: set<NodeId>, s: Sys, n: NodeId, v: Value, pre: Ballot, t: set<NodeId>, y: NodeId, u: Acceptor)
    returns (s': Sys)
    requires Reached(RestartGuard, Cluster(nodes), s) && s.nodes.Keys == nodes && |nodes| >= 3
    requires n in nodes && t <= nodes && y in nodes && n !in t && n != y && y !in t && |t| == Half(nodes) - 2 && v != []
    requires Is(s, n, 1, Resting(1, true, pre, 0), Promised(Ballot(1, n)))
    requires u.chk == 0 && Ballot(1, n).AtLeast(u.promise) && forall k :: k in t + {y} ==> Is(s, k, 1, FreshProposer(2), u)
    ensures Reached(RestartGuard, Cluster(nodes), s') && Outside(s, s', t + {y} + {n}) && Learned(n, 1, v) in s'.learned
    ensures forall k :: k in t + {y} ==> Is(s', k, 1, FreshProposer(2), Accepted(Ballot(1, n), v))
  {
    hide Is, Reached, MajorityCount, Cluster, OnlyFirst, LogsWith, Outside, Others;
    var g, cfg, q := RestartGuard, Cluster(nodes), t + {y};
    MajorityIs(nodes);
    Joined(n, t, y);
    var s2 := VotedInOne(nodes, s, n, v, pre, t, y, u);
    s' := HeardChosen(g, cfg, s2, n, AcceptReply(1, y, n, 1, 0), Accepter(1, v, pre, {n} + t, 1), Accepted(Ballot(1, n), v));
    OthersStand(s2, s', n, q, 1, FreshProposer(2), Accepted(Ballot(1, n), v));
    OutsideToo(s, s2, s', q + {n}, n);
    assert q + {n} + {n} == q + {n};
  }

  /**
   * A crash right after a value was copied from another node's log can lose a promise: in
   * every cluster of three or more nodes a run then executes two values in instance 1.
   */
  lemma RestartGuardNeeded(nodes: set<NodeId>) returns (s: Sys)
    requires |nodes| >= 3
    ensures Reaches(RestartGuard, Cluster(nodes), s) && Disagree(s)
  {
    hide Is, Reaches;
    var a, c, t, y := SomeParties(nodes);
    s := PromisesForgotten(nodes, a, c, t, y);
    s := ChosenInOne(nodes, s, a, [4], NULL_BALLOT, t, y, Promised(Ballot(1, a)));
    s := ChosenInOne(nodes, s, c, [3], Ballot(1, a), t, y, Accepted(Ballot(1, a), [4]));
    assert Learned(a, 1, [4]) in s.learned && Learned(c, 1, [3]) in s.learned;
  }

  // ---------------------------------------------------------------- a checkpoint of a lost copy

  /** All but `a` have voted for 2, and `e` has executed it; `a` alone has voted for 1. */
  lemma ChosenWithout(nodes: set<NodeId>, a: NodeId, e: NodeId, t: set<NodeId>, y: NodeId) returns (s: Sys)
    requires Parties(nodes, a, e, t, y)
    ensures Reached(CheckpointGuard, Cluster(nodes), s) && s.nodes.Keys == nodes
    ensures Is(s, a, 0, Accepter(1, [1], NULL_BALLOT, {a}, 0), Accepted(Ballot(1, a), [1]))
    ensures s.nodes[a].log == map[0 := Record(Ballot(1, a), Ballot(1, a), [1], 0, true, None)]
    ensures Is(s, e, 1, Resting(1, true, NULL_BALLOT, 0), Promised(Ballot(1, e))) && Learned(e, 0, [2]) in s.learned
    ensures 0 in s.nodes[e].log && s.nodes[e].log[0].accepted == Ballot(1, e) && s.nodes[e].log[0].value == [2]
    ensures Is(s, y, 0, FreshProposer(1), Accepted(Ballot(1, e), [2]))
  {
    hide Is, Reached, MajorityCount, Cluster, OnlyFirst, LogsWith;
    var g, cfg := CheckpointGuard, Cluster(nodes);
    MajorityIs(nodes);
    Joined(e, t, y);
    s := FirstRound(g, nodes, a);
    s := OtherRound(g, nodes, s, a, e, t + {y}, t, y);
    s := HeardAccepts(g, cfg, s, e, t, 0, Accepter(1, [2], NULL_BALLOT, {e}, 0), Accepted(Ballot(1, e), [2]));
    s := HeardChosen(g, cfg, s, e, AcceptReply(0, y, e, 1, 0),
                     Accepter(1, [2], NULL_BALLOT, {e} + t, 0), Accepted(Ballot(1, e), [2]));
  }

  /** `a` copies the value and executes it; then the copy is lost, but not the checkpoint. */
  lemma CopyLost(nodes: set<NodeId>, a: NodeId, e: NodeId, t: set<NodeId>, y: NodeId) returns (s: Sys)
    requires Parties(nodes, a, e, t, y)
    ensures Reached(CheckpointGuard, Cluster(nodes), s) && s.nodes.Keys == nodes
    ensures Is(s, a, 1, FreshProposer(2), Promised(Ballot(1, a)))
    ensures s.nodes[a].log == map[0 := Record(Ballot(1, a), Ballot(1, a), [1], 0, true, None)]
    ensures Is(s, y, 0, FreshProposer(1), Accepted(Ballot(1, e), [2])) && Learned(e, 0, [2]) in s.learned
  {
    hide Is, Reached, MajorityCount, Cluster;
    var g, cfg, own := CheckpointGuard, Cluster(nodes), Record(Ballot(1, a), Ballot(1, a), [1], 0, true, None);
    MajorityIs(nodes);
    s := ChosenWithout(nodes, a, e, t, y);
    s := Offers(g, cfg, s, e, 0, a, 1, Resting(1, true, NULL_BALLOT, 0), Promised(Ballot(1, e)));
    assert OwnRecord(s.nodes[a].log, 0) == Some(own);
    s := Copied(g, cfg, s, a, Learn(0, e, a, Ballot(1, e), [2], 0),
                Accepter(1, [1], NULL_BALLOT, {a}, 0), Accepted(Ballot(1, a), [1]));
    assert {0} + {0} == {0};
    s := CrashesLosing(g, cfg, s, a, Resting(1, true, NULL_BALLOT, 0), Promised(Ballot(1, a)), own);
  }

  /**
   * A crash that loses the copy of an instance the checkpoint covers leaves the acceptor's
   * own record in its place, though that value was not chosen: in every cluster of three
   * or more nodes a run then executes both in instance 0.
   */
  lemma CheckpointGuardNeeded(nodes: set<NodeId>) returns (s: Sys)
    requires |nodes| >= 3
    ensures Reaches(CheckpointGuard, Cluster(nodes), s) && Disagree(s)
  {
    hide Is, Reaches, Cluster;
    var a, e, t, y := SomeParties(nodes);
    var g, cfg := CheckpointGuard, Cluster(nodes);
    MajorityIs(nodes);
    s := CopyLost(nodes, a, e, t, y);
    s := Offers(g, cfg, s, a, 0, y, 1, FreshProposer(2), Promised(Ballot(1, a)));
    s := Copied(g, cfg, s, y, Learn(0, a, y, Ballot(1, a), [1], 0), FreshProposer(1), Accepted(Ballot(1, e), [2]));
    assert Learned(y, 0, [1]) in s.learned && Learned(e, 0, [2]) in s.learned;
  }
}
