/** Recovery: whatever others have promised, two undisturbed rounds get a value executed. */
module PaxosRecovery {
  import opened PaxosTypes
  import opened NodeSpec
  import opened PaxosSystem
  import opened PaxosInvariant
  import opened PaxosRounds
  import opened PaxosTimers
  import opened PaxosProgress

  lemma LeadsBoth(cfg: Config, s: Sys, t: Sys, u: Sys)
    requires Leads(cfg, s, t) && Leads(cfg, t, u)
    ensures Leads(cfg, s, u)
  {
    hide GuardedStep;
    var p :| Stretch(cfg, p) && p[0] == s && p[|p| - 1] == t;
    var q :| Stretch(cfg, q) && q[0] == t && q[|q| - 1] == u;
    var r := p + q[1..];
    forall k | 0 <= k < |r| - 1
      ensures GuardedStep(cfg, r[k], r[k + 1])
    {
      if k < |p| - 1 {
        assert r[k] == p[k] && r[k + 1] == p[k + 1];
      } else {
        assert r[k] == q[k - |p| + 1] && r[k + 1] == q[k - |p| + 1 + 1];
      }
    }
    assert Stretch(cfg, r) && r[0] == s && r[|r| - 1] == u;
  }

  lemma CanExecuteFrom(cfg: Config, s: Sys, t: Sys, n: NodeId, i: nat, v: Value, id: nat)
    requires Leads(cfg, s, t) && CanExecute(cfg, t, n, i, v, id)
    ensures CanExecute(cfg, s, n, i, v, id)
  {
    hide Leads, SendsAtOnce;
    var u :| && Leads(cfg, t, u) && Learned(n, i, v) in u.learned
      && n in u.nodes && u.nodes[n].inst == i + 1 && SendsAtOnce(cfg, u.nodes[n], id);
    LeadsBoth(cfg, s, t, u);
  }

  // ---------------------------------------------------------------- a round that collects rejections

  /** `n` prepares in instance `i`, its Prepare is out, and nobody but its own acceptor has granted it. */
  predicate Trying(s: Sys, n: NodeId, i: nat, b: Ballot) {
    && b.node == n && b.id > 0 && n in s.nodes && Prepare(i, n, b.id) in s.sent
    && var x := s.nodes[n];
       && x.me == n && x.inst == i && x.prop.preparing && x.prop.id == b.id && x.prop.timeoutInst == i
       && |x.prop.counter.granted| <= 1 && NextBallot(x).AtLeast(x.acc.promise)
  }

  /** The proposer's next ballot has not sunk, and it has adopted nothing. */
  predicate Wiser(x: Node, y: Node) {
    NextBallot(y).AtLeast(NextBallot(x)) && y.acc == x.acc && y.prop.value == x.prop.value
  }

  /** A node that has promised more refuses, and names its promise. */
  lemma Refuses(cfg: Config, node: Node, m: Message)
    requires m.Prepare? && m.inst == node.inst && m.id > 0 && !Ballot(m.id, m.from).AtLeast(node.acc.promise)
    ensures node.acc.promise.id > 0
    ensures OnRequest(cfg, node, m) ==
      Send(Quiet(node), PrepareReply(node.inst, node.me, m.from, m.id, node.acc.promise.id, NULL_BALLOT, []))
  {
  }

  /** A rejection that is counted makes the next ballot higher. */
  lemma HearsRefusal(cfg: Config, x: Node, m: Message)
    requires m.PrepareReply? && m.rejectBy != 0 && m.inst == x.inst && x.prop.preparing && m.id == x.prop.id
    requires |x.prop.counter.granted| < MajorityCount(cfg)
    ensures var o := OnReply(cfg, x, m);
      && o.fx == NO_EFFECTS && Wiser(x, o.node) && NextBallot(o.node).id > m.rejectBy
      && o.node == x.(prop := o.node.prop) && o.node.prop.preparing && o.node.prop.id == x.prop.id
      && o.node.prop.timeoutInst == x.prop.timeoutInst && o.node.prop.counter.granted == x.prop.counter.granted
  {
    hide StartAcceptRound;
  }

  lemma Exceeds(b: Ballot, c: Ballot, p: Ballot)
    ensures b.AtLeast(c) && c.AtLeast(p) ==> b.AtLeast(p)
    ensures b.id > p.id ==> b.AtLeast(p)
  {
  }

  /** `a` is asked, unless the next ballot is high enough for it anyway. */
  lemma AskOne(cfg: Config, s0: Sys, s: Sys, n: NodeId, i: nat, b: Ballot, a: NodeId) returns (s': Sys)
    requires Goes(cfg, s0, s) && Wf(cfg, s) && n in cfg.nodes && Trying(s, n, i, b) && MajorityCount(cfg) > 1
    requires a in cfg.nodes && a != n && a in s.nodes && s.nodes[a].inst == i
    ensures Goes(cfg, s0, s') && Wf(cfg, s') && Trying(s', n, i, b) && OnlyMoved(s, s', n)
    ensures Wiser(s.nodes[n], s'.nodes[n]) && NextBallot(s'.nodes[n]).AtLeast(s.nodes[a].acc.promise)
  {
    hide Goes, OnRequest, OnReply, MajorityCount, NextBallot;
    var x, y := s.nodes[n], s.nodes[a];
    Reflexive(x);
    if NextBallot(x).AtLeast(y.acc.promise) {
      s' := s;
    } else {
      var m := Prepare(i, n, b.id);
      NextAtLeast(x);
      Exceeds(NextBallot(x), b, y.acc.promise);
      Refuses(cfg, y, m);
      var s1 := Deliver(cfg, s0, s, a, m);
      assert s1.nodes == s.nodes;
      var reply := PrepareReply(i, a, n, b.id, y.acc.promise.id, NULL_BALLOT, []);
      HearsRefusal(cfg, x, reply);
      s' := Deliver(cfg, s0, s1, n, reply);
      Exceeds(NextBallot(s'.nodes[n]), NextBallot(x), x.acc.promise);
      Exceeds(NextBallot(s'.nodes[n]), NextBallot(x), y.acc.promise);
    }
  }

  lemma Reflexive(x: Node)
    ensures Wiser(x, x)
  {
  }

  lemma NextAtLeast(x: Node)
    ensures NextBallot(x).AtLeast(Ballot(x.prop.id, x.me))
  {
  }

  lemma WiserBoth(x: Node, y: Node, z: Node)
    requires Wiser(x, y) && Wiser(y, z)
    ensures Wiser(x, z)
  {
    hide NextBallot;
  }

  /** All of them are in the instance. */
  predicate InInstance(s: Sys, order: seq<NodeId>, i: nat) {
    forall k :: 0 <= k < |order| ==> order[k] in s.nodes && s.nodes[order[k]].inst == i
  }

  lemma {:induction false} AskAll(cfg: Config, s0: Sys, s: Sys, n: NodeId, i: nat, b: Ballot, order: seq<NodeId>)
    returns (s': Sys)
    requires Goes(cfg, s0, s) && Wf(cfg, s) && n in cfg.nodes && Trying(s, n, i, b)
    requires Others(cfg, n, order) && InInstance(s, order, i) && (order != [] ==> MajorityCount(cfg) > 1)
    ensures Goes(cfg, s0, s') && Wf(cfg, s') && Trying(s', n, i, b) && OnlyMoved(s, s', n)
    ensures Wiser(s.nodes[n], s'.nodes[n]) && AllReady(s', order, i, NextBallot(s'.nodes[n]))
    decreases |order|
  {
    hide Goes, Trying, Wiser, NextBallot, MajorityCount;
    assert n in s.nodes by { TryingNode(s, n, i, b); }
    if order == [] {
      s' := s;
      Reflexive(s.nodes[n]);
    } else {
      var init, a := order[..|order| - 1], order[|order| - 1];
      var s1 := AskAll(cfg, s0, s, n, i, b, init);
      s' := AskOne(cfg, s0, s1, n, i, b, a);
      WiserBoth(s.nodes[n], s1.nodes[n], s'.nodes[n]);
      forall k | 0 <= k < |order|
        ensures Ready(s', order[k], i, NextBallot(s'.nodes[n]))
      {
        if k < |init| {
          assert init[k] == order[k] && Ready(s1, init[k], i, NextBallot(s1.nodes[n]));
          StaysReady(s1, s', n, init[k], i);
        }
      }
    }
  }

  lemma TryingNode(s: Sys, n: NodeId, i: nat, b: Ballot)
    requires Trying(s, n, i, b)
    ensures n in s.nodes && s.nodes[n].me == n && s.nodes[n].inst == i && s.nodes[n].prop.id > 0
    ensures s.nodes[n].prop.preparing && Live(s.nodes[n]) && NextBallot(s.nodes[n]).AtLeast(s.nodes[n].acc.promise)
  {
  }

  lemma StaysReady(s: Sys, s': Sys, n: NodeId, a: NodeId, i: nat)
    requires OnlyMoved(s, s', n) && a != n && n in s.nodes && n in s'.nodes && Wiser(s.nodes[n], s'.nodes[n])
    requires Ready(s, a, i, NextBallot(s.nodes[n]))
    ensures Ready(s', a, i, NextBallot(s'.nodes[n]))
  {
    Exceeds(NextBallot(s'.nodes[n]), NextBallot(s.nodes[n]), s.nodes[a].acc.promise);
  }

  lemma AllStayReady(cfg: Config, s: Sys, s': Sys, n: NodeId, order: seq<NodeId>, i: nat)
    requires OnlyMoved(s, s', n) && n in s.nodes && n in s'.nodes && Wiser(s.nodes[n], s'.nodes[n])
    requires Others(cfg, n, order) && AllReady(s, order, i, NextBallot(s.nodes[n]))
    ensures AllReady(s', order, i, NextBallot(s'.nodes[n]))
  {
    hide Wiser, NextBallot, OnlyMoved;
    forall k | 0 <= k < |order|
      ensures Ready(s', order[k], i, NextBallot(s'.nodes[n]))
    {
      assert Ready(s, order[k], i, NextBallot(s.nodes[n]));
      StaysReady(s, s', n, order[k], i);
    }
  }

  lemma StayInInstance(cfg: Config, s: Sys, s': Sys, n: NodeId, order: seq<NodeId>, i: nat)
    requires OnlyMoved(s, s', n) && Others(cfg, n, order)
    ensures InInstance(s, order, i) ==> InInstance(s', order, i)
    ensures Unvoted(s, order) ==> Unvoted(s', order)
  {
  }

  // ---------------------------------------------------------------- the first round begins

  lemma PreparePartTries(cfg: Config, x: Node)
    requires x.prop.id > 0
    ensures var o := PreparePart(cfg, x, x.prop.wasRejected);
      var b := NextBallot(x);
      && b.id > 0 && Prepare(x.inst, x.me, b.id) in o.fx.msgs
      && o.node.me == x.me && o.node.inst == x.inst && o.node.prop.preparing && o.node.prop.id == b.id
      && o.node.prop.timeoutInst == x.inst && NextBallot(o.node).AtLeast(o.node.acc.promise)
      && o.node.prop.counter.granted == (if b.AtLeast(x.acc.promise) then {x.me} else {})
      && o.node.acc.accepted == x.acc.accepted && o.node.acc.value == x.acc.value && Adopted(o.node) == Adopted(x)
  {
    assert {} + {x.me} == {x.me};
  }

  lemma StartsTrying(cfg: Config, s: Sys, n: NodeId)
    requires n in s.nodes && n in cfg.nodes && Wf(cfg, s) && s.nodes[n].me == n && s.nodes[n].prop.id > 0
    requires NextBallot(s.nodes[n]).AtLeast(s.nodes[n].acc.promise) ==> MajorityCount(cfg) > 1
    ensures var x := s.nodes[n];
      var s' := Apply(s, n, StartPrepareRound(cfg, x, x.prop.wasRejected));
      && OnlyMoved(s, s', n) && Trying(s', n, x.inst, NextBallot(x)) && Adopted(s'.nodes[n]) == Adopted(x)
      && s'.nodes[n].acc.accepted == x.acc.accepted
  {
    hide StartPrepareRound, PreparePart, StartAcceptRound, NextBallot, Adopted, MajorityCount;
    var x := s.nodes[n];
    PrepareRoundParts(cfg, x, x.prop.wasRejected);
    PreparePartTries(cfg, x);
    MajorityPositive(cfg);
    assert |{n}| == 1;
    NextMe(x);
  }

  lemma NextMe(x: Node)
    ensures NextBallot(x).node == x.me
  {
  }

  lemma MajorityPositive(cfg: Config)
    ensures MajorityCount(cfg) > 0
  {
  }

  lemma TimerMayFire(cfg: Config, s: Sys, n: NodeId)
    requires Wf(cfg, s) && n in cfg.nodes && n in s.nodes && (s.nodes[n].prop.preparing || s.nodes[n].prop.accepting)
    requires RepreparePermitted(s, n) && Live(s.nodes[n])
    ensures Enabled(cfg, s, n, EvTimeout) && Permitted(cfg, s, n, EvTimeout)
    ensures Run(cfg, s, n, EvTimeout) == StartPrepareRound(cfg, s.nodes[n], s.nodes[n].prop.wasRejected)
  {
    hide StartPrepareRound, RepreparePermitted;
  }

  /** The second round, with a ballot high enough for everybody. */
  lemma SecondRound(cfg: Config, s0: Sys, s: Sys, n: NodeId, i: nat, b: Ballot, order: seq<NodeId>, later: seq<NodeId>)
    returns (v: Value)
    requires Goes(cfg, s0, s) && Wf(cfg, s) && n in cfg.nodes && n in s.nodes && Trying(s, n, i, b)
    requires WithinReach(cfg, s, n, order, i, NextBallot(s.nodes[n]))
    requires WithinReach(cfg, s, n, later, i, NextBallot(s.nodes[n]))
    ensures CanExecute(cfg, s0, n, i, v, NextBallot(s.nodes[n]).id)
    ensures Unvoted(s, order) ==> v == Adopted(s.nodes[n])
  {
    hide *;
    var x := s.nodes[n];
    TryingNode(s, n, i, b);
    StartHere(cfg, s0, s);
    MayStart(cfg, s, n, EvTimeout);
    TimeoutStarts(cfg, x);
    var s' := Go(cfg, s, s, n, EvTimeout);
    GoesWf(cfg, s, s');
    v := RoundEnds(cfg, s, s', n, x, order, later);
    CanExecuteFrom(cfg, s0, s, n, i, v, NextBallot(x).id);
  }

  lemma StartHere(cfg: Config, s0: Sys, s: Sys)
    requires Goes(cfg, s0, s)
    ensures Goes(cfg, s, s) && Leads(cfg, s0, s)
  {
    hide Inv, Leads;
    LeadsNowhere(cfg, s);
  }

  /**
   * From any state of any run: a proposer whose timer runs, whose guard holds and who shares its
   * instance with a majority gets a value executed within two rounds, whatever the others
   * have promised and whatever it knows of that.  If none of that majority has accepted
   * anything the value is its own.
   */
  lemma TwoRoundsSuffice(cfg: Config, r: seq<Sys>, n: NodeId, order: seq<NodeId>, later: seq<NodeId>)
    returns (v: Value, id: nat)
    requires |r| > 0 && GuardedRun(cfg, r) && n in cfg.nodes && n in r[|r| - 1].nodes
    requires var x := r[|r| - 1].nodes[n];
      && (x.prop.preparing || x.prop.accepting) && RepreparePermitted(r[|r| - 1], n)
      && InInstance(r[|r| - 1], order, x.inst) && InInstance(r[|r| - 1], later, x.inst)
    requires Others(cfg, n, order) && Others(cfg, n, later) && |order| + 1 == |later| + 1 == MajorityCount(cfg)
    ensures var s := r[|r| - 1];
      && CanExecute(cfg, s, n, s.nodes[n].inst, v, id)
      && (Unvoted(s, order) && s.nodes[n].acc.accepted.id == 0 ==> v == s.nodes[n].prop.value)
  {
    hide *;
    var s := r[|r| - 1];
    var x := s.nodes[n];
    var i, b := x.inst, NextBallot(x);
    RunEnds(cfg, r, n);
    AdoptsOwn(x);
    if b.AtLeast(x.acc.promise) && AllReady(s, order, i, b) && AllReady(s, later, i, b) {
      InReach(cfg, s, n, order, i, b);
      InReach(cfg, s, n, later, i, b);
      v := TimeoutGetsThrough(cfg, r, n, order, later);
      id := b.id;
    } else {
      AloneIsReady(s, order, i, b);
      AloneIsReady(s, later, i, b);
      TimersLive(cfg, r, |r| - 1, n);
      TimerMayFire(cfg, s, n);
      StartsTrying(cfg, s, n);
      var s1 := Go(cfg, s, s, n, EvTimeout);
      GoesWf(cfg, s, s1);
      StayInInstance(cfg, s, s1, n, order, i);
      StayInInstance(cfg, s, s1, n, later, i);
      var s2 := AskAll(cfg, s, s1, n, i, b, order);
      StayInInstance(cfg, s1, s2, n, order, i);
      StayInInstance(cfg, s1, s2, n, later, i);
      var s3 := AskAll(cfg, s, s2, n, i, b, later);
      TryingNode(s1, n, i, b);
      TryingNode(s2, n, i, b);
      TryingNode(s3, n, i, b);
      AllStayReady(cfg, s2, s3, n, order, i);
      StayInInstance(cfg, s2, s3, n, order, i);
      InReach(cfg, s3, n, order, i, NextBallot(s3.nodes[n]));
      InReach(cfg, s3, n, later, i, NextBallot(s3.nodes[n]));
      id := NextBallot(s3.nodes[n]).id;
      v := SecondRound(cfg, s, s3, n, i, b, order, later);
      WiserAdopts(s1.nodes[n], s2.nodes[n]);
      WiserAdopts(s2.nodes[n], s3.nodes[n]);
    }
  }

  lemma WiserAdopts(x: Node, y: Node)
    requires Wiser(x, y)
    ensures Adopted(y) == Adopted(x)
  {
  }

  lemma InReach(cfg: Config, s: Sys, n: NodeId, order: seq<NodeId>, i: nat, b: Ballot)
    requires Others(cfg, n, order) && AllReady(s, order, i, b) && |order| + 1 == MajorityCount(cfg)
    ensures WithinReach(cfg, s, n, order, i, b)
  {
  }

  lemma AloneIsReady(s: Sys, order: seq<NodeId>, i: nat, b: Ballot)
    ensures order == [] ==> AllReady(s, order, i, b)
  {
  }
}
