/** Single steps of concrete schedules, for clusters whose checksum is constantly 0. */
module PaxosSchedules {
  import opened PaxosTypes
  import opened NodeSpec
  import opened PaxosSystem

  /** A step, or a run, in which every guard but `g` is observed. */
  ghost predicate StepWithout(g: Guard, cfg: Config, s: Sys, s': Sys) {
    exists n, e :: StepBy(cfg, s, s', n, e) && forall h :: h != g ==> Holds(h, cfg, s, n, e)
  }

  ghost predicate RunWithout(g: Guard, cfg: Config, r: seq<Sys>) {
    && |r| > 0
    && Init(cfg, r[0])
    && forall k :: 0 <= k < |r| - 1 ==> StepWithout(g, cfg, r[k], r[k + 1])
  }

  ghost predicate Reaches(g: Guard, cfg: Config, s: Sys) {
    exists r :: RunWithout(g, cfg, r) && r[|r| - 1] == s
  }

  function Cluster(nodes: set<NodeId>): Config {
    Config(nodes, (last, v) => 0)
  }

  ghost predicate NoChecksum(cfg: Config) {
    forall a, v :: cfg.crc(a, v) == 0
  }

  predicate Plain(n: Node) {
    n.lastChk == 0 && n.acc.chk == 0
  }

  ghost predicate Reached(g: Guard, cfg: Config, s: Sys) {
    Wf(cfg, s) && NoChecksum(cfg) && Reaches(g, cfg, s)
  }

  /** `s'` follows `s` by a step of `n` with outcome `o`. */
  predicate After(s: Sys, s': Sys, n: NodeId, o: Out) {
    && s'.nodes == s.nodes[n := o.node]
    && s'.sent == s.sent + o.fx.msgs
    && s'.learned == s.learned + o.fx.learned
  }

  lemma Start(g: Guard, nodes: set<NodeId>) returns (s: Sys)
    ensures Reached(g, Cluster(nodes), s)
    ensures s.nodes.Keys == nodes
    ensures forall n :: n in nodes ==> Is(s, n, 0, FreshProposer(1), FreshAcceptor()) && s.nodes[n].log == map[]
  {
    s := Sys(map n | n in nodes :: InitNode(n), {}, {}, {});
    assert RunWithout(g, Cluster(nodes), [s]);
  }

  lemma Extend(g: Guard, cfg: Config, s: Sys, s': Sys)
    requires Reaches(g, cfg, s) && StepWithout(g, cfg, s, s')
    ensures Reaches(g, cfg, s')
  {
    var r :| RunWithout(g, cfg, r) && r[|r| - 1] == s;
    var r' := r + [s'];
    forall k | 0 <= k < |r'| - 1
      ensures StepWithout(g, cfg, r'[k], r'[k + 1])
    {
      if k < |r| - 1 {
        assert r'[k] == r[k] && r'[k + 1] == r[k + 1];
      }
    }
    assert RunWithout(g, cfg, r') && r'[|r'| - 1] == s';
  }

  lemma Go(g: Guard, cfg: Config, s: Sys, n: NodeId, e: Event, o: Out) returns (s': Sys)
    requires Reached(g, cfg, s) && n in cfg.nodes && o.node.me == n
    requires Enabled(cfg, s, n, e) && Run(cfg, s, n, e) == o
    requires forall h :: h != g ==> Holds(h, cfg, s, n, e)
    ensures Reached(g, cfg, s') && After(s, s', n, o)
  {
    hide Run, Enabled, Holds, Reaches, StepWithout;
    s' := Apply(s, n, o);
    assert StepWithout(g, cfg, s, s') by {
      StepFrom(g, cfg, s, s', n, e);
    }
    Extend(g, cfg, s, s');
  }

  lemma StepFrom(g: Guard, cfg: Config, s: Sys, s': Sys, n: NodeId, e: Event)
    requires StepBy(cfg, s, s', n, e) && n in cfg.nodes && forall h :: h != g ==> Holds(h, cfg, s, n, e)
    ensures StepWithout(g, cfg, s, s')
  {
  }

  // ---------------------------------------------------------------- one node

  /** The acceptor's state is written to the log. */
  function Stored(n: Node): Node {
    n.(log := n.log[n.inst := Record(n.acc.promise, n.acc.accepted, n.acc.value, 0, true, None)])
  }

  function Promising(n: Node, b: Ballot): Node {
    Stored(n.(acc := n.acc.(promise := b)))
  }

  function Accepting(n: Node, b: Ballot, v: Value): Node {
    Stored(n.(acc := Acceptor(b, b, v, 0)))
  }

  function Learning(n: Node, v: Value): Node {
    n.(inst := n.inst + 1,
       acc := n.acc.(accepted := NULL_BALLOT, value := []),
       prop := ProposerForNewInstance(n.prop))
  }

  function PreValue(n: Node): Value {
    if n.acc.accepted.id > 0 then n.acc.value else []
  }

  lemma PersistPlain(cfg: Config, n: Node)
    requires NoChecksum(cfg) && Plain(n)
    ensures Persist(cfg, n) == Stored(n)
  {
  }

  /** A grant by the acceptor of another node. */
  lemma GrantsPrepare(cfg: Config, n: Node, m: Message)
    requires NoChecksum(cfg) && Plain(n) && m.Prepare? && m.from in cfg.nodes && m.inst == n.inst
    requires Ballot(m.id, m.from).AtLeast(n.acc.promise)
    ensures Receive(cfg, n, m) == Some(Out(Promising(n, Ballot(m.id, m.from)),
      Effects({PrepareReply(n.inst, n.me, m.from, m.id, 0, n.acc.accepted, PreValue(n))}, {}, {})))
  {
    var n1 := n.(acc := n.acc.(promise := Ballot(m.id, m.from)));
    PersistPlain(cfg, n1);
    hide Persist;
    var o := AcceptorReceive(cfg, n, m);
    assert Then(Quiet(n), o) == Out(o.node, o.fx);
  }

  lemma GrantsAccept(cfg: Config, n: Node, m: Message)
    requires NoChecksum(cfg) && Plain(n) && m.Accept? && m.from in cfg.nodes && m.inst == n.inst && m.chk == 0
    requires Ballot(m.id, m.from).AtLeast(n.acc.promise)
    ensures Receive(cfg, n, m) == Some(Out(Accepting(n, Ballot(m.id, m.from), m.value),
      Effects({AcceptReply(n.inst, n.me, m.from, m.id, 0)}, {Vote(n.me, n.inst, Ballot(m.id, m.from), m.value)}, {})))
  {
    var b := Ballot(m.id, m.from);
    var n1 := n.(acc := n.acc.(promise := b, accepted := b, value := m.value));
    PersistPlain(cfg, n1);
    hide Persist;
    var o := AcceptorReceive(cfg, n, m);
    assert Then(Quiet(n), o) == Out(o.node, o.fx);
  }

  /** The own acceptor grants the Accept; the round has not passed with one vote. */
  lemma AcceptRound(cfg: Config, n: Node)
    requires NoChecksum(cfg) && Plain(n) && MajorityCount(cfg) > 1
    requires Ballot(n.prop.id, n.me).AtLeast(n.acc.promise)
    ensures var b := Ballot(n.prop.id, n.me);
      var p := n.prop.(preparing := false, accepting := true, counter := Counter({n.me}, {}, {n.me}), timeoutInst := n.inst);
      StartAcceptRound(cfg, n) == Out(Accepting(n.(prop := p), b, n.prop.value),
        Effects({Accept(n.inst, n.me, n.prop.id, n.prop.value, 0)}, {Vote(n.me, n.inst, b, n.prop.value)}, {}))
  {
    var b := Ballot(n.prop.id, n.me);
    var n0 := StartAccept(n);
    PersistPlain(cfg, n0.(acc := n0.acc.(promise := b, accepted := b, value := n.prop.value)));
    hide Persist;
    var r := AcceptorOnAccept(cfg, n0, n.me, n.prop.id, n.prop.value);
    assert |{n.me}| == 1;
    assert {} + {n.me} == {n.me};
    var n1 := RecordAcceptReply(r.node, n.me, 0);
    assert OnAcceptReply(cfg, r.node, n.me, n.prop.id, 0) == Quiet(n1);
  }

  /** The own acceptor grants the Prepare; one promise is not a majority. */
  lemma PrepareRound(cfg: Config, n: Node, needNew: bool)
    requires NoChecksum(cfg) && Plain(n) && MajorityCount(cfg) > 1
    requires Ballot(StartPrepare(n, needNew).prop.id, n.me).AtLeast(n.acc.promise)
    ensures var n1 := StartPrepare(n, needNew);
      StartPrepareRound(cfg, n, needNew) ==
        Out(RecordPrepareReply(Promising(n1, Ballot(n1.prop.id, n.me)), n.me, 0, n.acc.accepted, PreValue(n)),
            Effects({Prepare(n.inst, n.me, n1.prop.id)}, {}, {}))
  {
    var n1 := StartPrepare(n, needNew);
    var b := Ballot(n1.prop.id, n.me);
    PersistPlain(cfg, n1.(acc := n1.acc.(promise := b)));
    var r := AcceptorOnPrepare(cfg, n1, n.me, n1.prop.id);
    assert r.node == Promising(n1, b) by { hide Persist; }
    OwnPromise(cfg, r.node, n.acc.accepted, PreValue(n), 0);
  }

  /** The own acceptor has promised more in the meantime. */
  lemma PrepareRoundRejected(cfg: Config, n: Node)
    requires MajorityCount(cfg) > 1 && !n.prop.wasRejected && n.acc.promise.id > 0
    requires !Ballot(n.prop.id, n.me).AtLeast(n.acc.promise)
    ensures StartPrepareRound(cfg, n, false) ==
      Out(RecordPrepareReply(StartPrepare(n, false), n.me, n.acc.promise.id, NULL_BALLOT, []),
          Effects({Prepare(n.inst, n.me, n.prop.id)}, {}, {}))
  {
    OwnPromise(cfg, StartPrepare(n, false), NULL_BALLOT, [], n.acc.promise.id);
  }

  lemma OwnPromise(cfg: Config, n: Node, pre: Ballot, v: Value, rejectBy: nat)
    requires MajorityCount(cfg) > 1 && n.prop.counter == NO_COUNT && n.prop.preparing
    ensures OnPrepareReply(cfg, n, n.me, n.prop.id, rejectBy, pre, v) ==
      Quiet(RecordPrepareReply(n, n.me, rejectBy, pre, v))
  {
    assert |{n.me}| == 1;
    assert {} + {n.me} == {n.me};
  }

  lemma PrepareReplyCounts(cfg: Config, n: Node, m: Message)
    requires m.PrepareReply? && m.from in cfg.nodes && m.inst == n.inst && n.prop.preparing && m.id == n.prop.id
    requires |n.prop.counter.granted + {m.from}| < MajorityCount(cfg)
    ensures Receive(cfg, n, m) == Some(Quiet(RecordPrepareReply(n, m.from, m.rejectBy, m.pre, m.value)))
  {
    if m.rejectBy != 0 {
      FewerGranted(n.prop.counter.granted, m.from);
    }
  }

  lemma FewerGranted(a: set<NodeId>, x: NodeId)
    ensures |a| <= |a + {x}|
  {
    if x in a {
      assert a + {x} == a;
    }
  }

  /** A majority has promised: the accept round follows at once. */
  lemma PrepareReplyPasses(cfg: Config, n: Node, m: Message)
    requires m.PrepareReply? && m.from in cfg.nodes && m.inst == n.inst && n.prop.preparing && m.id == n.prop.id
    requires m.rejectBy == 0 && |n.prop.counter.granted + {m.from}| >= MajorityCount(cfg)
    ensures var n1 := RecordPrepareReply(n, m.from, 0, m.pre, m.value);
      Receive(cfg, n, m) == Some(StartAcceptRound(cfg, n1.(prop := n1.prop.(canSkip := true))))
  {
    hide StartAcceptRound;
  }

  lemma AcceptReplyCounts(cfg: Config, n: Node, m: Message)
    requires m.AcceptReply? && m.from in cfg.nodes && m.inst == n.inst && n.prop.accepting && m.id == n.prop.id
    requires m.rejectBy == 0 && |n.prop.counter.granted + {m.from}| < MajorityCount(cfg)
    ensures Receive(cfg, n, m) == Some(Quiet(RecordAcceptReply(n, m.from, 0)))
  {
  }

  /** A majority has accepted, the own acceptor among them: the value is executed. */
  lemma AcceptReplyPasses(cfg: Config, n: Node, m: Message)
    requires Plain(n)
    requires m.AcceptReply? && m.from in cfg.nodes && m.inst == n.inst && n.prop.accepting && m.id == n.prop.id
    requires m.rejectBy == 0 && |n.prop.counter.granted + {m.from}| >= MajorityCount(cfg)
    requires n.acc.accepted == Ballot(n.prop.id, n.me) && n.prop.id > 0
    ensures Receive(cfg, n, m) == Some(Out(
      Learning(RecordAcceptReply(n, m.from, 0), n.acc.value),
      Effects({Success(n.inst, n.me, n.prop.id, 0)}, {}, {Learned(n.me, n.inst, n.acc.value)})))
  {
    var n1 := RecordAcceptReply(n, m.from, 0);
    var o := Succeed(n1);
    assert o.fx == Effects({Success(n.inst, n.me, n.prop.id, 0)}, {}, {Learned(n.me, n.inst, n.acc.value)});
    assert o.node == Learning(n1, n.acc.value);
  }

  lemma HearsSuccess(cfg: Config, n: Node, m: Message)
    requires Plain(n) && m.Success? && m.chk == 0 && m.inst == n.inst
    requires n.acc.accepted == Ballot(m.id, m.from) && m.id > 0
    ensures Receive(cfg, n, m) == Some(Out(
      Learning(n, n.acc.value), Effects({}, {}, {Learned(n.me, n.inst, n.acc.value)})))
  {
  }

  lemma CopiesValue(cfg: Config, n: Node, m: Message)
    requires NoChecksum(cfg) && Plain(n) && m.Learn? && m.chk == 0 && m.inst == n.inst
    ensures Receive(cfg, n, m) == Some(Out(
      Learning(n.(log := n.log[m.inst := Record(m.ballot, m.ballot, m.value, 0, false, OwnRecord(n.log, m.inst))]), m.value),
      Effects({}, {}, {Learned(n.me, n.inst, m.value)})))
  {
  }

  // ---------------------------------------------------------------- one step of the cluster

  lemma Deliver(g: Guard, cfg: Config, s: Sys, n: NodeId, m: Message, o: Out) returns (s': Sys)
    requires Reached(g, cfg, s) && n in cfg.nodes && n in s.nodes && m in s.sent && Addressed(m, n)
    requires Receive(cfg, s.nodes[n], m) == Some(o) && o.node.me == n
    requires g.ShortcutGuard? || ShortcutPermitted(cfg, s.nodes[n], m)
    ensures Reached(g, cfg, s') && After(s, s', n, o)
  {
    hide Receive, Reaches, ShortcutPermitted;
    s' := Go(g, cfg, s, n, EvDeliver(m), o);
  }

  lemma Offer(g: Guard, cfg: Config, s: Sys, n: NodeId, v: Value, o: Out) returns (s': Sys)
    requires Reached(g, cfg, s) && n in cfg.nodes && n in s.nodes && v != []
    requires NewValue(cfg, s.nodes[n], v) == o && o.node.me == n
    requires (s.nodes[n].prop.canSkip && !s.nodes[n].prop.wasRejected)
      || Ballot(s.nodes[n].prop.id, n).AtLeast(s.nodes[n].acc.promise)
    ensures Reached(g, cfg, s') && After(s, s', n, o)
  {
    hide NewValue, Reaches;
    s' := Go(g, cfg, s, n, EvNewValue(v), o);
  }

  lemma Retry(g: Guard, cfg: Config, s: Sys, n: NodeId, o: Out) returns (s': Sys)
    requires Reached(g, cfg, s) && n in cfg.nodes && n in s.nodes && g.ReprepareGuard?
    requires s.nodes[n].prop.accepting && OnTimeout(cfg, s.nodes[n]) == o && o.node.me == n
    ensures Reached(g, cfg, s') && After(s, s', n, o)
  {
    hide OnTimeout, Reaches;
    s' := Go(g, cfg, s, n, EvTimeout, o);
  }

  lemma OfferStored(g: Guard, cfg: Config, s: Sys, n: NodeId, inst: nat, to: NodeId) returns (s': Sys)
    requires Reached(g, cfg, s) && n in cfg.nodes && n in s.nodes && s.nodes[n].me == n && to != n
    requires inst < s.nodes[n].inst && inst in s.nodes[n].log
    ensures Reached(g, cfg, s')
    ensures var r := s.nodes[n].log[inst];
      After(s, s', n, Out(s.nodes[n], Effects({Learn(inst, n, to, r.accepted, r.value, 0)}, {}, {})))
  {
    hide Reaches;
    s' := Go(g, cfg, s, n, EvSendOne(inst, to, false), SendOne(s.nodes[n], inst, to, false));
  }

  lemma Crash(g: Guard, cfg: Config, s: Sys, n: NodeId, k: nat, next: nat) returns (s': Sys)
    requires Reached(g, cfg, s) && n in cfg.nodes && n in s.nodes && s.nodes[n].me == n && g.RestartGuard?
    requires Newest(s.nodes[n], k) && next <= s.nodes[n].inst && (next <= k + 1 || k == 0)
    ensures Reached(g, cfg, s') && After(s, s', n, Reopen(s.nodes[n], k, next))
  {
    hide Reaches;
    s' := Go(g, cfg, s, n, EvRestart(None, k, next), Reopen(s.nodes[n], k, next));
  }

  // ---------------------------------------------------------------- steps between known states

  predicate Is(s: Sys, n: NodeId, inst: nat, p: Proposer, a: Acceptor) {
    && n in s.nodes
    && var x := s.nodes[n]; x.me == n && x.inst == inst && x.prop == p && x.acc == a && x.lastChk == 0
  }

  /** All nodes but `n` stand; nothing sent or executed is forgotten. */
  ghost predicate Others(s: Sys, s': Sys, n: NodeId) {
    && s'.nodes.Keys == s.nodes.Keys
    && (forall k, i, p, a :: k != n && Is(s, k, i, p, a) ==> Is(s', k, i, p, a))
    && (forall k :: k in s.nodes && k != n ==> s'.nodes[k].log == s.nodes[k].log)
    && s.sent <= s'.sent && s.learned <= s'.learned
  }

  function Counted(p: Proposer, from: NodeId, pre: Ballot, v: Value): Proposer {
    AddPreAccept(p.(counter := Count(p.counter, from, 0)), pre, v)
  }

  function InRound(p: Proposer, n: NodeId, inst: nat): Proposer {
    p.(preparing := false, accepting := true, counter := Counter({n}, {}, {n}), timeoutInst := inst)
  }

  function Rested(p: Proposer): Proposer {
    ProposerForNewInstance(p)
  }

  lemma ToldPrepare(g: Guard, cfg: Config, s: Sys, n: NodeId, m: Message, p: Proposer, a: Acceptor) returns (s': Sys)
    requires Reached(g, cfg, s) && n in cfg.nodes && m in s.sent && m.Prepare? && m.from != n && m.from in cfg.nodes
    requires Is(s, n, m.inst, p, a) && a.chk == 0 && Ballot(m.id, m.from).AtLeast(a.promise)
    ensures Reached(g, cfg, s') && Others(s, s', n) && Is(s', n, m.inst, p, a.(promise := Ballot(m.id, m.from)))
    ensures PrepareReply(m.inst, n, m.from, m.id, 0, a.accepted, if a.accepted.id > 0 then a.value else []) in s'.sent
    ensures s'.nodes[n].log.Keys == s.nodes[n].log.Keys + {m.inst}
  {
    hide Reaches, Receive;
    GrantsPrepare(cfg, s.nodes[n], m);
    s' := Deliver(g, cfg, s, n, m, Receive(cfg, s.nodes[n], m).value);
  }

  lemma ToldAccept(g: Guard, cfg: Config, s: Sys, n: NodeId, m: Message, p: Proposer, a: Acceptor) returns (s': Sys)
    requires Reached(g, cfg, s) && n in cfg.nodes && m in s.sent && m.Accept? && m.from != n && m.from in cfg.nodes
    requires Is(s, n, m.inst, p, a) && a.chk == 0 && m.chk == 0 && Ballot(m.id, m.from).AtLeast(a.promise)
    ensures Reached(g, cfg, s') && Others(s, s', n)
    ensures var b := Ballot(m.id, m.from); Is(s', n, m.inst, p, Acceptor(b, b, m.value, 0))
    ensures AcceptReply(m.inst, n, m.from, m.id, 0) in s'.sent
    ensures s'.nodes[n].log.Keys == s.nodes[n].log.Keys + {m.inst}
  {
    hide Reaches, Receive;
    GrantsAccept(cfg, s.nodes[n], m);
    s' := Deliver(g, cfg, s, n, m, Receive(cfg, s.nodes[n], m).value);
  }

  lemma HeardPromise(g: Guard, cfg: Config, s: Sys, n: NodeId, m: Message, p: Proposer, a: Acceptor) returns (s': Sys)
    requires Reached(g, cfg, s) && n in cfg.nodes && m in s.sent && m.PrepareReply? && m.to == n && m.from != n
    requires m.from in cfg.nodes && Is(s, n, m.inst, p, a) && p.preparing && m.id == p.id && m.rejectBy == 0
    requires |p.counter.granted + {m.from}| < MajorityCount(cfg)
    ensures Reached(g, cfg, s') && Others(s, s', n) && Is(s', n, m.inst, Counted(p, m.from, m.pre, m.value), a)
    ensures s'.nodes[n].log == s.nodes[n].log
  {
    hide Reaches, Receive;
    PrepareReplyCounts(cfg, s.nodes[n], m);
    s' := Deliver(g, cfg, s, n, m, Receive(cfg, s.nodes[n], m).value);
  }

  /** The promise that makes the majority; the own acceptor then accepts. */
  lemma HeardMajority(g: Guard, cfg: Config, s: Sys, n: NodeId, m: Message, p: Proposer, a: Acceptor) returns (s': Sys)
    requires Reached(g, cfg, s) && n in cfg.nodes && m in s.sent && m.PrepareReply? && m.to == n && m.from != n
    requires m.from in cfg.nodes && Is(s, n, m.inst, p, a) && p.preparing && m.id == p.id && m.rejectBy == 0
    requires |p.counter.granted + {m.from}| >= MajorityCount(cfg) > 1 && a.chk == 0
    requires Ballot(p.id, n).AtLeast(a.promise)
    ensures Reached(g, cfg, s') && Others(s, s', n)
    ensures var b := Ballot(p.id, n);
      var q := Counted(p, m.from, m.pre, m.value);
      && Is(s', n, m.inst, InRound(q.(canSkip := true), n, m.inst), Acceptor(b, b, q.value, 0))
      && Accept(m.inst, n, p.id, q.value, 0) in s'.sent
      && s'.nodes[n].log == s.nodes[n].log[m.inst := Record(b, b, q.value, 0, true, None)]
  {
    hide Reaches, Receive, StartAcceptRound;
    PrepareReplyPasses(cfg, s.nodes[n], m);
    var n1 := RecordPrepareReply(s.nodes[n], m.from, 0, m.pre, m.value);
    AcceptRound(cfg, n1.(prop := n1.prop.(canSkip := true)));
    s' := Deliver(g, cfg, s, n, m, Receive(cfg, s.nodes[n], m).value);
  }

  lemma HeardAccept(g: Guard, cfg: Config, s: Sys, n: NodeId, m: Message, p: Proposer, a: Acceptor) returns (s': Sys)
    requires Reached(g, cfg, s) && n in cfg.nodes && m in s.sent && m.AcceptReply? && m.to == n && m.from != n
    requires m.from in cfg.nodes && Is(s, n, m.inst, p, a) && p.accepting && m.id == p.id && m.rejectBy == 0
    requires |p.counter.granted + {m.from}| < MajorityCount(cfg)
    ensures Reached(g, cfg, s') && Others(s, s', n)
    ensures Is(s', n, m.inst, p.(counter := Count(p.counter, m.from, 0)), a) && s'.nodes[n].log == s.nodes[n].log
  {
    hide Reaches, Receive;
    AcceptReplyCounts(cfg, s.nodes[n], m);
    s' := Deliver(g, cfg, s, n, m, Receive(cfg, s.nodes[n], m).value);
  }

  /** The vote that makes the majority: the own accepted value is executed. */
  lemma HeardChosen(g: Guard, cfg: Config, s: Sys, n: NodeId, m: Message, p: Proposer, a: Acceptor) returns (s': Sys)
    requires Reached(g, cfg, s) && n in cfg.nodes && m in s.sent && m.AcceptReply? && m.to == n && m.from != n
    requires m.from in cfg.nodes && Is(s, n, m.inst, p, a) && p.accepting && m.id == p.id && m.rejectBy == 0
    requires |p.counter.granted + {m.from}| >= MajorityCount(cfg) && a.chk == 0
    requires a.accepted == Ballot(p.id, n) && p.id > 0
    ensures Reached(g, cfg, s') && Others(s, s', n)
    ensures Is(s', n, m.inst + 1, Rested(p), a.(accepted := NULL_BALLOT, value := []))
    ensures Learned(n, m.inst, a.value) in s'.learned && Success(m.inst, n, p.id, 0) in s'.sent
    ensures s'.nodes[n].log == s.nodes[n].log
  {
    hide Reaches, Receive;
    AcceptReplyPasses(cfg, s.nodes[n], m);
    s' := Deliver(g, cfg, s, n, m, Receive(cfg, s.nodes[n], m).value);
  }

  lemma HeardSuccess(g: Guard, cfg: Config, s: Sys, n: NodeId, m: Message, p: Proposer, a: Acceptor) returns (s': Sys)
    requires Reached(g, cfg, s) && n in cfg.nodes && m in s.sent && m.Success? && m.from != n && m.chk == 0
    requires Is(s, n, m.inst, p, a) && a.chk == 0 && a.accepted == Ballot(m.id, m.from) && m.id > 0
    ensures Reached(g, cfg, s') && Learned(n, m.inst, a.value) in s'.learned && s.learned <= s'.learned
  {
    hide Reaches, Receive;
    HearsSuccess(cfg, s.nodes[n], m);
    s' := Deliver(g, cfg, s, n, m, Receive(cfg, s.nodes[n], m).value);
  }

  lemma Copied(g: Guard, cfg: Config, s: Sys, n: NodeId, m: Message, p: Proposer, a: Acceptor) returns (s': Sys)
    requires Reached(g, cfg, s) && n in cfg.nodes && m in s.sent && m.Learn? && m.to == n && m.from != n && m.chk == 0
    requires Is(s, n, m.inst, p, a) && a.chk == 0
    ensures Reached(g, cfg, s') && Others(s, s', n)
    ensures Is(s', n, m.inst + 1, Rested(p), a.(accepted := NULL_BALLOT, value := []))
    ensures Learned(n, m.inst, m.value) in s'.learned
    ensures s'.nodes[n].log ==
      s.nodes[n].log[m.inst := Record(m.ballot, m.ballot, m.value, 0, false, OwnRecord(s.nodes[n].log, m.inst))]
  {
    hide Reaches, Receive;
    CopiesValue(cfg, s.nodes[n], m);
    s' := Deliver(g, cfg, s, n, m, Receive(cfg, s.nodes[n], m).value);
  }

  /** A new value, by way of Prepare; the own acceptor promises first. */
  lemma Proposes(g: Guard, cfg: Config, s: Sys, n: NodeId, v: Value, inst: nat, p: Proposer, a: Acceptor) returns (s': Sys)
    requires Reached(g, cfg, s) && n in cfg.nodes && v != [] && MajorityCount(cfg) > 1
    requires Is(s, n, inst, p, a) && a.chk == 0 && p.value == [] && !p.canSkip && !p.wasRejected
    requires Ballot(p.id, n).AtLeast(a.promise)
    ensures Reached(g, cfg, s') && Others(s, s', n) && Prepare(inst, n, p.id) in s'.sent
    ensures var q := p.(value := v, preparing := true, accepting := false, highestPre := NULL_BALLOT,
                        counter := NO_COUNT, timeoutInst := inst);
      var u := if a.accepted.id > 0 then a.value else [];
      Is(s', n, inst, Counted(q, n, a.accepted, u), a.(promise := Ballot(p.id, n)))
    ensures s'.nodes[n].log.Keys == s.nodes[n].log.Keys + {inst}
  {
    hide Reaches, StartPrepareRound;
    PrepareRound(cfg, OfferValue(s.nodes[n], v), false);
    s' := Offer(g, cfg, s, n, v, NewValue(cfg, s.nodes[n], v));
  }

  /** A new value without Prepare. */
  lemma Skips(g: Guard, cfg: Config, s: Sys, n: NodeId, v: Value, inst: nat, p: Proposer, a: Acceptor) returns (s': Sys)
    requires Reached(g, cfg, s) && n in cfg.nodes && v != [] && MajorityCount(cfg) > 1
    requires Is(s, n, inst, p, a) && a.chk == 0 && p.value == [] && p.canSkip && !p.wasRejected
    requires Ballot(p.id, n).AtLeast(a.promise)
    ensures Reached(g, cfg, s') && Others(s, s', n) && Accept(inst, n, p.id, v, 0) in s'.sent
    ensures var b := Ballot(p.id, n);
      Is(s', n, inst, InRound(p.(value := v), n, inst), Acceptor(b, b, v, 0))
  {
    hide Reaches, StartAcceptRound;
    AcceptRound(cfg, OfferValue(s.nodes[n], v));
    s' := Offer(g, cfg, s, n, v, NewValue(cfg, s.nodes[n], v));
  }

  /** The accept timer fires after the own acceptor has promised more: the ballot is prepared again. */
  lemma PreparesAgain(g: Guard, cfg: Config, s: Sys, n: NodeId, inst: nat, p: Proposer, a: Acceptor) returns (s': Sys)
    requires Reached(g, cfg, s) && n in cfg.nodes && g.ReprepareGuard? && MajorityCount(cfg) > 1
    requires Is(s, n, inst, p, a) && p.accepting && !p.wasRejected && p.timeoutInst == inst && a.promise.id > 0
    requires !Ballot(p.id, n).AtLeast(a.promise)
    ensures Reached(g, cfg, s') && Others(s, s', n) && Prepare(inst, n, p.id) in s'.sent
    ensures Is(s', n, inst,
      NoteReject(p.(preparing := true, accepting := false, canSkip := false, highestPre := NULL_BALLOT,
                    counter := Counter({n}, {n}, {})), a.promise.id), a)
  {
    hide Reaches, StartPrepareRound;
    PrepareRoundRejected(cfg, s.nodes[n]);
    assert {} + {n} == {n};
    s' := Retry(g, cfg, s, n, OnTimeout(cfg, s.nodes[n]));
  }

  /** The own acceptor has promised more: the Accept goes out without the own vote. */
  lemma AcceptRoundRejected(cfg: Config, n: Node)
    requires n.lastChk == 0 && MajorityCount(cfg) > 1 && n.acc.promise.id > 0
    requires !Ballot(n.prop.id, n.me).AtLeast(n.acc.promise)
    ensures var p := NoteReject(n.prop.(preparing := false, accepting := true, timeoutInst := n.inst,
                                        counter := Counter({n.me}, {n.me}, {})), n.acc.promise.id);
      StartAcceptRound(cfg, n) ==
        Out(n.(prop := p), Effects({Accept(n.inst, n.me, n.prop.id, n.prop.value, 0)}, {}, {}))
  {
    var n0 := StartAccept(n);
    assert {} + {n.me} == {n.me};
    var n1 := RecordAcceptReply(n0, n.me, n.acc.promise.id);
    assert OnAcceptReply(cfg, n0, n.me, n.prop.id, n.acc.promise.id) == Quiet(n1);
  }

  lemma HeardMajorityRejected(g: Guard, cfg: Config, s: Sys, n: NodeId, m: Message, p: Proposer, a: Acceptor)
    returns (s': Sys)
    requires Reached(g, cfg, s) && n in cfg.nodes && m in s.sent && m.PrepareReply? && m.to == n && m.from != n
    requires m.from in cfg.nodes && Is(s, n, m.inst, p, a) && p.preparing && m.id == p.id && m.rejectBy == 0
    requires |p.counter.granted + {m.from}| >= MajorityCount(cfg) > 1
    requires !Ballot(p.id, n).AtLeast(a.promise) && a.promise.id > 0
    ensures Reached(g, cfg, s') && Others(s, s', n)
    ensures var q := Counted(p, m.from, m.pre, m.value);
      && Is(s', n, m.inst,
            NoteReject(q.(preparing := false, accepting := true, canSkip := true, timeoutInst := m.inst,
                          counter := Counter({n}, {n}, {})), a.promise.id), a)
      && Accept(m.inst, n, p.id, q.value, 0) in s'.sent
  {
    hide Reaches, Receive, StartAcceptRound;
    PrepareReplyPasses(cfg, s.nodes[n], m);
    var n1 := RecordPrepareReply(s.nodes[n], m.from, 0, m.pre, m.value);
    AcceptRoundRejected(cfg, n1.(prop := n1.prop.(canSkip := true)));
    s' := Deliver(g, cfg, s, n, m, Receive(cfg, s.nodes[n], m).value);
  }

  /** A value of the log is offered to `to`. */
  lemma Offers(g: Guard, cfg: Config, s: Sys, n: NodeId, i: nat, to: NodeId, inst: nat, p: Proposer, a: Acceptor)
    returns (s': Sys)
    requires Reached(g, cfg, s) && n in cfg.nodes && to != n && Is(s, n, inst, p, a) && i < inst && i in s.nodes[n].log
    ensures Reached(g, cfg, s') && Others(s, s', n) && Is(s', n, inst, p, a) && s'.nodes[n].log == s.nodes[n].log
    ensures var r := s.nodes[n].log[i]; Learn(i, n, to, r.accepted, r.value, 0) in s'.sent
  {
    hide Reaches;
    s' := OfferStored(g, cfg, s, n, i, to);
  }

  /** A crash of a node whose only record is a copied value of instance 0, with a checkpoint of it. */
  lemma Crashes(g: Guard, cfg: Config, s: Sys, n: NodeId, p: Proposer, a: Acceptor, b: Ballot) returns (s': Sys)
    requires Reached(g, cfg, s) && n in cfg.nodes && g.RestartGuard? && Is(s, n, 1, p, a)
    requires s.nodes[n].log.Keys == {0} && s.nodes[n].log[0].promise == b && s.nodes[n].log[0].chk == 0
    ensures Reached(g, cfg, s') && Others(s, s', n)
    ensures Is(s', n, 1, FreshProposer(b.id + 1), Acceptor(b, NULL_BALLOT, [], 0))
  {
    hide Reaches;
    assert 0 in s.nodes[n].log.Keys;
    assert forall j :: j in s.nodes[n].log ==> j in s.nodes[n].log.Keys;
    s' := Crash(g, cfg, s, n, 0, 1);
  }

  /** A crash that loses a copy of instance 0, after a checkpoint of it. */
  lemma CrashesLosing(g: Guard, cfg: Config, s: Sys, n: NodeId, p: Proposer, a: Acceptor, own: Record) returns (s': Sys)
    requires Reached(g, cfg, s) && n in cfg.nodes && g.CheckpointGuard? && Is(s, n, 1, p, a)
    requires s.nodes[n].log.Keys == {0} && !s.nodes[n].log[0].persisted && s.nodes[n].log[0].under == Some(own)
    requires own.persisted && own.chk == 0
    ensures Reached(g, cfg, s') && Others(s, s', n) && s'.nodes[n].log == map[0 := own]
    ensures Is(s', n, 1, FreshProposer(own.promise.id + 1), Acceptor(own.promise, NULL_BALLOT, [], 0))
  {
    hide Reaches;
    var x := s.nodes[n];
    assert forall j :: j in x.log ==> j in x.log.Keys;
    assert 0 in x.log.Keys;
    assert Survivor(x, Some(0)).log == map[0 := own];
    assert Newest(Survivor(x, Some(0)), 0);
    s' := Go(g, cfg, s, n, EvRestart(Some(0), 0, 1), Reopen(Survivor(x, Some(0)), 0, 1));
  }

  /** An Accept of the next instance is taken as a success notice for this one. */
  lemma HeardNext(g: Guard, cfg: Config, s: Sys, n: NodeId, m: Message, inst: nat, p: Proposer, a: Acceptor) returns (s': Sys)
    requires Reached(g, cfg, s) && n in cfg.nodes && m in s.sent && m.Accept? && m.from != n && m.chk == 0
    requires m.from in cfg.nodes && m.inst == inst + 1 && g.ShortcutGuard?
    requires Is(s, n, inst, p, a) && a.accepted == Ballot(m.id, m.from) && m.id > 0
    ensures Reached(g, cfg, s') && Learned(n, inst, a.value) in s'.learned && s.learned <= s'.learned
  {
    hide Reaches;
    var x := s.nodes[n];
    var o := LearnBySuccess(x, x.inst, m.from, m.id);
    assert o.fx.learned == {Learned(n, inst, a.value)};
    assert Receive(cfg, x, m) == Some(Then(o, AcceptorReceive(cfg, o.node, m)));
    s' := Deliver(g, cfg, s, n, m, Receive(cfg, x, m).value);
  }

  // ---------------------------------------------------------------- the same step at many nodes

  /** All nodes outside `q` stand; nothing sent or executed is forgotten. */
  ghost predicate Outside(s: Sys, s': Sys, q: set<NodeId>) {
    && s'.nodes.Keys == s.nodes.Keys
    && (forall k, i, p, a :: k !in q && Is(s, k, i, p, a) ==> Is(s', k, i, p, a))
    && (forall k :: k in s.nodes && k !in q ==> s'.nodes[k].log == s.nodes[k].log)
    && s.sent <= s'.sent && s.learned <= s'.learned
  }

  /** A step of `n` alone: the nodes of `q` stand, with their logs. */
  lemma OthersStand(s: Sys, s': Sys, n: NodeId, q: set<NodeId>, inst: nat, p: Proposer, a: Acceptor)
    requires Others(s, s', n) && n !in q && forall k :: k in q ==> Is(s, k, inst, p, a)
    ensures forall k :: k in q ==> Is(s', k, inst, p, a) && k in s.nodes && k in s'.nodes && s'.nodes[k].log == s.nodes[k].log
    ensures s'.nodes.Keys == s.nodes.Keys && s.sent <= s'.sent && s.learned <= s'.learned
  {
    forall k | k in q
      ensures Is(s', k, inst, p, a)
    {
      assert Is(s, k, inst, p, a);
    }
  }

  lemma OneStands(s: Sys, s': Sys, q: set<NodeId>, n: NodeId, inst: nat, p: Proposer, a: Acceptor)
    requires Outside(s, s', q) && n !in q && Is(s, n, inst, p, a)
    ensures Is(s', n, inst, p, a) && n in s.nodes && n in s'.nodes && s'.nodes[n].log == s.nodes[n].log
    ensures s'.nodes.Keys == s.nodes.Keys && s.sent <= s'.sent && s.learned <= s'.learned
  {
  }

  lemma OutsideKeys(s: Sys, s': Sys, q: set<NodeId>)
    requires Outside(s, s', q)
    ensures s'.nodes.Keys == s.nodes.Keys && s.sent <= s'.sent && s.learned <= s'.learned
  {
  }

  lemma OutsideToo(s: Sys, s1: Sys, s2: Sys, q: set<NodeId>, n: NodeId)
    requires Outside(s, s1, q) && Others(s1, s2, n)
    ensures Outside(s, s2, q + {n})
  {
  }

  /** The nodes of `q` have a record of `inst` now. */
  ghost predicate LogsWith(s: Sys, s': Sys, q: set<NodeId>, inst: nat) {
    forall k :: k in q && k in s.nodes && k in s'.nodes ==> s'.nodes[k].log.Keys == s.nodes[k].log.Keys + {inst}
  }

  lemma {:induction false} ToldPrepareAll(g: Guard, cfg: Config, s: Sys, q: set<NodeId>, m: Message, p: Proposer, a: Acceptor)
    returns (s': Sys)
    requires Reached(g, cfg, s) && q <= cfg.nodes && m in s.sent && m.Prepare? && m.from !in q && m.from in cfg.nodes
    requires a.chk == 0 && Ballot(m.id, m.from).AtLeast(a.promise) && forall k :: k in q ==> Is(s, k, m.inst, p, a)
    ensures Reached(g, cfg, s') && Outside(s, s', q)
    ensures forall k :: k in q ==>
      && Is(s', k, m.inst, p, a.(promise := Ballot(m.id, m.from)))
      && PrepareReply(m.inst, k, m.from, m.id, 0, a.accepted, if a.accepted.id > 0 then a.value else []) in s'.sent
    ensures LogsWith(s, s', q, m.inst)
    decreases q
  {
    hide Is, Reached;
    if q == {} {
      s' := s;
    } else {
      var x :| x in q;
      var s1 := ToldPrepare(g, cfg, s, x, m, p, a);
      s' := ToldPrepareAll(g, cfg, s1, q - {x}, m, p, a);
    }
  }

  lemma {:induction false} ToldAcceptAll(g: Guard, cfg: Config, s: Sys, q: set<NodeId>, m: Message, p: Proposer, a: Acceptor)
    returns (s': Sys)
    requires Reached(g, cfg, s) && q <= cfg.nodes && m in s.sent && m.Accept? && m.from !in q && m.from in cfg.nodes
    requires a.chk == 0 && m.chk == 0 && Ballot(m.id, m.from).AtLeast(a.promise)
    requires forall k :: k in q ==> Is(s, k, m.inst, p, a)
    ensures Reached(g, cfg, s') && Outside(s, s', q)
    ensures var b := Ballot(m.id, m.from);
      forall k :: k in q ==>
        Is(s', k, m.inst, p, Acceptor(b, b, m.value, 0)) && AcceptReply(m.inst, k, m.from, m.id, 0) in s'.sent
    ensures LogsWith(s, s', q, m.inst)
    decreases q
  {
    hide Is, Reached;
    if q == {} {
      s' := s;
    } else {
      var x :| x in q;
      var s1 := ToldAccept(g, cfg, s, x, m, p, a);
      s' := ToldAcceptAll(g, cfg, s1, q - {x}, m, p, a);
    }
  }

  lemma SubsetSmaller(a: set<NodeId>, b: set<NodeId>)
    requires a <= b
    ensures |a| <= |b|
  {
    if a != {} {
      var x :| x in a;
      SubsetSmaller(a - {x}, b - {x});
    }
  }

  /** The counter after the grants of all nodes in `q`. */
  function Granted(p: Proposer, q: set<NodeId>): Proposer {
    p.(counter := Counter(p.counter.received + q, p.counter.rejected, p.counter.granted + q))
  }

  lemma GrantedStep(p: Proposer, q: set<NodeId>, x: NodeId)
    requires x in q
    ensures Granted(p.(counter := Count(p.counter, x, 0)), q - {x}) == Granted(p, q)
    ensures |p.counter.granted + {x}| <= |p.counter.granted + q|
    ensures p.(counter := Count(p.counter, x, 0)).counter.granted + (q - {x}) == p.counter.granted + q
  {
    assert p.counter.granted + {x} + (q - {x}) == p.counter.granted + q;
    assert p.counter.received + {x} + (q - {x}) == p.counter.received + q;
    SubsetSmaller(p.counter.granted + {x}, p.counter.granted + q);
  }

  /** Promises still short of a majority, that report nothing newer than what is known. */
  lemma {:induction false} HeardPromises(g: Guard, cfg: Config, s: Sys, n: NodeId, q: set<NodeId>, inst: nat,
                                         p: Proposer, a: Acceptor,
                                         pre: Ballot, v: Value) returns (s': Sys)
    requires Reached(g, cfg, s) && n in cfg.nodes && q <= cfg.nodes && n !in q && Is(s, n, inst, p, a) && p.preparing
    requires forall k :: k in q ==> PrepareReply(inst, k, n, p.id, 0, pre, v) in s.sent
    requires (pre.IsNull() || !pre.Above(p.highestPre)) && |p.counter.granted + q| < MajorityCount(cfg) && n in s.nodes
    ensures Reached(g, cfg, s') && Others(s, s', n) && Is(s', n, inst, Granted(p, q), a)
    ensures n in s'.nodes && s'.nodes[n].log == s.nodes[n].log
    decreases q
  {
    hide Is, Reached, MajorityCount;
    if q == {} {
      s' := s;
      assert Granted(p, {}) == p;
    } else {
      var x :| x in q;
      GrantedStep(p, q, x);
      var s1 := HeardPromise(g, cfg, s, n, PrepareReply(inst, x, n, p.id, 0, pre, v), p, a);
      s' := HeardPromises(g, cfg, s1, n, q - {x}, inst, p.(counter := Count(p.counter, x, 0)), a, pre, v);
    }
  }

  /** Votes still short of a majority. */
  lemma {:induction false} HeardAccepts(g: Guard, cfg: Config, s: Sys, n: NodeId, q: set<NodeId>, inst: nat,
                                        p: Proposer, a: Acceptor)
    returns (s': Sys)
    requires Reached(g, cfg, s) && n in cfg.nodes && q <= cfg.nodes && n !in q && Is(s, n, inst, p, a) && p.accepting
    requires n in s.nodes && forall k :: k in q ==> AcceptReply(inst, k, n, p.id, 0) in s.sent
    requires |p.counter.granted + q| < MajorityCount(cfg)
    ensures Reached(g, cfg, s') && Others(s, s', n) && Is(s', n, inst, Granted(p, q), a)
    ensures n in s'.nodes && s'.nodes[n].log == s.nodes[n].log
    decreases q
  {
    hide Is, Reached, MajorityCount;
    if q == {} {
      s' := s;
      assert Granted(p, {}) == p;
    } else {
      var x :| x in q;
      GrantedStep(p, q, x);
      var s1 := HeardAccept(g, cfg, s, n, AcceptReply(inst, x, n, p.id, 0), p, a);
      s' := HeardAccepts(g, cfg, s1, n, q - {x}, inst, p.(counter := Count(p.counter, x, 0)), a);
    }
  }

  /** A value of the log is offered to all in `q`. */
  lemma {:induction false} OffersAll(g: Guard, cfg: Config, s: Sys, n: NodeId, i: nat, q: set<NodeId>,
                                     inst: nat, p: Proposer, a: Acceptor)
    returns (s': Sys)
    requires Reached(g, cfg, s) && n in cfg.nodes && n !in q && Is(s, n, inst, p, a) && n in s.nodes
    requires i < inst && i in s.nodes[n].log
    ensures Reached(g, cfg, s') && Outside(s, s', {})
    ensures var r := s.nodes[n].log[i]; forall k :: k in q ==> Learn(i, n, k, r.accepted, r.value, 0) in s'.sent
    decreases q
  {
    hide Is, Reached;
    if q == {} {
      s' := s;
    } else {
      var x :| x in q;
      var s1 := Offers(g, cfg, s, n, i, x, inst, p, a);
      assert Outside(s, s1, {}) by { StandsToo(s, s1, n, inst, p, a); }
      s' := OffersAll(g, cfg, s1, n, i, q - {x}, inst, p, a);
    }
  }

  lemma StandsToo(s: Sys, s': Sys, n: NodeId, inst: nat, p: Proposer, a: Acceptor)
    requires Others(s, s', n) && Is(s, n, inst, p, a) && Is(s', n, inst, p, a) && s'.nodes[n].log == s.nodes[n].log
    ensures Outside(s, s', {})
  {
  }

  /** The nodes of `q` have a record of instance 0 and no other. */
  ghost predicate OnlyFirst(s: Sys, q: set<NodeId>) {
    forall k :: k in q ==> k in s.nodes && s.nodes[k].log.Keys == {0}
  }

  lemma OnlyFirstAfter(s: Sys, s': Sys, q: set<NodeId>)
    requires s'.nodes.Keys == s.nodes.Keys && LogsWith(s, s', q, 0) && q <= s.nodes.Keys
    requires forall k :: k in q && k in s.nodes ==> s.nodes[k].log.Keys <= {0}
    ensures OnlyFirst(s', q)
  {
    forall k | k in q
      ensures k in s'.nodes && s'.nodes[k].log.Keys == {0}
    {
      assert k in s'.nodes.Keys;
      assert s.nodes[k].log.Keys + {0} == {0};
    }
  }

  lemma OnlyFirstMore(s: Sys, s': Sys, q: set<NodeId>)
    requires s'.nodes.Keys == s.nodes.Keys && LogsWith(s, s', q, 0) && OnlyFirst(s, q)
    ensures OnlyFirst(s', q)
  {
    forall k | k in q
      ensures k in s.nodes.Keys
    {
    }
    OnlyFirstAfter(s, s', q);
  }

  lemma OnlyFirstStill(s: Sys, s': Sys, r: set<NodeId>, q: set<NodeId>)
    requires OnlyFirst(s, q) && Outside(s, s', r) && r * q == {}
    ensures OnlyFirst(s', q)
  {
    forall k | k in q
      ensures k in s'.nodes && s'.nodes[k].log.Keys == {0}
    {
      assert k in s.nodes.Keys && k in s'.nodes.Keys;
      assert k !in r * q && k !in r;
    }
  }

  lemma OthersOutside(s: Sys, s': Sys, n: NodeId)
    requires Others(s, s', n)
    ensures Outside(s, s', {n})
  {
  }

  /** `x` copies the value of instance 0, crashes with a checkpoint of it, and starts again. */
  lemma CopiedAndCrashed(g: Guard, cfg: Config, s: Sys, x: NodeId, n: NodeId, b: Ballot, v: Value, p: Proposer, a: Acceptor)
    returns (s': Sys)
    requires Reached(g, cfg, s) && g.RestartGuard? && x in cfg.nodes && n != x && a.chk == 0
    requires OnlyFirst(s, {x}) && Is(s, x, 0, p, a) && Learn(0, n, x, b, v, 0) in s.sent
    ensures Reached(g, cfg, s') && Others(s, s', x)
    ensures Is(s', x, 1, FreshProposer(b.id + 1), Acceptor(b, NULL_BALLOT, [], 0))
  {
    hide Is, Reached;
    assert s.nodes[x].log.Keys + {0} == {0};
    var s1 := Copied(g, cfg, s, x, Learn(0, n, x, b, v, 0), p, a);
    s' := Crashes(g, cfg, s1, x, Rested(p), a.(accepted := NULL_BALLOT, value := []), b);
  }

  lemma OnlyFirstPart(s: Sys, q: set<NodeId>, r: set<NodeId>)
    requires OnlyFirst(s, q) && r <= q
    ensures OnlyFirst(s, r)
  {
  }

  lemma {:induction false} CopiedAndCrashedAll(g: Guard, cfg: Config, s: Sys, q: set<NodeId>, n: NodeId, b: Ballot, v: Value,
                                               p: Proposer, a: Acceptor)
    returns (s': Sys)
    requires Reached(g, cfg, s) && g.RestartGuard? && q <= cfg.nodes && n !in q && a.chk == 0
    requires OnlyFirst(s, q) && forall k :: k in q ==> Is(s, k, 0, p, a) && Learn(0, n, k, b, v, 0) in s.sent
    ensures Reached(g, cfg, s') && Outside(s, s', q)
    ensures forall k :: k in q ==> Is(s', k, 1, FreshProposer(b.id + 1), Acceptor(b, NULL_BALLOT, [], 0))
    decreases q
  {
    hide Is, Reached, OnlyFirst;
    if q == {} {
      s' := s;
    } else {
      var x :| x in q;
      OnlyFirstPart(s, q, {x});
      OnlyFirstPart(s, q, q - {x});
      var s1 := CopiedAndCrashed(g, cfg, s, x, n, b, v, p, a);
      OthersOutside(s, s1, x);
      OnlyFirstStill(s, s1, {x}, q - {x});
      s' := CopiedAndCrashedAll(g, cfg, s1, q - {x}, n, b, v, p, a);
    }
  }

  /** Two state machines executed different values in one instance. */
  ghost predicate Disagree(s: Sys) {
    exists l, l' :: l in s.learned && l' in s.learned && l.inst == l'.inst && l.value != l'.value
  }
}
