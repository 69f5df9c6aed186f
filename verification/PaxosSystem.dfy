/** All nodes and every message ever sent; one step is one event at one node. */
module PaxosSystem {
  import opened PaxosTypes
  import opened NodeSpec

  datatype Sys = Sys(nodes: map<NodeId, Node>, sent: set<Message>, votes: set<Vote>, learned: set<Learned>)

  predicate Wf(cfg: Config, s: Sys) {
    s.nodes.Keys == cfg.nodes && forall a :: a in s.nodes ==> s.nodes[a].me == a
  }

  function Apply(s: Sys, n: NodeId, o: Out): Sys {
    Sys(s.nodes[n := o.node], s.sent + o.fx.msgs, s.votes + o.fx.votes, s.learned + o.fx.learned)
  }

  function InitNode(n: NodeId): Node {
    Node(n, 0, FreshProposer(1), FreshAcceptor(), 0, map[])
  }

  predicate Init(cfg: Config, s: Sys) {
    && Wf(cfg, s)
    && (forall n :: n in s.nodes ==> s.nodes[n] == InitNode(n))
    && s.sent == {} && s.votes == {} && s.learned == {}
  }

  /**
   * `EvRestart`: a crash, which may lose the copied records from some instance on, and the
   * start after it.  `EvCutAccept`: the process dies in the course of `cause`, between broadcasting Accept
   * and its own acceptor, which is the last to see it, and starts again.
   */
  datatype Event =
    | EvNewValue(value: Value)
    | EvTimeout
    | EvCommitTimeout
    | EvDeliver(msg: Message)
    | EvSendOne(inst: nat, to: NodeId, withChk: bool)
    | EvRestart(lost: Option<nat>, newest: nat, next: nat)
    | EvCutAccept(cause: Event, lost: Option<nat>, newest: nat, next: nat)

  /** Broadcasts skip the sender; everything else goes to its addressee. */
  predicate Addressed(m: Message, n: NodeId) {
    if m.Prepare? || m.Accept? || m.Success? then m.from != n else m.to == n && m.from != n
  }

  ghost predicate Newest(n: Node, k: nat) {
    if n.log == map[] then k == 0 else IsNewest(n.log, k)
  }

  /** The node as it broadcasts Accept in the course of `e`. */
  function Accepting(cfg: Config, n: Node, e: Event): Option<Node> {
    match e
    case EvNewValue(v) =>
      var n1 := OfferValue(n, v);
      if v != [] && n1.prop.canSkip && !n1.prop.wasRejected then Some(n1) else None
    case EvDeliver(m) =>
      if m.PrepareReply? && m.from in cfg.nodes && m.inst == n.inst && n.prop.preparing && m.id == n.prop.id then
        var n1 := RecordPrepareReply(n, m.from, m.rejectBy, m.pre, m.value);
        if Passed(cfg, n1.prop.counter) then Some(n1.(prop := n1.prop.(canSkip := true))) else None
      else None
    case _ => None
  }

  /** From the log that is left, with a checkpoint up to `next`, the node starts. */
  ghost predicate Starts(n: Node, lost: Option<nat>, k: nat, next: nat) {
    && (lost.Some? ==> lost.value <= n.inst && Losable(n.log, lost.value))
    && Newest(Survivor(n, lost), k) && next <= n.inst && (next <= k + 1 || k == 0)
  }

  ghost predicate Enabled(cfg: Config, s: Sys, n: NodeId, e: Event)
    requires Wf(cfg, s)
  {
    && n in cfg.nodes
    && match e
       case EvNewValue(v) => v != []
       case EvTimeout => s.nodes[n].prop.preparing || s.nodes[n].prop.accepting
       case EvCommitTimeout => true
       case EvDeliver(m) => m in s.sent && Addressed(m, n) && Receive(cfg, s.nodes[n], m).Some?
       case EvSendOne(i, to, c) => i < s.nodes[n].inst && i in s.nodes[n].log && to != n
       case EvRestart(lost, k, next) => Starts(s.nodes[n], lost, k, next)
       case EvCutAccept(c, lost, k, next) =>
         && (c.EvDeliver? ==> c.msg in s.sent && Addressed(c.msg, n)) && Accepting(cfg, s.nodes[n], c).Some?
         && Starts(s.nodes[n], lost, k, next)
  }

  ghost function Run(cfg: Config, s: Sys, n: NodeId, e: Event): Out
    requires Wf(cfg, s) && Enabled(cfg, s, n, e)
  {
    var node := s.nodes[n];
    match e
    case EvNewValue(v) => NewValue(cfg, node, v)
    case EvTimeout => OnTimeout(cfg, node)
    case EvCommitTimeout => OnCommitTimeout(node)
    case EvDeliver(m) => Receive(cfg, node, m).value
    case EvSendOne(i, to, c) => SendOne(node, i, to, c)
    case EvRestart(lost, k, next) => Reopen(Survivor(node, lost), k, next)
    case EvCutAccept(c, lost, k, next) =>
      Send(Reopen(Survivor(node, lost), k, next), AcceptMsg(Accepting(cfg, node, c).value))
  }

  ghost predicate StepBy(cfg: Config, s: Sys, s': Sys, n: NodeId, e: Event) {
    Wf(cfg, s) && Enabled(cfg, s, n, e) && s' == Apply(s, n, Run(cfg, s, n, e))
  }

  // ---------------------------------------------------------------- guards

  /** `n` has already sent Accept for its present ballot in its present instance. */
  ghost predicate AcceptOut(s: Sys, n: NodeId)
    requires n in s.nodes
  {
    exists m :: m in s.sent && m.Accept? && m.inst == s.nodes[n].inst && m.from == n && m.id == s.nodes[n].prop.id
  }

  /** The ballot may be prepared again after its Accept only while the own acceptor still grants it. */
  ghost predicate RepreparePermitted(s: Sys, n: NodeId)
    requires n in s.nodes
  {
    var node := s.nodes[n];
    !node.prop.wasRejected && AcceptOut(s, n) ==> Ballot(node.prop.id, n).AtLeast(node.acc.promise)
  }

  /** Learning from a next-instance request needs at most four nodes. */
  predicate ShortcutPermitted(cfg: Config, n: Node, m: Message) {
    |cfg.nodes| <= 4
    || !((m.Prepare? || m.Accept?) && m.inst == n.inst + 1 && n.acc.accepted == Ballot(m.id, m.from))
  }

  /** A crash loses no promise when the newest record is the acceptor's own. */
  predicate RestartPermitted(n: Node, k: nat) {
    k in n.log ==> n.log[k].persisted
  }

  /** The state machine's checkpoint covers no instance whose record is lost. */
  predicate CheckpointPermitted(lost: Option<nat>, next: nat) {
    lost.Some? ==> next <= lost.value
  }

  datatype Guard = ReprepareGuard | ShortcutGuard | RestartGuard | CheckpointGuard

  ghost predicate Holds(g: Guard, cfg: Config, s: Sys, n: NodeId, e: Event)
    requires Wf(cfg, s) && n in cfg.nodes
  {
    var node := s.nodes[n];
    match g
    case ReprepareGuard =>
      e.EvTimeout? || (e.EvNewValue? && !(node.prop.canSkip && !node.prop.wasRejected)) ==> RepreparePermitted(s, n)
    case ShortcutGuard => e.EvDeliver? ==> ShortcutPermitted(cfg, node, e.msg)
    case RestartGuard => e.EvRestart? || e.EvCutAccept? ==> RestartPermitted(Survivor(node, e.lost), e.newest)
    case CheckpointGuard => e.EvRestart? || e.EvCutAccept? ==> CheckpointPermitted(e.lost, e.next)
  }

  ghost predicate Permitted(cfg: Config, s: Sys, n: NodeId, e: Event)
    requires Wf(cfg, s) && n in cfg.nodes
  {
    forall g :: Holds(g, cfg, s, n, e)
  }

  ghost predicate GuardedStep(cfg: Config, s: Sys, s': Sys) {
    exists n, e :: StepBy(cfg, s, s', n, e) && Permitted(cfg, s, n, e)
  }

  ghost predicate GuardedRun(cfg: Config, r: seq<Sys>) {
    && |r| > 0
    && Init(cfg, r[0])
    && forall k :: 0 <= k < |r| - 1 ==> GuardedStep(cfg, r[k], r[k + 1])
  }
}
