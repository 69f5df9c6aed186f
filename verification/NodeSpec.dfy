/**
 * The handlers of one node, as functions from the old state to the new state and
 * the effects.  A message a node sends to itself is handled inside the send, so
 * the handlers call each other in the order the broadcasts run them.
 */
module NodeSpec {
  import opened PaxosTypes

  function Checksum(cfg: Config, inst: nat, last: nat, v: Value): nat {
    if inst > 0 && last == 0 then 0 else cfg.crc(last, v)
  }

  // ---------------------------------------------------------------- acceptor

  function AccRecord(n: Node): Record {
    Record(n.acc.promise, n.acc.accepted, n.acc.value, n.acc.chk, true, None)
  }

  function PersistChk(cfg: Config, n: Node): nat {
    if n.inst > 0 && n.lastChk == 0 then 0
    else if |n.acc.value| > 0 then cfg.crc(n.lastChk, n.acc.value)
    else n.acc.chk
  }

  function Persist(cfg: Config, n: Node): Node {
    var n1 := n.(acc := n.acc.(chk := PersistChk(cfg, n)));
    n1.(log := n1.log[n1.inst := AccRecord(n1)])
  }

  datatype PrepareResult = PrepareResult(node: Node, rejectBy: nat, pre: Ballot, value: Value)

  function AcceptorOnPrepare(cfg: Config, n: Node, from: NodeId, id: nat): PrepareResult {
    var b := Ballot(id, from);
    if b.AtLeast(n.acc.promise) then
      PrepareResult(
        Persist(cfg, n.(acc := n.acc.(promise := b))),
        0,
        n.acc.accepted,
        if n.acc.accepted.id > 0 then n.acc.value else [])
    else
      PrepareResult(n, n.acc.promise.id, NULL_BALLOT, [])
  }

  datatype AcceptResult = AcceptResult(node: Node, rejectBy: nat, votes: set<Vote>)

  function AcceptorOnAccept(cfg: Config, n: Node, from: NodeId, id: nat, v: Value): AcceptResult {
    var b := Ballot(id, from);
    if b.AtLeast(n.acc.promise) then
      AcceptResult(
        Persist(cfg, n.(acc := n.acc.(promise := b, accepted := b, value := v))),
        0,
        {Vote(n.me, n.inst, b, v)})
    else
      AcceptResult(n, n.acc.promise.id, {})
  }

  // ---------------------------------------------------------------- learning

  function ProposerForNewInstance(p: Proposer): Proposer {
    p.(counter := NO_COUNT, highestOther := 0, value := [], preparing := false, accepting := false)
  }

  /** The value is executed, the checksum moves on, and all roles enter the next instance. */
  function FinishInstance(n: Node, v: Value, chk: nat): Out {
    Out(
      n.(inst := n.inst + 1,
         lastChk := chk,
         acc := n.acc.(accepted := NULL_BALLOT, value := [], chk := 0),
         prop := ProposerForNewInstance(n.prop)),
      Effects({}, {}, {Learned(n.me, n.inst, v)}))
  }

  function LearnBySuccess(n: Node, inst: nat, from: NodeId, id: nat): Out {
    if inst != n.inst || n.acc.accepted.IsNull() || n.acc.accepted != Ballot(id, from) then Quiet(n)
    else FinishInstance(n, n.acc.value, n.acc.chk)
  }

  function CopyChk(cfg: Config, n: Node, v: Value): nat {
    if n.inst > 0 && n.lastChk == 0 then 0
    else if |v| > 0 then cfg.crc(n.lastChk, v)
    else 0
  }

  /** The acceptor's own record of the instance, under a copied one if need be. */
  function OwnRecord(log: map<nat, Record>, i: nat): Option<Record> {
    if i !in log then None else if log[i].persisted then Some(log[i]) else log[i].under
  }

  function LearnByCopy(cfg: Config, n: Node, inst: nat, ballot: Ballot, v: Value): Out {
    if inst != n.inst then Quiet(n)
    else
      var chk := CopyChk(cfg, n, v);
      FinishInstance(n.(log := n.log[inst := Record(ballot, ballot, v, chk, false, OwnRecord(n.log, inst))]), v, chk)
  }

  // ---------------------------------------------------------------- proposer

  predicate Passed(cfg: Config, c: Counter) {
    |c.granted| >= MajorityCount(cfg)
  }

  function Max(a: nat, b: nat): nat {
    if a > b then a else b
  }

  function NoteReject(p: Proposer, rejectBy: nat): Proposer {
    p.(wasRejected := true, highestOther := Max(rejectBy, p.highestOther))
  }

  function AddPreAccept(p: Proposer, pre: Ballot, v: Value): Proposer {
    if !pre.IsNull() && pre.Above(p.highestPre) then p.(highestPre := pre, value := v) else p
  }

  function Count(c: Counter, from: NodeId, rejectBy: nat): Counter {
    if rejectBy == 0 then c.(received := c.received + {from}, granted := c.granted + {from})
    else c.(received := c.received + {from}, rejected := c.rejected + {from})
  }

  function RecordPrepareReply(n: Node, from: NodeId, rejectBy: nat, pre: Ballot, v: Value): Node {
    var p := n.prop.(counter := Count(n.prop.counter, from, rejectBy));
    n.(prop := if rejectBy == 0 then AddPreAccept(p, pre, v) else NoteReject(p, rejectBy))
  }

  function RecordAcceptReply(n: Node, from: NodeId, rejectBy: nat): Node {
    var p := n.prop.(counter := Count(n.prop.counter, from, rejectBy));
    n.(prop := if rejectBy == 0 then p else NoteReject(p, rejectBy))
  }

  /** The accept round passed: the own learner hears it first, then everybody else. */
  function Succeed(n: Node): Out {
    var n1 := n.(prop := n.prop.(accepting := false));
    var o := LearnBySuccess(n1, n.inst, n.me, n.prop.id);
    Send(o, Success(n.inst, n.me, n.prop.id, n.lastChk))
  }

  function OnAcceptReply(cfg: Config, n: Node, from: NodeId, id: nat, rejectBy: nat): Out {
    if !n.prop.accepting || id != n.prop.id then Quiet(n)
    else
      var n1 := RecordAcceptReply(n, from, rejectBy);
      if Passed(cfg, n1.prop.counter) then Succeed(n1) else Quiet(n1)
  }

  function StartAccept(n: Node): Node {
    n.(prop := n.prop.(preparing := false, accepting := true, counter := NO_COUNT, timeoutInst := n.inst))
  }

  function AcceptMsg(n: Node): Message {
    Accept(n.inst, n.me, n.prop.id, n.prop.value, n.lastChk)
  }

  /** Broadcast Accept, then the own acceptor last. */
  function StartAcceptRound(cfg: Config, n: Node): Out {
    var r := AcceptorOnAccept(cfg, StartAccept(n), n.me, n.prop.id, n.prop.value);
    var o := OnAcceptReply(cfg, r.node, n.me, n.prop.id, r.rejectBy);
    Then(Send(Out(r.node, Effects({}, r.votes, {})), AcceptMsg(n)), o)
  }

  function OnPrepareReply(cfg: Config, n: Node, from: NodeId, id: nat, rejectBy: nat, pre: Ballot, v: Value): Out {
    if !n.prop.preparing || id != n.prop.id then Quiet(n)
    else
      var n1 := RecordPrepareReply(n, from, rejectBy, pre, v);
      if Passed(cfg, n1.prop.counter) then StartAcceptRound(cfg, n1.(prop := n1.prop.(canSkip := true)))
      else Quiet(n1)
  }

  function StartPrepare(n: Node, needNew: bool): Node {
    var id := if needNew then Max(n.prop.id, n.prop.highestOther) + 1 else n.prop.id;
    n.(prop := n.prop.(
      id := id,
      accepting := false,
      preparing := true,
      canSkip := false,
      wasRejected := false,
      highestPre := NULL_BALLOT,
      counter := NO_COUNT,
      timeoutInst := n.inst))
  }

  /** The own acceptor first, then broadcast Prepare. */
  function StartPrepareRound(cfg: Config, n: Node, needNew: bool): Out {
    var n1 := StartPrepare(n, needNew);
    var r := AcceptorOnPrepare(cfg, n1, n.me, n1.prop.id);
    var o := OnPrepareReply(cfg, r.node, n.me, n1.prop.id, r.rejectBy, r.pre, r.value);
    Send(o, Prepare(n.inst, n.me, n1.prop.id))
  }

  function OfferValue(n: Node, v: Value): Node {
    if n.prop.value == [] then n.(prop := n.prop.(value := v)) else n
  }

  function NewValue(cfg: Config, n: Node, v: Value): Out {
    var n1 := OfferValue(n, v);
    if n1.prop.canSkip && !n1.prop.wasRejected then StartAcceptRound(cfg, n1)
    else StartPrepareRound(cfg, n1, n1.prop.wasRejected)
  }

  /** The prepare timer and the accept timer do the same. */
  function OnTimeout(cfg: Config, n: Node): Out {
    if n.inst != n.prop.timeoutInst then Quiet(n)
    else StartPrepareRound(cfg, n, n.prop.wasRejected)
  }

  function OnCommitTimeout(n: Node): Out {
    Quiet(n.(prop := n.prop.(preparing := false, accepting := false)))
  }

  // ---------------------------------------------------------------- dispatch

  function MessageChk(m: Message): nat {
    if m.Accept? || m.Success? || m.Learn? then m.chk else 0
  }

  /** None: the checksum assertion fails and the process dies. */
  function ChecksumLogic(n: Node, m: Message): Option<Node> {
    var c := MessageChk(m);
    if c == 0 || m.inst != n.inst then Some(n)
    else if n.inst > 0 && n.lastChk == 0 then Some(n.(lastChk := c))
    else if c != n.lastChk then None
    else Some(n)
  }

  function OnReply(cfg: Config, n: Node, m: Message): Out
    requires m.PrepareReply? || m.AcceptReply?
  {
    if m.inst != n.inst then
      if m.inst + 1 == n.inst && m.rejectBy != 0 then Quiet(n.(prop := NoteReject(n.prop, m.rejectBy)))
      else Quiet(n)
    else if m.PrepareReply? then OnPrepareReply(cfg, n, m.from, m.id, m.rejectBy, m.pre, m.value)
    else OnAcceptReply(cfg, n, m.from, m.id, m.rejectBy)
  }

  function AcceptorReceive(cfg: Config, n: Node, m: Message): Out
    requires m.Prepare? || m.Accept?
  {
    if m.inst != n.inst then Quiet(n)
    else if m.Prepare? then
      var r := AcceptorOnPrepare(cfg, n, m.from, m.id);
      Send(Quiet(r.node), PrepareReply(n.inst, n.me, m.from, m.id, r.rejectBy, r.pre, r.value))
    else
      var r := AcceptorOnAccept(cfg, n, m.from, m.id, m.value);
      Send(Out(r.node, Effects({}, r.votes, {})), AcceptReply(n.inst, n.me, m.from, m.id, r.rejectBy))
  }

  /** A request of the next instance doubles as a success notice for this one. */
  function OnRequest(cfg: Config, n: Node, m: Message): Out
    requires m.Prepare? || m.Accept?
  {
    var o := if m.inst == n.inst + 1 then LearnBySuccess(n, n.inst, m.from, m.id) else Quiet(n);
    Then(o, AcceptorReceive(cfg, o.node, m))
  }

  function OnLearnerMsg(cfg: Config, n: Node, m: Message): Out
    requires m.Success? || m.Learn?
  {
    if m.Success? then LearnBySuccess(n, m.inst, m.from, m.id)
    else LearnByCopy(cfg, n, m.inst, m.ballot, m.value)
  }

  function Receive(cfg: Config, n: Node, m: Message): Option<Out> {
    if m.PrepareReply? || m.AcceptReply? then
      Some(if m.from in cfg.nodes then OnReply(cfg, n, m) else Quiet(n))
    else if m.Prepare? || m.Accept? then
      if m.from !in cfg.nodes then Some(Quiet(n))
      else
        match ChecksumLogic(n, m)
        case None => None
        case Some(n1) => Some(OnRequest(cfg, n1, m))
    else
      match ChecksumLogic(n, m)
      case None => None
      case Some(n1) => Some(OnLearnerMsg(cfg, n1, m))
  }

  // ---------------------------------------------------------------- log and restart

  /** One stored value, offered to a node that lags behind. */
  function SendOne(n: Node, inst: nat, to: NodeId, withChk: bool): Out
    requires inst in n.log
  {
    var r := n.log[inst];
    var chk := if withChk && inst > 0 && inst - 1 in n.log then n.log[inst - 1].chk else 0;
    Send(Quiet(n), Learn(inst, n.me, to, r.accepted, r.value, chk))
  }

  function FreshProposer(id: nat): Proposer {
    Proposer(id, 0, [], NULL_BALLOT, false, false, false, false, NO_COUNT, 0)
  }

  function FreshAcceptor(): Acceptor {
    Acceptor(NULL_BALLOT, NULL_BALLOT, [], 0)
  }

  ghost predicate IsNewest(log: map<nat, Record>, k: nat) {
    k in log && forall j :: j in log ==> j <= k
  }

  function LoadAcceptor(log: map<nat, Record>, k: nat): Acceptor {
    if k in log then Acceptor(log[k].promise, log[k].accepted, log[k].value, log[k].chk)
    else FreshAcceptor()
  }

  /**
   * Reload from the newest record `k`; with an empty log `k` is 0.  `next` is the
   * first instance the state machine's checkpoint does not cover: when it lies
   * beyond `k`, the node goes on in the following instance with a cleared acceptor.
   */
  function Restart(n: Node, k: nat, next: nat): Node {
    var loaded := LoadAcceptor(n.log, k);
    var acc := if next > k then loaded.(accepted := NULL_BALLOT, value := [], chk := 0) else loaded;
    var inst := Max(next, k);
    Node(n.me, inst, FreshProposer(acc.promise.id + 1), acc,
         if inst > 0 && inst - 1 in n.log then n.log[inst - 1].chk else 0, n.log)
  }

  /** What the state machine is given again, from the first instance its checkpoint lacks. */
  function Replayed(n: Node, k: nat, next: nat): set<Learned> {
    set i | i in n.log && next <= i < k :: Learned(n.me, i, n.log[i].value)
  }

  function Reopen(n: Node, k: nat, next: nat): Out {
    Out(Restart(n, k, next), Effects({}, {}, Replayed(n, k, next)))
  }

  // ---------------------------------------------------------------- losing copies

  /** From `top` on the acceptor has written nothing since, so these records may not be on disk yet. */
  predicate Losable(log: map<nat, Record>, top: nat) {
    forall j :: j in log && j >= top ==> !log[j].persisted && (j > top ==> log[j].under.None?)
  }

  /** The log without its copied records from `top` on. */
  function Lost(log: map<nat, Record>, top: nat): map<nat, Record> {
    map j | j in log && (j < top || (j == top && log[j].under.Some?)) :: if j < top then log[j] else log[j].under.value
  }

  /** The node with what is left of its log after a crash. */
  function Survivor(n: Node, lost: Option<nat>): Node {
    if lost.None? then n else n.(log := Lost(n.log, lost.value))
  }
}
