/** Ballots, messages, node state and the effects of one handler call. */
module PaxosTypes {

  type NodeId = nat

  /** A proposed value: its bytes.  The empty string means "no value". */
  type Value = seq<nat>

  /** Proposal number and proposer, ordered lexicographically. */
  datatype Ballot = Ballot(id: nat, node: NodeId) {
    predicate IsNull() {
      id == 0
    }

    predicate AtLeast(other: Ballot) {
      if id == other.id then node >= other.node else id >= other.id
    }

    predicate Above(other: Ballot) {
      if id == other.id then node > other.node else id > other.id
    }
  }

  const NULL_BALLOT := Ballot(0, 0)

  /** Fixed membership, and the checksum step as an arbitrary function. */
  datatype Config = Config(nodes: set<NodeId>, crc: (nat, Value) -> nat)

  function MajorityCount(cfg: Config): (m: nat)
  {
    |cfg.nodes| / 2 + 1
  }

  datatype Message =
    | Prepare(inst: nat, from: NodeId, id: nat)
    | PrepareReply(inst: nat, from: NodeId, to: NodeId, id: nat, rejectBy: nat, pre: Ballot, value: Value)
    | Accept(inst: nat, from: NodeId, id: nat, value: Value, chk: nat)
    | AcceptReply(inst: nat, from: NodeId, to: NodeId, id: nat, rejectBy: nat)
    | Success(inst: nat, from: NodeId, id: nat, chk: nat)
    | Learn(inst: nat, from: NodeId, to: NodeId, ballot: Ballot, value: Value, chk: nat)

  /** The three node-id sets of one counting round. */
  datatype Counter = Counter(received: set<NodeId>, rejected: set<NodeId>, granted: set<NodeId>)

  const NO_COUNT := Counter({}, {}, {})

  datatype Proposer = Proposer(
    id: nat,
    highestOther: nat,
    value: Value,
    highestPre: Ballot,
    preparing: bool,
    accepting: bool,
    canSkip: bool,
    wasRejected: bool,
    counter: Counter,
    timeoutInst: nat)

  datatype Acceptor = Acceptor(promise: Ballot, accepted: Ballot, value: Value, chk: nat)

  /**
   * One stored log record.  `persisted` tells the two writers apart: true for the
   * acceptor's own Persist, false for a copied value; `under` is the acceptor's record
   * that a copied one was written over.  Both are history, not stored.
   */
  datatype Record =
    Record(promise: Ballot, accepted: Ballot, value: Value, chk: nat, persisted: bool, under: Option<Record>)

  datatype Node = Node(
    me: NodeId,
    inst: nat,
    prop: Proposer,
    acc: Acceptor,
    lastChk: nat,
    log: map<nat, Record>)

  /** An acceptance that reached stable storage. */
  datatype Vote = Vote(node: NodeId, inst: nat, ballot: Ballot, value: Value)

  /** A value handed to the state machine. */
  datatype Learned = Learned(node: NodeId, inst: nat, value: Value)

  /** What one handler call does to the outside: messages, acceptances, executed values. */
  datatype Effects = Effects(msgs: set<Message>, votes: set<Vote>, learned: set<Learned>)

  const NO_EFFECTS := Effects({}, {}, {})

  function Join(e: Effects, f: Effects): Effects {
    Effects(e.msgs + f.msgs, e.votes + f.votes, e.learned + f.learned)
  }

  datatype Out = Out(node: Node, fx: Effects)

  function Quiet(n: Node): Out {
    Out(n, NO_EFFECTS)
  }

  function Send(o: Out, m: Message): Out {
    Out(o.node, o.fx.(msgs := o.fx.msgs + {m}))
  }

  function Then(o: Out, p: Out): Out {
    Out(p.node, Join(o.fx, p.fx))
  }

  datatype Option<T> = None | Some(value: T)
}
