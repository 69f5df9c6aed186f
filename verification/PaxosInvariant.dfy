/** The facts every guarded run keeps. */
module PaxosInvariant {
  import opened PaxosTypes
  import opened NodeSpec
  import opened PaxosSystem

  // ---------------------------------------------------------------- quorums

  predicate IsQuorum(cfg: Config, q: set<NodeId>) {
    q <= cfg.nodes && |q| >= MajorityCount(cfg)
  }

  // ---------------------------------------------------------------- facts that stay true

  ghost predicate Proposed(s: Sys, i: nat, b: Ballot, v: Value) {
    exists c :: Accept(i, b.node, b.id, v, c) in s.sent
  }

  ghost predicate QuorumVoted(s: Sys, q: set<NodeId>, i: nat, b: Ballot, v: Value) {
    forall a :: a in q ==> Vote(a, i, b, v) in s.votes
  }

  ghost predicate ChosenAt(cfg: Config, s: Sys, i: nat, b: Ballot, v: Value) {
    exists q :: IsQuorum(cfg, q) && QuorumVoted(s, q, i, b, v)
  }

  ghost predicate Chosen(cfg: Config, s: Sys, i: nat, v: Value) {
    exists b :: ChosenAt(cfg, s, i, b, v)
  }

  /** `a` will never again vote at (i, b), and what it voted there was `v`. */
  ghost predicate Closed(s: Sys, a: NodeId, i: nat, b: Ballot, v: Value)
    requires a in s.nodes
  {
    && s.nodes[a].acc.promise.Above(b)
    && forall v' :: Vote(a, i, b, v') in s.votes ==> v' == v
  }

  ghost predicate QuorumClosed(cfg: Config, s: Sys, q: set<NodeId>, i: nat, b: Ballot, v: Value)
    requires Wf(cfg, s)
  {
    IsQuorum(cfg, q) && forall a :: a in q ==> Closed(s, a, i, b, v)
  }

  /** Nothing but `v` can be chosen at (i, b). */
  ghost predicate Blocked(cfg: Config, s: Sys, i: nat, b: Ballot, v: Value)
    requires Wf(cfg, s)
  {
    exists q :: QuorumClosed(cfg, s, q, i, b, v)
  }

  /** Nothing but `v` can be chosen in instance `i` below `b`. */
  ghost predicate SafeAt(cfg: Config, s: Sys, i: nat, b: Ballot, v: Value)
    requires Wf(cfg, s)
  {
    forall b' :: b.Above(b') ==> Blocked(cfg, s, i, b', v)
  }

  /** `a` has promised `b`, and from instance `i` on it never votes below `b`. */
  ghost predicate Pledged(s: Sys, a: NodeId, i: nat, b: Ballot)
    requires a in s.nodes
  {
    && s.nodes[a].acc.promise.AtLeast(b)
    && forall x :: x in s.votes && x.node == a && x.inst >= i ==> x.ballot.AtLeast(b)
  }

  ghost predicate AllPledged(cfg: Config, s: Sys, q: set<NodeId>, i: nat, b: Ballot)
    requires Wf(cfg, s)
  {
    IsQuorum(cfg, q) && forall a :: a in q ==> Pledged(s, a, i, b)
  }

  ghost predicate QuorumPledged(cfg: Config, s: Sys, i: nat, b: Ballot)
    requires Wf(cfg, s)
  {
    exists q :: AllPledged(cfg, s, q, i, b)
  }

  /** A promise given in instance `i`: no vote of `a` there lies between `h` and `b`. */
  ghost predicate Promised(s: Sys, a: NodeId, i: nat, b: Ballot, h: Ballot)
    requires a in s.nodes
  {
    && Pledged(s, a, i + 1, b)
    && forall x :: x in s.votes && x.node == a && x.inst == i && b.Above(x.ballot) ==> h.AtLeast(x.ballot)
  }

  ghost predicate AllChosen(cfg: Config, s: Sys, vs: seq<Value>) {
    forall k :: 0 <= k < |vs| ==> Chosen(cfg, s, k, vs[k])
  }

  /** The checksum over the values of the instances so far; once 0, it stays 0. */
  function Fold(cfg: Config, vs: seq<Value>): nat {
    if vs == [] then 0 else Checksum(cfg, |vs| - 1, Fold(cfg, vs[..|vs| - 1]), vs[|vs| - 1])
  }

  ghost predicate Prefix(cfg: Config, s: Sys, vs: seq<Value>, i: nat) {
    |vs| == i && AllChosen(cfg, s, vs)
  }

  ghost predicate PrefixChosen(cfg: Config, s: Sys, i: nat) {
    exists vs :: Prefix(cfg, s, vs, i)
  }

  ghost predicate ChkOk(cfg: Config, s: Sys, i: nat, c: nat) {
    c == 0 || exists vs :: Prefix(cfg, s, vs, i) && c == Fold(cfg, vs)
  }

  /** The own acceptor took part in every Accept of this ballot before instance `i`. */
  ghost predicate OwnVotes(s: Sys, b: Ballot, i: nat) {
    forall j: nat, v :: j < i && Proposed(s, j, b, v) ==> Vote(b.node, j, b, v) in s.votes
  }

  // ---------------------------------------------------------------- votes, proposals, messages

  ghost predicate VotesProposed(cfg: Config, s: Sys) {
    forall x :: x in s.votes ==>
      x.node in cfg.nodes && x.ballot.id > 0 && Proposed(s, x.inst, x.ballot, x.value)
  }

  ghost predicate OneValue(s: Sys) {
    forall i: nat, b, v, v' :: Proposed(s, i, b, v) && Proposed(s, i, b, v') ==> v == v'
  }

  ghost predicate ProposalsSafe(cfg: Config, s: Sys)
    requires Wf(cfg, s)
  {
    forall i: nat, b, v :: Proposed(s, i, b, v) ==>
      v != [] && b.id > 0 && b.node in cfg.nodes && SafeAt(cfg, s, i, b, v)
  }

  ghost predicate LearnedChosen(cfg: Config, s: Sys) {
    forall l :: l in s.learned ==> Chosen(cfg, s, l.inst, l.value)
  }

  ghost predicate VotedSome(s: Sys, a: NodeId, i: nat, b: Ballot) {
    exists v :: Vote(a, i, b, v) in s.votes
  }

  ghost predicate RequestOk(cfg: Config, s: Sys, i: nat, b: Ballot)
    requires Wf(cfg, s)
  {
    && b.id > 0 && b.node in cfg.nodes
    && s.nodes[b.node].acc.promise.AtLeast(b)
    && PrefixChosen(cfg, s, i)
    && OwnVotes(s, b, i)
  }

  ghost predicate MsgOk(cfg: Config, s: Sys, m: Message)
    requires Wf(cfg, s)
  {
    m.from in cfg.nodes
    && match m
       case Prepare(i, f, id) => RequestOk(cfg, s, i, Ballot(id, f))
       case Accept(i, f, id, v, c) => RequestOk(cfg, s, i, Ballot(id, f)) && ChkOk(cfg, s, i, c)
       case PrepareReply(i, f, t, id, r, pre, v) =>
         r == 0 ==>
           && Promised(s, f, i, Ballot(id, t), pre)
           && (pre.id > 0 ==> Proposed(s, i, pre, v) && Ballot(id, t).AtLeast(pre))
           && (pre.id == 0 ==> pre == NULL_BALLOT)
       case AcceptReply(i, f, t, id, r) => r == 0 ==> VotedSome(s, f, i, Ballot(id, t))
       case Success(i, f, id, c) =>
         ChkOk(cfg, s, i, c) && exists v :: ChosenAt(cfg, s, i, Ballot(id, f), v)
       case Learn(i, f, t, b, v, c) => ChkOk(cfg, s, i, c) && v != [] && Chosen(cfg, s, i, v)
  }

  ghost predicate MessagesOk(cfg: Config, s: Sys)
    requires Wf(cfg, s)
  {
    forall m :: m in s.sent ==> MsgOk(cfg, s, m)
  }

  // ---------------------------------------------------------------- one node

  /** What a record (or the live acceptor) of instance `k` says about the node's votes there. */
  ghost predicate RecOk(s: Sys, n: NodeId, k: nat, r: Record) {
    && (forall x :: x in s.votes && x.node == n && x.inst == k ==> r.accepted.AtLeast(x.ballot))
    && (r.accepted.id > 0 ==> Vote(n, k, r.accepted, r.value) in s.votes)
    && (r.accepted.id == 0 ==> r.accepted == NULL_BALLOT && r.value == [] && r.chk == 0)
    && r.promise.AtLeast(r.accepted)
  }

  ghost predicate VotesBelow(s: Sys, n: NodeId, node: Node) {
    forall x :: x in s.votes && x.node == n ==> x.inst <= node.inst && node.acc.promise.AtLeast(x.ballot)
  }

  ghost predicate AccInv(s: Sys, n: NodeId, node: Node) {
    RecOk(s, n, node.inst, AccRecord(node)) && VotesBelow(s, n, node)
  }

  /** The instances a node has finished keep their records. */
  ghost predicate HistoryInv(cfg: Config, s: Sys, n: NodeId, log: map<nat, Record>, inst: nat) {
    && (forall k: nat :: k < inst ==> k in log && log[k].value != [] && Chosen(cfg, s, k, log[k].value))
    && (forall k :: k in log && k < inst && log[k].persisted ==> RecOk(s, n, k, log[k]))
  }

  ghost predicate KeysBelow(node: Node) {
    forall k :: k in node.log ==> k <= node.inst
  }

  ghost predicate LogInv(cfg: Config, s: Sys, n: NodeId, node: Node) {
    && KeysBelow(node)
    && HistoryInv(cfg, s, n, node.log, node.inst)
    && (node.inst in node.log ==> node.log[node.inst] == AccRecord(node))
    && (node.inst !in node.log ==>
          && node.acc.accepted.id == 0
          && (node.inst == 0 ==> node.acc.promise == NULL_BALLOT)
          && (node.inst > 0 && node.log[node.inst - 1].persisted ==>
                node.log[node.inst - 1].promise == node.acc.promise))
  }

  function LogPrefix(log: map<nat, Record>, k: nat): (vs: seq<Value>)
  {
    seq(k, j requires 0 <= j => if j in log then log[j].value else [])
  }

  /** The checksums of the finished instances, and of the present one so far. */
  ghost predicate ChkHistory(cfg: Config, node: Node) {
    && node.lastChk == Fold(cfg, LogPrefix(node.log, node.inst))
    && forall k: nat :: k < node.inst && k in node.log ==>
         node.log[k].chk == Fold(cfg, LogPrefix(node.log, k + 1))
  }

  ghost predicate ChkInv(cfg: Config, node: Node) {
    && ChkHistory(cfg, node)
    && (node.acc.accepted.id > 0 ==> node.acc.chk == Checksum(cfg, node.inst, node.lastChk, node.acc.value))
  }

  /** The acceptor's own record of instance `k` is in order, whether a copy lies over it or not. */
  ghost predicate OwnRecOk(cfg: Config, s: Sys, n: NodeId, log: map<nat, Record>, k: nat, r: Record) {
    && RecOk(s, n, k, r) && r.persisted && r.under.None?
    && (r.accepted.id > 0 ==> r.chk == Checksum(cfg, k, Fold(cfg, LogPrefix(log, k)), r.value))
  }

  ghost predicate LastOwn(log: map<nat, Record>, k: nat) {
    OwnRecord(log, k).Some? && forall j :: j in log && j > k ==> OwnRecord(log, j).None?
  }

  /** The acceptor's own records hold all its votes, and the last of them its promise. */
  ghost predicate OwnInv(cfg: Config, s: Sys, n: NodeId, log: map<nat, Record>, promise: Ballot) {
    && (forall k :: k in log && OwnRecord(log, k).Some? ==> OwnRecOk(cfg, s, n, log, k, OwnRecord(log, k).value))
    && (forall k :: k in log && LastOwn(log, k) ==> OwnRecord(log, k).value.promise == promise)
    && ((forall k :: k in log ==> OwnRecord(log, k).None?) ==> promise == NULL_BALLOT)
    && (forall x :: x in s.votes && x.node == n && x.ballot.id > 0 ==> OwnRecord(log, x.inst).Some?)
  }

  ghost predicate IdInv(s: Sys, n: NodeId, node: Node) {
    && node.prop.id >= 1
    && (forall m :: m in s.sent && (m.Prepare? || m.Accept?) && m.from == n ==>
          && m.id <= node.prop.id
          && node.acc.promise.AtLeast(Ballot(m.id, n))
          && (m.id == node.prop.id ==> m.inst <= node.inst))
    && (node.prop.preparing || node.prop.canSkip ==> node.acc.promise.AtLeast(Ballot(node.prop.id, n)))
  }

  /** An Accept of the present ballot without the own vote leaves the reject flag up until the ballot changes. */
  ghost predicate OwnVoteInv(s: Sys, n: NodeId, node: Node) {
    forall i: nat, v :: Proposed(s, i, Ballot(node.prop.id, n), v) ==>
      Vote(n, i, Ballot(node.prop.id, n), v) in s.votes || (node.prop.wasRejected && !node.prop.preparing)
  }

  /** Once sent, the value of (instance, ballot) is pinned. */
  ghost predicate PinInv(s: Sys, n: NodeId, node: Node) {
    forall v :: Proposed(s, node.inst, Ballot(node.prop.id, n), v) ==>
      v == node.prop.value && (node.prop.preparing ==> node.prop.highestPre == Ballot(node.prop.id, n))
  }

  ghost predicate PreparingInv(cfg: Config, s: Sys, n: NodeId, node: Node)
    requires Wf(cfg, s)
  {
    var b := Ballot(node.prop.id, n);
    && node.prop.value != []
    && (forall a :: a in node.prop.counter.granted ==>
          a in cfg.nodes && Promised(s, a, node.inst, b, node.prop.highestPre))
    && (node.prop.highestPre.id > 0 ==>
          Proposed(s, node.inst, node.prop.highestPre, node.prop.value) && b.AtLeast(node.prop.highestPre))
    && (node.prop.highestPre.id == 0 ==> node.prop.highestPre == NULL_BALLOT)
  }

  ghost predicate AcceptingInv(cfg: Config, s: Sys, n: NodeId, node: Node) {
    var b := Ballot(node.prop.id, n);
    && Proposed(s, node.inst, b, node.prop.value)
    && forall a :: a in node.prop.counter.granted ==>
         a in cfg.nodes && Vote(a, node.inst, b, node.prop.value) in s.votes
  }

  ghost predicate SkipInv(cfg: Config, s: Sys, n: NodeId, node: Node)
    requires Wf(cfg, s)
  {
    var b := Ballot(node.prop.id, n);
    && QuorumPledged(cfg, s, node.inst + 1, b)
    && (Proposed(s, node.inst, b, node.prop.value) || QuorumPledged(cfg, s, node.inst, b))
  }

  /** The acceptor, its log and the checksums. */
  ghost predicate StoreInv(cfg: Config, s: Sys, n: NodeId, node: Node) {
    && AccInv(s, n, node)
    && LogInv(cfg, s, n, node)
    && ChkInv(cfg, node)
    && OwnInv(cfg, s, n, node.log, node.acc.promise)
  }

  ghost predicate PropInv(cfg: Config, s: Sys, n: NodeId, node: Node)
    requires Wf(cfg, s)
  {
    && OwnVoteInv(s, n, node)
    && PinInv(s, n, node)
    && !(node.prop.preparing && node.prop.accepting)
    && (node.prop.preparing ==> PreparingInv(cfg, s, n, node))
    && (node.prop.accepting ==> AcceptingInv(cfg, s, n, node))
    && (node.prop.canSkip ==> SkipInv(cfg, s, n, node))
  }

  ghost predicate NodeInv(cfg: Config, s: Sys, n: NodeId)
    requires Wf(cfg, s) && n in cfg.nodes
  {
    && StoreInv(cfg, s, n, s.nodes[n])
    && IdInv(s, n, s.nodes[n])
    && PropInv(cfg, s, n, s.nodes[n])
  }

  ghost predicate GlobalInv(cfg: Config, s: Sys)
    requires Wf(cfg, s)
  {
    && VotesProposed(cfg, s)
    && OneValue(s)
    && ProposalsSafe(cfg, s)
    && LearnedChosen(cfg, s)
    && MessagesOk(cfg, s)
  }

  ghost predicate Inv(cfg: Config, s: Sys) {
    && Wf(cfg, s)
    && GlobalInv(cfg, s)
    && forall n :: n in cfg.nodes ==> NodeInv(cfg, s, n)
  }

  // ---------------------------------------------------------------- growth

  /** Promises only rise, and a new vote respects the voter's old promise. */
  ghost predicate Grows(cfg: Config, s: Sys, s': Sys) {
    && Wf(cfg, s) && Wf(cfg, s')
    && s.sent <= s'.sent && s.votes <= s'.votes && s.learned <= s'.learned
    && (forall a :: a in cfg.nodes ==> s'.nodes[a].acc.promise.AtLeast(s.nodes[a].acc.promise))
    && (forall x :: x in s'.votes ==>
          x in s.votes || (x.node in cfg.nodes && x.ballot.AtLeast(s.nodes[x.node].acc.promise)))
  }
}
