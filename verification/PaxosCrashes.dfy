/** A crash that loses copied records: the node is back where it was before it copied them. */
module PaxosCrashes {
  import opened PaxosTypes
  import opened NodeSpec
  import opened PaxosSystem
  import opened PaxosInvariant
  import opened PaxosStable
  import opened PaxosSteps
  import opened PaxosAcceptorSteps
  import opened PaxosLearnSteps

  function AccOf(r: Record): Acceptor {
    Acceptor(r.promise, r.accepted, r.value, r.chk)
  }

  /** The node with its memory as it was at the start of instance `top`, and a new proposer. */
  function Rewound(node: Node, top: nat): Node {
    var log := Lost(node.log, top);
    Node(node.me, top, FreshProposer(node.acc.promise.id + 1),
         if top in log then AccOf(log[top]) else Acceptor(node.acc.promise, NULL_BALLOT, [], 0),
         if top > 0 && top - 1 in log then log[top - 1].chk else 0, log)
  }

  /** What can be lost are copies only: the acceptor's own records stay. */
  lemma LostKeepsOwn(cfg: Config, s: Sys, n: NodeId, log: map<nat, Record>, promise: Ballot, top: nat)
    requires OwnInv(cfg, s, n, log, promise) && Losable(log, top)
    ensures forall k: nat :: OwnRecord(Lost(log, top), k) == OwnRecord(log, k)
    ensures forall k :: k in Lost(log, top) ==> k in log && k <= top
    ensures forall k: nat :: k < top ==> (k in Lost(log, top) <==> k in log) && (k in log ==> Lost(log, top)[k] == log[k])
    ensures top in Lost(log, top) ==> OwnRecord(log, top) == Some(Lost(log, top)[top])
  {
    forall k: nat
      ensures OwnRecord(Lost(log, top), k) == OwnRecord(log, k)
    {
      if k in log && OwnRecord(log, k).Some? {
        assert OwnRecOk(cfg, s, n, log, k, OwnRecord(log, k).value);
      }
    }
  }

  lemma LostOwn(cfg: Config, s: Sys, n: NodeId, log: map<nat, Record>, promise: Ballot, top: nat)
    requires OwnInv(cfg, s, n, log, promise) && Losable(log, top)
    ensures OwnInv(cfg, s, n, Lost(log, top), promise)
  {
    LostKeepsOwn(cfg, s, n, log, promise, top);
    var log' := Lost(log, top);
    hide OwnRecord, Lost, Losable;
    forall k | k in log' && OwnRecord(log', k).Some?
      ensures OwnRecOk(cfg, s, n, log', k, OwnRecord(log', k).value)
    {
      assert OwnRecOk(cfg, s, n, log, k, OwnRecord(log, k).value);
      PrefixSame(log, log', k);
    }
    forall k | k in log' && LastOwn(log', k)
      ensures OwnRecord(log', k).value.promise == promise
    {
      LastStays(log, log', k);
    }
    if forall k :: k in log' ==> OwnRecord(log', k).None? {
      forall k | k in log
        ensures OwnRecord(log, k).None?
      {
        OwnInLog(log', k);
      }
    }
  }

  lemma OwnInLog(log: map<nat, Record>, k: nat)
    ensures OwnRecord(log, k).Some? ==> k in log
  {
  }

  lemma LastStays(log: map<nat, Record>, log': map<nat, Record>, k: nat)
    requires LastOwn(log', k) && forall j: nat :: OwnRecord(log', j) == OwnRecord(log, j)
    ensures LastOwn(log, k)
  {
    forall j | j in log && j > k
      ensures OwnRecord(log, j).None?
    {
      OwnInLog(log', j);
    }
  }

  /** From the instance of the first lost copy on the node has no vote beyond its own record there. */
  lemma VotesUpTo(cfg: Config, s: Sys, n: NodeId, log: map<nat, Record>, promise: Ballot, top: nat, x: Vote)
    requires Wf(cfg, s) && VotesProposed(cfg, s) && ProposalsSafe(cfg, s) && OwnInv(cfg, s, n, log, promise) && Losable(log, top)
    requires x in s.votes && x.node == n
    ensures x.inst <= top && OwnRecord(log, x.inst).Some?
  {
    assert Proposed(s, x.inst, x.ballot, x.value);
  }

  lemma RewoundAcc(cfg: Config, s: Sys, n: NodeId, node: Node, top: nat)
    requires Wf(cfg, s) && VotesProposed(cfg, s) && ProposalsSafe(cfg, s) && AccInv(s, n, node)
    requires OwnInv(cfg, s, n, node.log, node.acc.promise) && Losable(node.log, top)
    ensures AccInv(s, n, Rewound(node, top)) && Rewound(node, top).acc.promise == node.acc.promise
  {
    var log := node.log;
    LostKeepsOwn(cfg, s, n, log, node.acc.promise, top);
    forall x | x in s.votes && x.node == n
      ensures x.inst <= top && OwnRecord(log, x.inst).Some?
    {
      VotesUpTo(cfg, s, n, log, node.acc.promise, top, x);
    }
    if top in Lost(log, top) {
      assert LastOwn(log, top);
      assert OwnRecOk(cfg, s, n, log, top, OwnRecord(log, top).value);
    } else {
      assert OwnRecord(log, top).None? by { OwnInLog(Lost(log, top), top); }
    }
  }

  lemma RewoundHistory(cfg: Config, s: Sys, n: NodeId, node: Node, top: nat)
    requires HistoryInv(cfg, s, n, node.log, node.inst) && top <= node.inst
    ensures HistoryInv(cfg, s, n, Lost(node.log, top), top)
  {
  }

  /** The record at `top` is the acceptor's own, or there is none and the one before bears the promise. */
  lemma RewoundTop(cfg: Config, s: Sys, n: NodeId, log: map<nat, Record>, promise: Ballot, top: nat)
    requires OwnInv(cfg, s, n, log, promise) && Losable(log, top)
    ensures var log' := Lost(log, top);
      && (top in log' ==> log'[top] == Record(promise, log'[top].accepted, log'[top].value, log'[top].chk, true, None))
      && (top !in log' && top == 0 ==> promise == NULL_BALLOT)
      && (top !in log' && top > 0 && top - 1 in log' && log'[top - 1].persisted ==> log'[top - 1].promise == promise)
  {
    var log' := Lost(log, top);
    LostKeepsOwn(cfg, s, n, log, promise, top);
    LostOwn(cfg, s, n, log, promise, top);
    hide Lost, Losable;
    if top in log' {
      assert LastOwn(log', top);
      assert OwnRecOk(cfg, s, n, log', top, OwnRecord(log', top).value);
    } else if top > 0 && top - 1 in log' && log'[top - 1].persisted {
      assert LastOwn(log', top - 1);
    }
  }

  lemma RewoundLog(cfg: Config, s: Sys, n: NodeId, node: Node, top: nat)
    requires LogInv(cfg, s, n, node) && top <= node.inst
    requires OwnInv(cfg, s, n, node.log, node.acc.promise) && Losable(node.log, top)
    ensures LogInv(cfg, s, n, Rewound(node, top))
  {
    hide HistoryInv, Lost, Losable, OwnInv, OwnRecord;
    RewoundHistory(cfg, s, n, node, top);
    LostKeepsOwn(cfg, s, n, node.log, node.acc.promise, top);
    RewoundTop(cfg, s, n, node.log, node.acc.promise, top);
  }

  lemma ChkStays(cfg: Config, log: map<nat, Record>, log': map<nat, Record>, k: nat)
    requires k in log && log[k].chk == Fold(cfg, LogPrefix(log, k + 1))
    requires forall j: nat :: j <= k ==> (j in log' <==> j in log) && (j in log ==> log'[j] == log[j])
    ensures log'[k].chk == Fold(cfg, LogPrefix(log', k + 1))
  {
    PrefixSame(log, log', k + 1);
  }

  lemma EmptyFold(cfg: Config, log: map<nat, Record>)
    ensures Fold(cfg, LogPrefix(log, 0)) == 0
  {
  }

  /** Logs that agree up to `top` agree on the checksums up to there. */
  lemma SameChks(cfg: Config, log: map<nat, Record>, log': map<nat, Record>, top: nat)
    requires forall k: nat :: k < top ==> k in log && log[k].chk == Fold(cfg, LogPrefix(log, k + 1))
    requires forall k: nat :: k < top ==> k in log' && log'[k] == log[k]
    ensures forall k: nat :: k < top ==> k in log' && log'[k].chk == Fold(cfg, LogPrefix(log', k + 1))
    ensures (if top > 0 then log'[top - 1].chk else 0) == Fold(cfg, LogPrefix(log', top))
  {
    hide LogPrefix, Fold;
    forall k: nat | k < top
      ensures log'[k].chk == Fold(cfg, LogPrefix(log', k + 1))
    {
      ChkStays(cfg, log, log', k);
    }
    EmptyFold(cfg, log');
    if top > 0 {
      ChkStays(cfg, log, log', top - 1);
    }
  }

  lemma HistoryChks(cfg: Config, s: Sys, n: NodeId, node: Node)
    requires HistoryInv(cfg, s, n, node.log, node.inst) && ChkHistory(cfg, node)
    ensures forall k: nat :: k < node.inst ==>
      k in node.log && node.log[k].chk == Fold(cfg, LogPrefix(node.log, k + 1))
  {
    hide Chosen, RecOk, LogPrefix, Fold;
  }

  lemma RewoundPrefix(cfg: Config, s: Sys, n: NodeId, node: Node, top: nat)
    requires HistoryInv(cfg, s, n, node.log, node.inst) && ChkHistory(cfg, node) && top <= node.inst
    requires OwnInv(cfg, s, n, node.log, node.acc.promise) && Losable(node.log, top)
    ensures ChkHistory(cfg, Rewound(node, top))
  {
    hide *;
    HistoryChks(cfg, s, n, node);
    LostKeepsOwn(cfg, s, n, node.log, node.acc.promise, top);
    SameChks(cfg, node.log, Lost(node.log, top), top);
    RewoundChks(cfg, node, top);
  }

  lemma RewoundChks(cfg: Config, node: Node, top: nat)
    requires var log' := Lost(node.log, top);
      && (forall k: nat :: k < top ==> k in log' && log'[k].chk == Fold(cfg, LogPrefix(log', k + 1)))
      && (if top > 0 then log'[top - 1].chk else 0) == Fold(cfg, LogPrefix(log', top))
    ensures ChkHistory(cfg, Rewound(node, top))
  {
    hide Lost, LogPrefix, Fold;
  }

  lemma RewoundChk(cfg: Config, s: Sys, n: NodeId, node: Node, top: nat)
    requires HistoryInv(cfg, s, n, node.log, node.inst) && ChkHistory(cfg, node) && top <= node.inst
    requires OwnInv(cfg, s, n, node.log, node.acc.promise) && Losable(node.log, top)
    ensures ChkInv(cfg, Rewound(node, top))
  {
    RewoundPrefix(cfg, s, n, node, top);
    LostOwn(cfg, s, n, node.log, node.acc.promise, top);
    LostKeepsOwn(cfg, s, n, node.log, node.acc.promise, top);
    var log' := Lost(node.log, top);
    if top in log' {
      assert OwnRecOk(cfg, s, n, log', top, OwnRecord(log', top).value);
    }
    hide Lost, Losable, OwnInv, HistoryInv, LogPrefix, Fold, Checksum, RecOk;
  }

  lemma LogHistory(cfg: Config, s: Sys, n: NodeId, node: Node)
    requires LogInv(cfg, s, n, node) && ChkInv(cfg, node)
    ensures HistoryInv(cfg, s, n, node.log, node.inst) && ChkHistory(cfg, node)
  {
  }

  /** A new proposer above the promise: no ballot of it has been used. */
  lemma RewoundIds(cfg: Config, s: Sys, n: NodeId, node: Node, top: nat)
    requires Wf(cfg, s) && IdInv(s, n, node) && Rewound(node, top).acc.promise == node.acc.promise
    ensures IdInv(s, n, Rewound(node, top)) && PropInv(cfg, s, n, Rewound(node, top))
  {
    var node' := Rewound(node, top);
    forall m | m in s.sent && (m.Prepare? || m.Accept?) && m.from == n
      ensures m.id < node'.prop.id
    {
    }
    forall i: nat, v
      ensures !Proposed(s, i, Ballot(node'.prop.id, n), v)
    {
      FreshId(s, n, node'.prop.id, i, v);
    }
  }

  lemma RewoundOwn(node: Node, top: nat)
    ensures Rewound(node, top).me == node.me && Rewound(node, top).log == Lost(node.log, top)
    ensures Rewound(node, top).inst == top
  {
  }

  lemma QuietShape(s: Sys, n: NodeId, node: Node, node': Node)
    requires n in s.nodes && s.nodes[n] == node && node.me == n && node'.me == n && node'.acc.promise == node.acc.promise
    ensures OwnEffects(s, n, Quiet(node')) && Quiet(node').node == node' && Quiet(node').fx == NO_EFFECTS
  {
  }

  /** Rewinding is no event of its own, but it keeps the invariant. */
  lemma RewindStep(cfg: Config, s: Sys, n: NodeId, top: nat)
    requires n in cfg.nodes && n in s.nodes && top <= s.nodes[n].inst && Losable(s.nodes[n].log, top)
    requires Inv(cfg, s)
    ensures Inv(cfg, Apply(s, n, Quiet(Rewound(s.nodes[n], top))))
  {
    hide *;
    var node := s.nodes[n];
    var node' := Rewound(node, top);
    InvAt(cfg, s, n);
    GlobalVotes(cfg, s);
    StoreParts(cfg, s, n, node);
    RewoundOwn(node, top);
    RewoundAcc(cfg, s, n, node, top);
    RewoundLog(cfg, s, n, node, top);
    LogHistory(cfg, s, n, node);
    RewoundChk(cfg, s, n, node, top);
    RewoundIds(cfg, s, n, node, top);
    LostOwn(cfg, s, n, node.log, node.acc.promise, top);
    StoreParts(cfg, s, n, node');
    NodeName(cfg, s, n);
    QuietShape(s, n, node, node');
    LearnedNothing(cfg, s, n, node');
  }

  lemma NodeName(cfg: Config, s: Sys, n: NodeId)
    requires Wf(cfg, s) && n in s.nodes
    ensures s.nodes[n].me == n
  {
  }

  lemma LearnedNothing(cfg: Config, s: Sys, n: NodeId, node': Node)
    requires Inv(cfg, s) && n in cfg.nodes && n in s.nodes && OwnEffects(s, n, Quiet(node'))
    requires Wf(cfg, s) ==> StoreInv(cfg, s, n, node') && IdInv(s, n, node') && PropInv(cfg, s, n, node')
    ensures Inv(cfg, Apply(s, n, Quiet(node')))
  {
    hide Inv, StoreInv, IdInv, PropInv, OwnEffects, Apply;
    LearnedStep(cfg, s, n, Quiet(node'));
  }

  // ---------------------------------------------------------------- crash and start

  lemma RewoundStart(s: Sys, n: NodeId, top: nat, k: nat, next: nat)
    requires n in s.nodes
    ensures var node, s1 := s.nodes[n], Apply(s, n, Quiet(Rewound(s.nodes[n], top)));
      && n in s1.nodes && s1.nodes[n] == Rewound(node, top)
      && Apply(s1, n, Reopen(s1.nodes[n], k, next)) == Apply(s, n, Reopen(Survivor(node, Some(top)), k, next))
      && (Newest(Survivor(node, Some(top)), k) ==> Newest(s1.nodes[n], k))
      && (RestartPermitted(Survivor(node, Some(top)), k) ==> RestartPermitted(s1.nodes[n], k))
  {
    var node, s1 := s.nodes[n], Apply(s, n, Quiet(Rewound(s.nodes[n], top)));
    assert s.nodes[n := Rewound(node, top)][n := Restart(s1.nodes[n], k, next)] ==
      s.nodes[n := Restart(s1.nodes[n], k, next)];
  }

  /** A crash and the start after it, whether copies were lost or not. */
  lemma CrashStep(cfg: Config, s: Sys, n: NodeId, lost: Option<nat>, k: nat, next: nat)
    requires n in cfg.nodes && n in s.nodes && Starts(s.nodes[n], lost, k, next)
    requires RestartPermitted(Survivor(s.nodes[n], lost), k) && CheckpointPermitted(lost, next)
    requires Inv(cfg, s)
    ensures Inv(cfg, Apply(s, n, Reopen(Survivor(s.nodes[n], lost), k, next)))
  {
    hide *;
    StartParts(s.nodes[n], lost, k, next);
    match lost
    case None =>
      RestartStep(cfg, s, n, k, next);
    case Some(top) =>
      RewindStep(cfg, s, n, top);
      RewoundStart(s, n, top, k, next);
      RewoundOwn(s.nodes[n], top);
      RestartStep(cfg, Apply(s, n, Quiet(Rewound(s.nodes[n], top))), n, k, next);
  }

  lemma StartParts(n: Node, lost: Option<nat>, k: nat, next: nat)
    requires Starts(n, lost, k, next) && CheckpointPermitted(lost, next)
    ensures Newest(Survivor(n, lost), k) && next <= n.inst
    ensures lost.None? ==> Survivor(n, lost) == n
    ensures lost.Some? ==> lost.value <= n.inst && Losable(n.log, lost.value) && next <= lost.value
  {
  }

  /** The promise survives the crash exactly. */
  lemma CrashKeepsPromise(cfg: Config, s: Sys, n: NodeId, lost: Option<nat>, k: nat, next: nat)
    requires n in cfg.nodes && n in s.nodes && Starts(s.nodes[n], lost, k, next)
    requires RestartPermitted(Survivor(s.nodes[n], lost), k) && CheckpointPermitted(lost, next)
    requires Inv(cfg, s)
    ensures Restart(Survivor(s.nodes[n], lost), k, next).acc.promise == s.nodes[n].acc.promise
  {
    hide *;
    var node := s.nodes[n];
    InvAt(cfg, s, n);
    StoreParts(cfg, s, n, node);
    StartParts(node, lost, k, next);
    match lost
    case None =>
      RestartKeepsPromise(cfg, s, n, node, k, next);
    case Some(top) =>
      GlobalVotes(cfg, s);
      RewoundOwn(node, top);
      RewoundAcc(cfg, s, n, node, top);
      RewoundLog(cfg, s, n, node, top);
      RewoundStart(s, n, top, k, next);
      RestartKeepsPromise(cfg, s, n, Rewound(node, top), k, next);
      SurvivorLog(node, top);
      SameLogSameStart(Rewound(node, top), Survivor(node, lost), k, next);
  }

  lemma SurvivorLog(node: Node, top: nat)
    ensures Survivor(node, Some(top)).log == Lost(node.log, top)
  {
  }

  lemma SameLogSameStart(n: Node, n': Node, k: nat, next: nat)
    requires n'.log == n.log
    ensures Restart(n', k, next).acc == Restart(n, k, next).acc
  {
  }
}
