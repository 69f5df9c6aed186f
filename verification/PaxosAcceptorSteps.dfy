/** Steps that write the acceptor's state or finish an instance. */
module PaxosAcceptorSteps {
  import opened PaxosTypes
  import opened NodeSpec
  import opened PaxosSystem
  import opened PaxosInvariant
  import opened PaxosStable
  import opened PaxosSteps

  lemma PrefixSame(log: map<nat, Record>, log': map<nat, Record>, k: nat)
    requires forall j: nat :: j < k ==> (j in log <==> j in log') && (j in log ==> log[j].value == log'[j].value)
    ensures LogPrefix(log, k) == LogPrefix(log', k)
  {
  }

  lemma PrefixStep(cfg: Config, log: map<nat, Record>, k: nat)
    requires k in log
    ensures Fold(cfg, LogPrefix(log, k + 1)) == Checksum(cfg, k, Fold(cfg, LogPrefix(log, k)), log[k].value)
  {
    assert LogPrefix(log, k + 1)[..k] == LogPrefix(log, k);
  }

  lemma HistoryPrefix(cfg: Config, s: Sys, n: NodeId, node: Node)
    requires HistoryInv(cfg, s, n, node.log, node.inst)
    ensures Prefix(cfg, s, LogPrefix(node.log, node.inst), node.inst)
  {
  }

  /** The node's own checksum is that of the chosen values before its instance. */
  lemma OwnChkOk(cfg: Config, s: Sys, n: NodeId, node: Node)
    requires StoreInv(cfg, s, n, node)
    ensures ChkOk(cfg, s, node.inst, node.lastChk)
  {
    HistoryPrefix(cfg, s, n, node);
  }

  lemma PersistChks(cfg: Config, node: Node)
    requires node.acc.accepted.id > 0 ==> node.acc.value != []
    requires ChkHistory(cfg, node)
    ensures ChkInv(cfg, Persist(cfg, node))
  {
    var node' := Persist(cfg, node);
    hide LogPrefix, Fold;
    PrefixSame(node.log, node'.log, node.inst);
    forall k: nat | k < node.inst && k in node'.log
      ensures node'.log[k].chk == Fold(cfg, LogPrefix(node'.log, k + 1))
    {
      PrefixSame(node.log, node'.log, k + 1);
    }
  }

  lemma PersistAcc(cfg: Config, s: Sys, n: NodeId, node: Node)
    requires AccInv(s, n, node)
    ensures AccInv(s, n, Persist(cfg, node))
  {
  }

  lemma PersistHistory(cfg: Config, s: Sys, n: NodeId, node: Node)
    requires KeysBelow(node)
    requires HistoryInv(cfg, s, n, node.log, node.inst)
    ensures LogInv(cfg, s, n, Persist(cfg, node))
  {
    var node' := Persist(cfg, node);
    assert node'.log == node.log[node.inst := AccRecord(node')];
  }

  /** The acceptor's own records of the instances before, and its votes in all others. */
  ghost predicate OwnBelow(cfg: Config, s: Sys, n: NodeId, log: map<nat, Record>, inst: nat) {
    && (forall k :: k in log && k < inst && OwnRecord(log, k).Some? ==>
          OwnRecOk(cfg, s, n, log, k, OwnRecord(log, k).value))
    && (forall x :: x in s.votes && x.node == n && x.ballot.id > 0 && x.inst != inst ==> OwnRecord(log, x.inst).Some?)
  }

  lemma OwnBelowKept(cfg: Config, s: Sys, s': Sys, n: NodeId, log: map<nat, Record>, promise: Ballot, inst: nat)
    requires OwnInv(cfg, s, n, log, promise) && s.votes <= s'.votes
    requires forall x :: x in s'.votes && x.node == n && x.inst != inst ==> x in s.votes
    ensures OwnBelow(cfg, s', n, log, inst)
  {
    forall k | k in log && k < inst && OwnRecord(log, k).Some?
      ensures OwnRecOk(cfg, s', n, log, k, OwnRecord(log, k).value)
    {
      RecOkKept(s, s', n, k, OwnRecord(log, k).value);
    }
  }

  /** After the write the present record is the last of the own ones. */
  lemma PersistLog(cfg: Config, node: Node)
    requires KeysBelow(node)
    ensures var node' := Persist(cfg, node);
      && node'.log == node.log[node.inst := AccRecord(node')] && node'.acc.promise == node.acc.promise
      && OwnRecord(node'.log, node.inst) == Some(AccRecord(node'))
      && (forall k: nat :: k != node.inst ==> OwnRecord(node'.log, k) == OwnRecord(node.log, k))
      && forall k :: k in node'.log ==> k <= node.inst
  {
  }

  lemma PersistRec(cfg: Config, s: Sys, n: NodeId, node: Node, k: nat)
    requires AccInv(s, n, node) && KeysBelow(node) && OwnBelow(cfg, s, n, node.log, node.inst)
    requires ChkInv(cfg, Persist(cfg, node))
    requires var log' := Persist(cfg, node).log; k in log' && OwnRecord(log', k).Some?
    ensures var log' := Persist(cfg, node).log; OwnRecOk(cfg, s, n, log', k, OwnRecord(log', k).value)
  {
    var node' := Persist(cfg, node);
    PersistLog(cfg, node);
    PrefixSame(node.log, node'.log, k);
    if k < node.inst {
      assert OwnRecOk(cfg, s, n, node.log, k, OwnRecord(node.log, k).value);
    }
  }

  lemma PersistOwn(cfg: Config, s: Sys, n: NodeId, node: Node)
    requires AccInv(s, n, node) && KeysBelow(node) && OwnBelow(cfg, s, n, node.log, node.inst)
    requires ChkInv(cfg, Persist(cfg, node))
    ensures OwnInv(cfg, s, n, Persist(cfg, node).log, node.acc.promise)
  {
    var log' := Persist(cfg, node).log;
    PersistLog(cfg, node);
    forall k | k in log' && OwnRecord(log', k).Some?
      ensures OwnRecOk(cfg, s, n, log', k, OwnRecord(log', k).value)
    {
      PersistRec(cfg, s, n, node, k);
    }
    hide Persist, OwnRecord, OwnRecOk, AccInv, ChkInv, KeysBelow;
  }

  /** Writing the live acceptor to the log. */
  lemma PersistStore(cfg: Config, s: Sys, n: NodeId, node: Node)
    requires AccInv(s, n, node)
    requires node.acc.accepted.id > 0 ==> node.acc.value != []
    requires KeysBelow(node)
    requires HistoryInv(cfg, s, n, node.log, node.inst)
    requires ChkHistory(cfg, node) && OwnBelow(cfg, s, n, node.log, node.inst)
    ensures StoreInv(cfg, s, n, Persist(cfg, node))
  {
    hide AccInv, HistoryInv, LogInv, ChkInv, ChkHistory, OwnBelow, OwnInv;
    PersistAcc(cfg, s, n, node);
    PersistHistory(cfg, s, n, node);
    PersistChks(cfg, node);
    PersistOwn(cfg, s, n, node);
    PersistKeeps(cfg, node);
  }

  lemma AcceptedNonEmpty(cfg: Config, s: Sys, n: NodeId, node: Node)
    requires Wf(cfg, s) && GlobalInv(cfg, s) && AccInv(s, n, node)
    ensures node.acc.accepted.id > 0 ==>
      node.acc.value != [] && Proposed(s, node.inst, node.acc.accepted, node.acc.value)
  {
  }

  /** The own votes of the present instance, as the acceptor reports them. */
  lemma PrepareStore(cfg: Config, s: Sys, n: NodeId, node: Node, from: NodeId, id: nat)
    requires Wf(cfg, s) && GlobalInv(cfg, s) && StoreInv(cfg, s, n, node)
    ensures var r := AcceptorOnPrepare(cfg, node, from, id);
      && StoreInv(cfg, s, n, r.node)
      && r.node.acc.promise.AtLeast(node.acc.promise)
      && r.node.acc.promise.AtLeast(Ballot(id, from))
  {
    hide GlobalInv, HistoryInv, ChkHistory, Persist, KeysBelow, OwnInv, OwnBelow;
    StoreBase(cfg, s, n, node);
    OwnBelowKept(cfg, s, s, n, node.log, node.acc.promise, node.inst);
    AcceptedNonEmpty(cfg, s, n, node);
    var b := Ballot(id, from);
    if b.AtLeast(node.acc.promise) {
      var node1 := node.(acc := node.acc.(promise := b));
      PersistKeeps(cfg, node1);
      SameHistory(cfg, node, node1);
      PersistStore(cfg, s, n, node1);
    }
  }

  lemma StoreBase(cfg: Config, s: Sys, n: NodeId, node: Node)
    requires StoreInv(cfg, s, n, node)
    ensures AccInv(s, n, node) && KeysBelow(node) && HistoryInv(cfg, s, n, node.log, node.inst) && ChkHistory(cfg, node)
    ensures OwnInv(cfg, s, n, node.log, node.acc.promise)
  {
  }

  lemma PersistKeeps(cfg: Config, node: Node)
    ensures Persist(cfg, node).acc.promise == node.acc.promise
  {
  }

  lemma SameHistory(cfg: Config, node: Node, node1: Node)
    requires node1 == node.(acc := node1.acc)
    ensures KeysBelow(node) ==> KeysBelow(node1)
    ensures ChkHistory(cfg, node) ==> ChkHistory(cfg, node1)
  {
  }

  /** A granted Prepare: nothing the acceptor accepted escapes the reply. */
  lemma PrepareGrant(cfg: Config, s: Sys, n: NodeId, node: Node, from: NodeId, id: nat)
    requires Wf(cfg, s) && GlobalInv(cfg, s) && StoreInv(cfg, s, n, node) && n in cfg.nodes && node.me == n
    requires Ballot(id, from).AtLeast(node.acc.promise)
    ensures var r := AcceptorOnPrepare(cfg, node, from, id);
      var s' := Apply(s, n, Quiet(r.node));
      && Promised(s', n, node.inst, Ballot(id, from), r.pre)
      && (r.pre.id > 0 ==> Proposed(s, node.inst, r.pre, r.value) && Ballot(id, from).AtLeast(r.pre))
      && (r.pre.id == 0 ==> r.pre == NULL_BALLOT)
  {
    AcceptedNonEmpty(cfg, s, n, node);
  }

  lemma RejectPositive(cfg: Config, n: Node, from: NodeId, id: nat)
    requires id > 0
    ensures AcceptorOnPrepare(cfg, n, from, id).rejectBy == 0 <==> Ballot(id, from).AtLeast(n.acc.promise)
  {
  }

  lemma AcceptAcc(s: Sys, s': Sys, n: NodeId, node: Node, b: Ballot, v: Value)
    requires AccInv(s, n, node) && b.AtLeast(node.acc.promise) && b.id > 0
    requires s'.votes == s.votes + {Vote(n, node.inst, b, v)}
    ensures AccInv(s', n, node.(acc := node.acc.(promise := b, accepted := b, value := v)))
  {
  }

  /** An acceptance by node `n`, with its vote added to the votes of `s`. */
  lemma AcceptStore(cfg: Config, s: Sys, s': Sys, n: NodeId, node: Node, from: NodeId, id: nat, v: Value)
    requires Wf(cfg, s) && GlobalInv(cfg, s) && StoreInv(cfg, s, n, node) && node.me == n
    requires v != [] && id > 0
    requires s'.votes == s.votes + AcceptorOnAccept(cfg, node, from, id, v).votes
    ensures var r := AcceptorOnAccept(cfg, node, from, id, v);
      && StoreInv(cfg, s', n, r.node)
      && r.node.acc.promise.AtLeast(node.acc.promise)
      && r.node.acc.promise.AtLeast(Ballot(id, from))
  {
    var b := Ballot(id, from);
    hide GlobalInv, HistoryInv, AccInv, ChkHistory, Persist, KeysBelow, StoreInv, OwnInv, OwnBelow;
    if b.AtLeast(node.acc.promise) {
      var node1 := node.(acc := node.acc.(promise := b, accepted := b, value := v));
      StoreBase(cfg, s, n, node);
      PersistKeeps(cfg, node1);
      SameHistory(cfg, node, node1);
      HistoryKept(cfg, s, s', n, node.log, node.inst);
      OwnBelowKept(cfg, s, s', n, node.log, node.acc.promise, node.inst);
      AcceptAcc(s, s', n, node, b, v);
      PersistStore(cfg, s', n, node1);
    } else {
      assert s'.votes == s.votes;
      StoreKept(cfg, s, s', n, node);
    }
  }

  // ---------------------------------------------------------------- others' requests

  lemma PrepareReplyOk(cfg: Config, s: Sys, n: NodeId, from: NodeId, id: nat)
    requires Wf(cfg, s) && GlobalInv(cfg, s) && n in cfg.nodes && id > 0
    requires StoreInv(cfg, s, n, s.nodes[n])
    requires Wf(cfg, Apply(s, n, Quiet(AcceptorOnPrepare(cfg, s.nodes[n], from, id).node)))
    ensures var r := AcceptorOnPrepare(cfg, s.nodes[n], from, id);
      var s' := Apply(s, n, Quiet(r.node));
      MsgOk(cfg, s', PrepareReply(s.nodes[n].inst, n, from, id, r.rejectBy, r.pre, r.value))
  {
    var node := s.nodes[n];
    var r := AcceptorOnPrepare(cfg, node, from, id);
    var s' := Apply(s, n, Quiet(r.node));
    RejectPositive(cfg, node, from, id);
    if r.rejectBy == 0 {
      hide GlobalInv, StoreInv, AcceptorOnPrepare, Promised, Proposed;
      PrepareGrant(cfg, s, n, node, from, id);
      if r.pre.id > 0 { ProposedGrows(s, s', node.inst, r.pre, r.value); }
    }
  }

  lemma PrepareShape(cfg: Config, s: Sys, n: NodeId, from: NodeId, id: nat)
    requires Wf(cfg, s) && n in cfg.nodes
    ensures var r := AcceptorOnPrepare(cfg, s.nodes[n], from, id);
      && r.node.prop == s.nodes[n].prop && r.node.inst == s.nodes[n].inst && r.node.me == n
      && r.node.acc.promise.AtLeast(s.nodes[n].acc.promise)
      && Wf(cfg, Apply(s, n, Quiet(r.node)))
      && OwnEffects(s, n, Quiet(r.node))
  {
  }

  lemma OnOthersPrepare(cfg: Config, s: Sys, n: NodeId, from: NodeId, id: nat)
    requires Inv(cfg, s) && n in cfg.nodes && id > 0
    ensures n in s.nodes
    ensures var r := AcceptorOnPrepare(cfg, s.nodes[n], from, id);
      Inv(cfg, Apply(s, n,
        Send(Quiet(r.node), PrepareReply(s.nodes[n].inst, n, from, id, r.rejectBy, r.pre, r.value))))
  {
    hide *;
    InvAt(cfg, s, n);
    var node := s.nodes[n];
    var r := AcceptorOnPrepare(cfg, node, from, id);
    PrepareShape(cfg, s, n, from, id);
    PrepareStore(cfg, s, n, node, from, id);
    PropSameStore(cfg, s, n, node, r.node);
    IdRaise(s, n, node, r.node);
    StoreStep(cfg, s, n, r.node);
    PrepareReplyOk(cfg, s, n, from, id);
    SendAfter(cfg, s, n, Quiet(r.node), PrepareReply(node.inst, n, from, id, r.rejectBy, r.pre, r.value));
  }

  lemma PropSameStore(cfg: Config, s: Sys, n: NodeId, node: Node, node': Node)
    requires Wf(cfg, s) && PropInv(cfg, s, n, node) && node'.prop == node.prop && node'.inst == node.inst
    ensures PropInv(cfg, s, n, node')
  {
  }

  lemma IdRaise(s: Sys, n: NodeId, node: Node, node': Node)
    requires IdInv(s, n, node) && node'.prop == node.prop && node'.inst == node.inst
    requires node'.acc.promise.AtLeast(node.acc.promise)
    ensures IdInv(s, n, node')
  {
  }

  lemma StoreStep(cfg: Config, s: Sys, n: NodeId, node': Node)
    requires Inv(cfg, s) && n in cfg.nodes && n in s.nodes && OwnEffects(s, n, Quiet(node'))
    requires Wf(cfg, s) ==>
      StoreInv(cfg, s, n, node') && IdInv(s, n, node') && PropInv(cfg, s, n, node')
    ensures Inv(cfg, Apply(s, n, Quiet(node')))
  {
    hide StoreInv, IdInv, PropInv;
    NodeKept(cfg, s, n, Quiet(node'));
    PlainStep(cfg, s, n, Quiet(node'));
  }

  lemma AcceptShape(cfg: Config, s: Sys, n: NodeId, from: NodeId, id: nat, v: Value)
    requires Wf(cfg, s) && n in cfg.nodes
    ensures var r := AcceptorOnAccept(cfg, s.nodes[n], from, id, v);
      var o := Out(r.node, Effects({}, r.votes, {}));
      && r.node.prop == s.nodes[n].prop && r.node.inst == s.nodes[n].inst && r.node.me == n
      && r.node.acc.promise.AtLeast(s.nodes[n].acc.promise)
      && (forall x :: x in r.votes ==> x == Vote(n, r.node.inst, Ballot(id, from), v))
      && Wf(cfg, Apply(s, n, o))
      && Apply(s, n, o).votes == s.votes + r.votes
      && OwnEffects(s, n, o)
  {
  }

  lemma OnOthersAccept(cfg: Config, s: Sys, n: NodeId, from: NodeId, id: nat, v: Value)
    requires Inv(cfg, s) && n in cfg.nodes && n in s.nodes && id > 0 && v != []
    requires Proposed(s, s.nodes[n].inst, Ballot(id, from), v)
    ensures var r := AcceptorOnAccept(cfg, s.nodes[n], from, id, v);
      Inv(cfg, Apply(s, n,
        Send(Out(r.node, Effects({}, r.votes, {})), AcceptReply(s.nodes[n].inst, n, from, id, r.rejectBy))))
  {
    hide *;
    InvAt(cfg, s, n);
    var node := s.nodes[n];
    var r := AcceptorOnAccept(cfg, node, from, id, v);
    var o := Out(r.node, Effects({}, r.votes, {}));
    AcceptShape(cfg, s, n, from, id, v);
    AcceptStore(cfg, s, Apply(s, n, o), n, node, from, id, v);
    VoteStep(cfg, s, n, o);
    AcceptReplyOk(cfg, s, n, from, id, v);
    SendAfter(cfg, s, n, o, AcceptReply(node.inst, n, from, id, r.rejectBy));
  }

  lemma AcceptReplyOk(cfg: Config, s: Sys, n: NodeId, from: NodeId, id: nat, v: Value)
    requires Wf(cfg, s) && n in cfg.nodes && id > 0
    ensures var r := AcceptorOnAccept(cfg, s.nodes[n], from, id, v);
      var s' := Apply(s, n, Out(r.node, Effects({}, r.votes, {})));
      Wf(cfg, s') && MsgOk(cfg, s', AcceptReply(s.nodes[n].inst, n, from, id, r.rejectBy))
  {
    var r := AcceptorOnAccept(cfg, s.nodes[n], from, id, v);
    var s' := Apply(s, n, Out(r.node, Effects({}, r.votes, {})));
    if r.rejectBy == 0 {
      assert Vote(n, s.nodes[n].inst, Ballot(id, from), v) in s'.votes;
    }
  }

  /** The acceptor took a proposal that is already out. */
  lemma VoteStep(cfg: Config, s: Sys, n: NodeId, o: Out)
    requires Inv(cfg, s) && n in cfg.nodes && n in s.nodes && OwnEffects(s, n, o)
    requires o == Out(o.node, Effects({}, o.fx.votes, {}))
    requires forall x :: x in o.fx.votes ==> x.ballot.id > 0 && Proposed(s, x.inst, x.ballot, x.value)
    requires o.node.prop == s.nodes[n].prop && o.node.inst == s.nodes[n].inst
    requires StoreInv(cfg, Apply(s, n, o), n, o.node)
    ensures Inv(cfg, Apply(s, n, o))
  {
    InvAt(cfg, s, n);
    hide StoreInv, PropInv, IdInv, Proposed;
    var s' := Apply(s, n, o);
    var node := s.nodes[n];
    ApplyGrows(cfg, s, n, o);
    PropKept(cfg, s, s', n, node);
    PropSameStore(cfg, s', n, node, o.node);
    IdKept(s, s', n, node);
    IdRaise(s', n, node, o.node);
    forall x | x in o.fx.votes
      ensures Proposed(s', x.inst, x.ballot, x.value)
    {
      ProposedGrows(s, s', x.inst, x.ballot, x.value);
    }
    PlainStep(cfg, s, n, o);
  }
}
