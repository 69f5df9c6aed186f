/** Finishing an instance, offering stored values, and restarting from the log. */
module PaxosLearnSteps {
  import opened PaxosTypes
  import opened NodeSpec
  import opened PaxosSystem
  import opened PaxosInvariant
  import opened PaxosStable
  import opened PaxosSteps
  import opened PaxosAcceptorSteps

  /** The present instance's record holds `v`, and the acceptor's own record is complete. */
  ghost predicate RecordReady(cfg: Config, s: Sys, n: NodeId, node: Node, v: Value, chk: nat) {
    && node.inst in node.log
    && node.log[node.inst].value == v && node.log[node.inst].chk == chk
    && chk == Checksum(cfg, node.inst, node.lastChk, v)
    && (node.log[node.inst].persisted ==>
          RecOk(s, n, node.inst, node.log[node.inst]) && node.log[node.inst].promise == node.acc.promise)
  }

  /** What holds of a node whose present instance has the chosen value `v` on record. */
  ghost predicate ReadyToFinish(cfg: Config, s: Sys, n: NodeId, node: Node, v: Value, chk: nat) {
    && v != [] && Chosen(cfg, s, node.inst, v)
    && VotesBelow(s, n, node)
    && KeysBelow(node)
    && HistoryInv(cfg, s, n, node.log, node.inst)
    && ChkHistory(cfg, node)
    && RecordReady(cfg, s, n, node, v, chk)
    && OwnInv(cfg, s, n, node.log, node.acc.promise)
  }

  lemma FinishAcc(cfg: Config, s: Sys, n: NodeId, node: Node, v: Value, chk: nat)
    requires VotesBelow(s, n, node)
    ensures AccInv(s, n, FinishInstance(node, v, chk).node)
  {
  }

  lemma HistoryNext(cfg: Config, s: Sys, n: NodeId, log: map<nat, Record>, inst: nat)
    requires HistoryInv(cfg, s, n, log, inst)
    requires inst in log && log[inst].value != [] && Chosen(cfg, s, inst, log[inst].value)
    requires log[inst].persisted ==> RecOk(s, n, inst, log[inst])
    ensures HistoryInv(cfg, s, n, log, inst + 1)
  {
  }

  lemma FinishLog(cfg: Config, s: Sys, n: NodeId, node: Node, v: Value, chk: nat)
    requires ReadyToFinish(cfg, s, n, node, v, chk)
    ensures LogInv(cfg, s, n, FinishInstance(node, v, chk).node)
  {
    hide HistoryInv, ChkHistory, VotesBelow, Chosen, RecOk, OwnInv, Checksum;
    HistoryNext(cfg, s, n, node.log, node.inst);
  }

  lemma FinishChk(cfg: Config, s: Sys, n: NodeId, node: Node, v: Value, chk: nat)
    requires ChkHistory(cfg, node) && RecordReady(cfg, s, n, node, v, chk)
    ensures ChkInv(cfg, FinishInstance(node, v, chk).node)
  {
    hide LogPrefix, Fold, Checksum, RecOk;
    PrefixStep(cfg, node.log, node.inst);
  }

  lemma NotYetProposed(s: Sys, n: NodeId, node: Node, i: nat, v: Value)
    requires IdInv(s, n, node) && i > node.inst
    ensures !Proposed(s, i, Ballot(node.prop.id, n), v)
  {
  }

  lemma FinishProp(cfg: Config, s: Sys, n: NodeId, node: Node, v: Value, chk: nat)
    requires Wf(cfg, s) && n in cfg.nodes && IdInv(s, n, node) && PropInv(cfg, s, n, node)
    ensures var node' := FinishInstance(node, v, chk).node;
      IdInv(s, n, node') && PropInv(cfg, s, n, node')
  {
    var node' := FinishInstance(node, v, chk).node;
    var b := Ballot(node.prop.id, n);
    forall v'
      ensures !Proposed(s, node'.inst, b, v')
    {
      NotYetProposed(s, n, node, node'.inst, v');
    }
    if node.prop.canSkip {
      var q :| AllPledged(cfg, s, q, node.inst + 1, b);
      forall a | a in q
        ensures Pledged(s, a, node.inst + 2, b)
      {
        assert Pledged(s, a, node.inst + 1, b);
      }
      assert AllPledged(cfg, s, q, node.inst + 2, b);
    }
  }

  lemma FinishShape(cfg: Config, s: Sys, n: NodeId, node: Node, v: Value, chk: nat)
    requires Wf(cfg, s) && n in cfg.nodes && node.me == n && node.acc.promise == s.nodes[n].acc.promise
    ensures var o := FinishInstance(node, v, chk);
      OwnEffects(s, n, o) && o == Out(o.node, Effects({}, {}, {Learned(n, node.inst, v)}))
  {
  }

  lemma FinishStore(cfg: Config, s: Sys, n: NodeId, node: Node, v: Value, chk: nat)
    requires ReadyToFinish(cfg, s, n, node, v, chk)
    ensures StoreInv(cfg, s, n, FinishInstance(node, v, chk).node)
  {
    assert VotesBelow(s, n, node) && ChkHistory(cfg, node) && RecordReady(cfg, s, n, node, v, chk);
    hide ReadyToFinish, AccInv, LogInv, ChkInv, VotesBelow, ChkHistory, RecordReady, OwnInv;
    FinishAcc(cfg, s, n, node, v, chk);
    FinishLog(cfg, s, n, node, v, chk);
    FinishChk(cfg, s, n, node, v, chk);
  }

  lemma ReadyChosen(cfg: Config, s: Sys, n: NodeId, node: Node, v: Value, chk: nat)
    requires ReadyToFinish(cfg, s, n, node, v, chk)
    ensures Chosen(cfg, s, node.inst, v)
  {
  }

  lemma FinishStep(cfg: Config, s: Sys, n: NodeId, node: Node, v: Value, chk: nat)
    requires n in cfg.nodes && n in s.nodes && node.me == n
    requires node.prop == s.nodes[n].prop && node.inst == s.nodes[n].inst && node.acc == s.nodes[n].acc
    requires ReadyToFinish(cfg, s, n, node, v, chk)
    requires Inv(cfg, s)
    ensures Inv(cfg, Apply(s, n, FinishInstance(node, v, chk)))
  {
    hide *;
    InvAt(cfg, s, n);
    PropSameStore(cfg, s, n, s.nodes[n], node);
    IdSame(s, n, s.nodes[n], node);
    FinishShape(cfg, s, n, node, v, chk);
    FinishStore(cfg, s, n, node, v, chk);
    FinishProp(cfg, s, n, node, v, chk);
    ReadyChosen(cfg, s, n, node, v, chk);
    LearnedStep(cfg, s, n, FinishInstance(node, v, chk));
  }

  lemma IdSame(s: Sys, n: NodeId, node: Node, node': Node)
    requires IdInv(s, n, node) && node'.prop == node.prop && node'.inst == node.inst && node'.acc == node.acc
    ensures IdInv(s, n, node')
  {
  }

  lemma LearnedStep(cfg: Config, s: Sys, n: NodeId, o: Out)
    requires Inv(cfg, s) && n in cfg.nodes && n in s.nodes && OwnEffects(s, n, o)
    requires o.fx.msgs == {} && o.fx.votes == {}
    requires forall l :: l in o.fx.learned ==> Chosen(cfg, s, l.inst, l.value)
    requires Wf(cfg, s) ==> StoreInv(cfg, s, n, o.node) && IdInv(s, n, o.node) && PropInv(cfg, s, n, o.node)
    ensures Inv(cfg, Apply(s, n, o))
  {
    hide StoreInv, IdInv, PropInv;
    NodeKept(cfg, s, n, o);
    forall l | l in o.fx.learned
      ensures Chosen(cfg, Apply(s, n, o), l.inst, l.value)
    {
      ChosenGrows(cfg, s, Apply(s, n, o), l.inst, l.value);
    }
    PlainStep(cfg, s, n, o);
  }

  // ---------------------------------------------------------------- learning the own accepted value

  /** The acceptor holds the chosen value: the learner may take it. */
  lemma OwnValueReady(cfg: Config, s: Sys, n: NodeId, node: Node)
    requires StoreInv(cfg, s, n, node)
    requires node.acc.accepted.id > 0 && node.acc.value != [] && Chosen(cfg, s, node.inst, node.acc.value)
    ensures ReadyToFinish(cfg, s, n, node, node.acc.value, node.acc.chk)
  {
    hide HistoryInv, ChkHistory, VotesBelow, KeysBelow, RecOk, Chosen, OwnInv;
  }

  lemma LearnOwnStep(cfg: Config, s: Sys, n: NodeId, inst: nat, from: NodeId, id: nat)
    requires n in cfg.nodes && n in s.nodes
    requires var node := s.nodes[n];
      inst == node.inst && node.acc.accepted == Ballot(id, from) && id > 0 ==>
        node.acc.value != [] && Chosen(cfg, s, inst, node.acc.value)
    requires Inv(cfg, s)
    ensures Inv(cfg, Apply(s, n, LearnBySuccess(s.nodes[n], inst, from, id)))
  {
    hide *;
    var node := s.nodes[n];
    InvAt(cfg, s, n);
    if inst == node.inst && node.acc.accepted == Ballot(id, from) && id > 0 {
      LearnsOwn(node, from, id);
      OwnValueReady(cfg, s, n, node);
      FinishStep(cfg, s, n, node, node.acc.value, node.acc.chk);
    } else {
      LearnsNothing(s, n, inst, from, id);
    }
  }

  lemma LearnsNothing(s: Sys, n: NodeId, inst: nat, from: NodeId, id: nat)
    requires n in s.nodes
    requires !(inst == s.nodes[n].inst && s.nodes[n].acc.accepted == Ballot(id, from) && id > 0)
    ensures Apply(s, n, LearnBySuccess(s.nodes[n], inst, from, id)) == s
  {
  }

  lemma LearnsOwn(node: Node, from: NodeId, id: nat)
    requires node.acc.accepted == Ballot(id, from) && id > 0
    ensures LearnBySuccess(node, node.inst, from, id) == FinishInstance(node, node.acc.value, node.acc.chk)
  {
  }

  // ---------------------------------------------------------------- copying a value

  function CopiedLog(cfg: Config, node: Node, ballot: Ballot, v: Value): map<nat, Record> {
    node.log[node.inst := Record(ballot, ballot, v, CopyChk(cfg, node, v), false, OwnRecord(node.log, node.inst))]
  }

  /** A copy leaves the acceptor's own record in place, under it. */
  lemma CopyOwn(cfg: Config, s: Sys, n: NodeId, node: Node, ballot: Ballot, v: Value)
    requires OwnInv(cfg, s, n, node.log, node.acc.promise) && KeysBelow(node)
    ensures OwnInv(cfg, s, n, CopiedLog(cfg, node, ballot, v), node.acc.promise)
  {
    var log' := CopiedLog(cfg, node, ballot, v);
    forall k: nat
      ensures OwnRecord(log', k) == OwnRecord(node.log, k)
    {
    }
    forall k | k in log' && OwnRecord(log', k).Some?
      ensures OwnRecOk(cfg, s, n, log', k, OwnRecord(log', k).value)
    {
      assert k in node.log && OwnRecOk(cfg, s, n, node.log, k, OwnRecord(node.log, k).value);
      PrefixSame(node.log, log', k);
    }
    forall k | k in log' && LastOwn(log', k)
      ensures OwnRecord(log', k).value.promise == node.acc.promise
    {
      assert k in node.log && LastOwn(node.log, k);
    }
    if forall k :: k in log' ==> OwnRecord(log', k).None? {
      forall k | k in node.log
        ensures OwnRecord(node.log, k).None?
      {
        assert k in log';
      }
    }
  }

  lemma CopyHistory(cfg: Config, s: Sys, n: NodeId, node: Node, ballot: Ballot, v: Value)
    requires HistoryInv(cfg, s, n, node.log, node.inst) && KeysBelow(node)
    ensures HistoryInv(cfg, s, n, CopiedLog(cfg, node, ballot, v), node.inst)
    ensures KeysBelow(node.(log := CopiedLog(cfg, node, ballot, v)))
  {
  }

  lemma CopyChks(cfg: Config, node: Node, ballot: Ballot, v: Value)
    requires ChkHistory(cfg, node)
    ensures ChkHistory(cfg, node.(log := CopiedLog(cfg, node, ballot, v)))
  {
    var log' := CopiedLog(cfg, node, ballot, v);
    PrefixSame(node.log, log', node.inst);
    forall k: nat | k < node.inst && k in log'
      ensures log'[k].chk == Fold(cfg, LogPrefix(log', k + 1))
    {
      PrefixSame(node.log, log', k + 1);
    }
  }

  lemma CopyReady(cfg: Config, s: Sys, n: NodeId, node: Node, ballot: Ballot, v: Value)
    requires StoreInv(cfg, s, n, node)
    requires v != [] && Chosen(cfg, s, node.inst, v)
    ensures ReadyToFinish(cfg, s, n, node.(log := CopiedLog(cfg, node, ballot, v)), v, CopyChk(cfg, node, v))
  {
    hide HistoryInv, ChkHistory, VotesBelow, KeysBelow, RecOk, Chosen, OwnInv;
    CopyOwn(cfg, s, n, node, ballot, v);
    CopyHistory(cfg, s, n, node, ballot, v);
    CopyChks(cfg, node, ballot, v);
    assert VotesBelow(s, n, node.(log := CopiedLog(cfg, node, ballot, v))) by {
      VotesIgnoreLog(s, n, node, CopiedLog(cfg, node, ballot, v));
    }
  }

  lemma VotesIgnoreLog(s: Sys, n: NodeId, node: Node, log: map<nat, Record>)
    requires VotesBelow(s, n, node)
    ensures VotesBelow(s, n, node.(log := log))
  {
  }

  lemma Copies(cfg: Config, node: Node, ballot: Ballot, v: Value)
    ensures LearnByCopy(cfg, node, node.inst, ballot, v) ==
      FinishInstance(node.(log := CopiedLog(cfg, node, ballot, v)), v, CopyChk(cfg, node, v))
  {
  }

  lemma CopiesNothing(cfg: Config, s: Sys, n: NodeId, inst: nat, ballot: Ballot, v: Value)
    requires n in s.nodes && inst != s.nodes[n].inst
    ensures Apply(s, n, LearnByCopy(cfg, s.nodes[n], inst, ballot, v)) == s
  {
  }

  lemma LearnCopyStep(cfg: Config, s: Sys, n: NodeId, inst: nat, ballot: Ballot, v: Value)
    requires n in cfg.nodes && n in s.nodes
    requires v != [] && Chosen(cfg, s, inst, v)
    requires Inv(cfg, s)
    ensures Inv(cfg, Apply(s, n, LearnByCopy(cfg, s.nodes[n], inst, ballot, v)))
  {
    hide *;
    var node := s.nodes[n];
    if inst != node.inst {
      CopiesNothing(cfg, s, n, inst, ballot, v);
    } else {
      InvAt(cfg, s, n);
      CopyReady(cfg, s, n, node, ballot, v);
      Copies(cfg, node, ballot, v);
      FinishStep(cfg, s, n, node.(log := CopiedLog(cfg, node, ballot, v)), v, CopyChk(cfg, node, v));
    }
  }

  lemma StoredChkOk(cfg: Config, s: Sys, n: NodeId, node: Node, inst: nat)
    requires HistoryInv(cfg, s, n, node.log, node.inst) && ChkHistory(cfg, node)
    requires 0 < inst < node.inst
    ensures inst - 1 in node.log && ChkOk(cfg, s, inst, node.log[inst - 1].chk)
  {
    var vs := LogPrefix(node.log, inst);
    assert Prefix(cfg, s, vs, inst);
  }

  /** What a node offers to a lagging one is a chosen value with the right checksum. */
  lemma SendOneOk(cfg: Config, s: Sys, n: NodeId, inst: nat, to: NodeId, withChk: bool)
    requires Inv(cfg, s) && n in cfg.nodes && n in s.nodes
    requires inst < s.nodes[n].inst && inst in s.nodes[n].log
    ensures Inv(cfg, Apply(s, n, SendOne(s.nodes[n], inst, to, withChk)))
  {
    hide Inv, PropInv, IdInv, GlobalInv, Chosen, ChkOk, ChkHistory;
    var node := s.nodes[n];
    InvAt(cfg, s, n);
    var r := node.log[inst];
    var chk := if withChk && inst > 0 && inst - 1 in node.log then node.log[inst - 1].chk else 0;
    if inst > 0 {
      StoredChkOk(cfg, s, n, node, inst);
    }
    assert ChkOk(cfg, s, inst, 0) by { ZeroChkOk(cfg, s, inst); }
    var m := Learn(inst, n, to, r.accepted, r.value, chk);
    assert MsgOk(cfg, s, m);
    hide Apply, MsgOk;
    SendStep(cfg, s, n, m);
  }

  lemma ZeroChkOk(cfg: Config, s: Sys, i: nat)
    ensures ChkOk(cfg, s, i, 0)
  {
  }

  // ---------------------------------------------------------------- restart

  lemma NewestKnown(cfg: Config, s: Sys, n: NodeId, node: Node, k: nat)
    requires LogInv(cfg, s, n, node) && Newest(node, k)
    ensures k == node.inst || (k + 1 == node.inst && node.inst !in node.log && k in node.log)
    ensures node.inst in node.log ==> k == node.inst
    ensures node.inst !in node.log && node.inst > 0 ==> k + 1 == node.inst
    ensures k !in node.log ==> node.inst == 0
  {
    if node.inst > 0 && node.inst !in node.log {
      assert node.inst - 1 in node.log;
    }
  }

  /** A reload from an acceptor's own record loses neither promise nor acceptance. */
  lemma RestartKeepsPromise(cfg: Config, s: Sys, n: NodeId, node: Node, k: nat, next: nat)
    requires LogInv(cfg, s, n, node) && Newest(node, k) && RestartPermitted(node, k) && next <= node.inst
    ensures Restart(node, k, next).acc.promise == node.acc.promise
  {
    NewestKnown(cfg, s, n, node, k);
  }

  lemma RestartAcc(cfg: Config, s: Sys, n: NodeId, node: Node, k: nat, next: nat)
    requires VotesProposed(cfg, s) && AccInv(s, n, node) && LogInv(cfg, s, n, node)
    requires Newest(node, k) && RestartPermitted(node, k) && next <= node.inst
    ensures AccInv(s, n, Restart(node, k, next))
  {
    NewestKnown(cfg, s, n, node, k);
    RestartKeepsPromise(cfg, s, n, node, k, next);
    var node' := Restart(node, k, next);
    if node.inst in node.log {
      assert node'.acc == node.acc;
    } else if node.inst > 0 && next <= k {
      assert RecOk(s, n, k, node.log[k]);
      assert forall x :: x in s.votes && x.node == n && x.inst == node.inst ==> NULL_BALLOT.AtLeast(x.ballot);
      assert forall x :: x in s.votes && x.node == n ==> x.inst <= k;
    }
  }

  lemma RestartLog(cfg: Config, s: Sys, n: NodeId, node: Node, k: nat, next: nat)
    requires LogInv(cfg, s, n, node) && OwnInv(cfg, s, n, node.log, node.acc.promise)
    requires Newest(node, k) && RestartPermitted(node, k) && next <= node.inst
    ensures LogInv(cfg, s, n, Restart(node, k, next))
  {
    hide OwnInv, HistoryInv;
    NewestKnown(cfg, s, n, node, k);
    RestartKeepsPromise(cfg, s, n, node, k, next);
    OwnHasNoneUnder(cfg, s, n, node.log, node.acc.promise, k);
    HistoryLess(cfg, s, n, node.log, node.inst, Restart(node, k, next).inst);
  }

  lemma HistoryLess(cfg: Config, s: Sys, n: NodeId, log: map<nat, Record>, inst: nat, inst': nat)
    requires HistoryInv(cfg, s, n, log, inst) && inst' <= inst
    ensures HistoryInv(cfg, s, n, log, inst')
  {
  }

  lemma OwnHasNoneUnder(cfg: Config, s: Sys, n: NodeId, log: map<nat, Record>, promise: Ballot, k: nat)
    requires OwnInv(cfg, s, n, log, promise)
    ensures k in log && log[k].persisted ==> log[k].under.None?
  {
    if k in log && log[k].persisted {
      assert OwnRecOk(cfg, s, n, log, k, OwnRecord(log, k).value);
    }
  }

  lemma RestartChk(cfg: Config, s: Sys, n: NodeId, node: Node, k: nat, next: nat)
    requires LogInv(cfg, s, n, node) && ChkInv(cfg, node)
    requires Newest(node, k) && RestartPermitted(node, k) && next <= node.inst
    ensures ChkInv(cfg, Restart(node, k, next))
  {
    NewestKnown(cfg, s, n, node, k);
    var node' := Restart(node, k, next);
    if node'.inst > 0 {
      assert node'.lastChk == node.log[node'.inst - 1].chk;
    }
    if node'.inst < node.inst {
      PrefixStep(cfg, node.log, k);
    }
  }

  lemma FreshId(s: Sys, n: NodeId, id: nat, i: nat, v: Value)
    requires forall m :: m in s.sent && (m.Prepare? || m.Accept?) && m.from == n ==> m.id < id
    ensures !Proposed(s, i, Ballot(id, n), v)
  {
  }

  lemma RestartIds(cfg: Config, s: Sys, n: NodeId, node: Node, k: nat, next: nat)
    requires Wf(cfg, s) && LogInv(cfg, s, n, node) && IdInv(s, n, node)
    requires Newest(node, k) && RestartPermitted(node, k) && next <= node.inst
    ensures var node' := Restart(node, k, next);
      IdInv(s, n, node') && PropInv(cfg, s, n, node')
    ensures forall m :: m in s.sent && (m.Prepare? || m.Accept?) && m.from == n ==>
      m.id < Restart(node, k, next).prop.id
  {
    RestartKeepsPromise(cfg, s, n, node, k, next);
    var node' := Restart(node, k, next);
    forall m | m in s.sent && (m.Prepare? || m.Accept?) && m.from == n
      ensures m.id < node'.prop.id
    {
    }
    forall i: nat, v
      ensures !Proposed(s, i, Ballot(node'.prop.id, n), v)
    {
      FreshId(s, n, node'.prop.id, i, v);
    }
  }

  lemma RestartShape(cfg: Config, s: Sys, n: NodeId, k: nat, next: nat)
    requires Wf(cfg, s) && n in cfg.nodes
    requires Restart(s.nodes[n], k, next).acc.promise == s.nodes[n].acc.promise
    ensures var o := Reopen(s.nodes[n], k, next);
      && OwnEffects(s, n, o)
      && o.node == Restart(s.nodes[n], k, next) && o.fx.msgs == {} && o.fx.votes == {}
  {
  }

  lemma ReplayChosen(cfg: Config, s: Sys, n: NodeId, node: Node, k: nat, next: nat)
    requires LogInv(cfg, s, n, node) && Newest(node, k)
    ensures forall l :: l in Reopen(node, k, next).fx.learned ==> Chosen(cfg, s, l.inst, l.value)
  {
    NewestKnown(cfg, s, n, node, k);
  }

  lemma StoreParts(cfg: Config, s: Sys, n: NodeId, node: Node)
    ensures StoreInv(cfg, s, n, node) <==>
      AccInv(s, n, node) && LogInv(cfg, s, n, node) && ChkInv(cfg, node) && OwnInv(cfg, s, n, node.log, node.acc.promise)
  {
  }

  lemma RestartLogSame(node: Node, k: nat, next: nat)
    ensures Restart(node, k, next).log == node.log
  {
  }

  lemma RestartStep(cfg: Config, s: Sys, n: NodeId, k: nat, next: nat)
    requires n in cfg.nodes && n in s.nodes
    requires Newest(s.nodes[n], k) && RestartPermitted(s.nodes[n], k) && next <= s.nodes[n].inst
    requires Inv(cfg, s)
    ensures Inv(cfg, Apply(s, n, Reopen(s.nodes[n], k, next)))
  {
    hide *;
    var node := s.nodes[n];
    InvAt(cfg, s, n);
    GlobalVotes(cfg, s);
    StoreParts(cfg, s, n, node);
    RestartKeepsPromise(cfg, s, n, node, k, next);
    RestartShape(cfg, s, n, k, next);
    RestartAcc(cfg, s, n, node, k, next);
    RestartLog(cfg, s, n, node, k, next);
    RestartChk(cfg, s, n, node, k, next);
    RestartIds(cfg, s, n, node, k, next);
    RestartLogSame(node, k, next);
    StoreParts(cfg, s, n, Restart(node, k, next));
    ReplayChosen(cfg, s, n, node, k, next);
    LearnedStep(cfg, s, n, Reopen(node, k, next));
  }

  lemma GlobalVotes(cfg: Config, s: Sys)
    requires Wf(cfg, s) && GlobalInv(cfg, s)
    ensures VotesProposed(cfg, s) && OneValue(s) && ProposalsSafe(cfg, s)
  {
  }
}
