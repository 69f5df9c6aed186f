/** What the checksums in the messages are: the chain over the values executed so far. */
module PaxosChecksums {
  import opened PaxosTypes
  import opened NodeSpec
  import opened PaxosSystem
  import opened PaxosInvariant
  import opened PaxosStable
  import opened PaxosSteps
  import opened PaxosLearnSteps
  import opened PaxosProposerSteps
  import opened PaxosRounds
  import opened PaxosAgreement
  import opened PaxosTheorems

  /** Each value is added to the checksum of those before it. */
  function Chain(cfg: Config, vs: seq<Value>): nat {
    if vs == [] then 0 else cfg.crc(Chain(cfg, vs[..|vs| - 1]), vs[|vs| - 1])
  }

  /** No checksum on the way is 0, which would mean that there is none. */
  ghost predicate Unbroken(cfg: Config, vs: seq<Value>) {
    forall j :: 0 < j < |vs| ==> Chain(cfg, vs[..j]) != 0
  }

  /** A node's checksum is the chain, and from the first link that is 0 on it is 0. */
  lemma {:induction false} FoldIsChain(cfg: Config, vs: seq<Value>)
    ensures Fold(cfg, vs) == if Unbroken(cfg, vs) then Chain(cfg, vs) else 0
    decreases |vs|
  {
    if vs != [] {
      var n := |vs| - 1;
      var init := vs[..n];
      FoldIsChain(cfg, init);
      assert forall j :: 0 < j < n ==> init[..j] == vs[..j];
      if n > 0 && Chain(cfg, vs[..n]) != 0 && Unbroken(cfg, init) {
        assert Unbroken(cfg, vs);
      }
      if n > 0 && Unbroken(cfg, vs) {
        assert Chain(cfg, vs[..n]) != 0;
      }
      if n > 0 && !Unbroken(cfg, init) {
        var j :| 0 < j < n && Chain(cfg, init[..j]) == 0;
        assert Chain(cfg, vs[..j]) == 0;
      }
    }
  }

  // ---------------------------------------------------------------- the handlers

  /** Proposals and notices carry the node's own checksum of its present instance. */
  predicate Carries(node: Node, o: Out) {
    forall m :: m in o.fx.msgs && (m.Accept? || m.Success?) ==> m.inst == node.inst && m.chk == node.lastChk
  }

  lemma SucceedCarries(node: Node)
    ensures Carries(node, Succeed(node))
  {
  }

  lemma AcceptPartCarries(cfg: Config, node: Node)
    ensures var o := AcceptPart(cfg, node);
      Carries(node, o) && o.node.inst == node.inst && o.node.lastChk == node.lastChk
  {
  }

  lemma AcceptRoundCarries(cfg: Config, node: Node)
    ensures Carries(node, StartAcceptRound(cfg, node))
  {
    hide StartAcceptRound, AcceptPart, Succeed;
    AcceptRoundParts(cfg, node);
    AcceptPartCarries(cfg, node);
    SucceedCarries(AcceptPart(cfg, node).node);
  }

  lemma PreparePartCarries(cfg: Config, node: Node, needNew: bool)
    ensures var o := PreparePart(cfg, node, needNew);
      Carries(node, o) && o.node.inst == node.inst && o.node.lastChk == node.lastChk
  {
  }

  lemma PrepareRoundCarries(cfg: Config, node: Node, needNew: bool)
    ensures Carries(node, StartPrepareRound(cfg, node, needNew))
  {
    hide StartPrepareRound, PreparePart, StartAcceptRound;
    PrepareRoundParts(cfg, node, needNew);
    PreparePartCarries(cfg, node, needNew);
    AcceptRoundCarries(cfg, Skippable(PreparePart(cfg, node, needNew).node));
  }

  lemma RecordsCarry(node: Node, a: NodeId, rejectBy: nat, pre: Ballot, v: Value)
    ensures var x := RecordPrepareReply(node, a, rejectBy, pre, v); x.inst == node.inst && x.lastChk == node.lastChk
    ensures var x := RecordAcceptReply(node, a, rejectBy); x.inst == node.inst && x.lastChk == node.lastChk
  {
  }

  lemma ReceiveCarries(cfg: Config, node: Node, m: Message)
    requires Receive(cfg, node, m).Some?
    ensures Carries(node, Receive(cfg, node, m).value)
  {
    hide StartAcceptRound, Succeed, RecordPrepareReply, RecordAcceptReply, Passed;
    if m.PrepareReply? {
      RecordsCarry(node, m.from, m.rejectBy, m.pre, m.value);
      var n1 := RecordPrepareReply(node, m.from, m.rejectBy, m.pre, m.value);
      AcceptRoundCarries(cfg, n1.(prop := n1.prop.(canSkip := true)));
    } else if m.AcceptReply? {
      RecordsCarry(node, m.from, m.rejectBy, NULL_BALLOT, []);
      SucceedCarries(RecordAcceptReply(node, m.from, m.rejectBy));
    }
  }

  lemma CutCarries(cfg: Config, node: Node, c: Event)
    requires Accepting(cfg, node, c).Some?
    ensures var m := AcceptMsg(Accepting(cfg, node, c).value); m.inst == node.inst && m.chk == node.lastChk
  {
  }

  lemma EventCarries(cfg: Config, s: Sys, n: NodeId, e: Event)
    requires Wf(cfg, s) && Enabled(cfg, s, n, e) && n in s.nodes
    ensures Carries(s.nodes[n], Run(cfg, s, n, e))
  {
    var node := s.nodes[n];
    hide StartAcceptRound, StartPrepareRound, Receive, Accepting, Starts;
    match e
    case EvNewValue(v) =>
      AcceptRoundCarries(cfg, OfferValue(node, v));
      PrepareRoundCarries(cfg, OfferValue(node, v), OfferValue(node, v).prop.wasRejected);
    case EvTimeout => PrepareRoundCarries(cfg, node, node.prop.wasRejected);
    case EvDeliver(m) => ReceiveCarries(cfg, node, m);
    case EvCutAccept(c, _, _, _) => CutCarries(cfg, node, c);
    case _ =>
  }

  // ---------------------------------------------------------------- whole runs

  /** These are the values executed in the first instances, by anybody. */
  ghost predicate Values(s: Sys, vs: seq<Value>) {
    forall l :: l in s.learned && l.inst < |vs| ==> l.value == vs[l.inst]
  }

  /** The checksum over these values, as a node keeps it. */
  ghost predicate SumOf(cfg: Config, vs: seq<Value>, chk: nat) {
    chk == if Unbroken(cfg, vs) then Chain(cfg, vs) else 0
  }

  lemma StoredValues(cfg: Config, r: seq<Sys>, k: nat, n: NodeId, i: nat)
    requires GuardedRun(cfg, r) && k < |r| && n in cfg.nodes && n in r[k].nodes && i <= r[k].nodes[n].inst
    ensures Values(r[k], LogPrefix(r[k].nodes[n].log, i))
  {
    hide GuardedRun;
    var vs := LogPrefix(r[k].nodes[n].log, i);
    forall l | l in r[k].learned && l.inst < |vs|
      ensures l.value == vs[l.inst]
    {
      StoredLogIsTrue(cfg, r, k, k, n, l.inst);
    }
  }

  lemma KeptSums(cfg: Config, r: seq<Sys>, k: nat, n: NodeId)
    requires GuardedRun(cfg, r) && k < |r| && n in cfg.nodes && n in r[k].nodes
    ensures ChkHistory(cfg, r[k].nodes[n])
  {
    hide *;
    RunKeepsInv(cfg, r, k);
    InvAt(cfg, r[k], n);
    StoreParts(cfg, r[k], n, r[k].nodes[n]);
    HistoryOf(cfg, r[k].nodes[n]);
  }

  lemma HistoryOf(cfg: Config, node: Node)
    requires ChkInv(cfg, node)
    ensures ChkHistory(cfg, node)
  {
  }

  /** Every Accept and every success notice carries the chain over all values executed before its instance. */
  lemma ProposalsCarryChain(cfg: Config, r: seq<Sys>, k: nat, n: NodeId, e: Event, m: Message) returns (vs: seq<Value>)
    requires GuardedRun(cfg, r) && k < |r| && n in cfg.nodes && n in r[k].nodes && Wf(cfg, r[k]) && Enabled(cfg, r[k], n, e)
    requires m in Run(cfg, r[k], n, e).fx.msgs && (m.Accept? || m.Success?)
    ensures |vs| == m.inst && Values(r[k], vs) && SumOf(cfg, vs, m.chk)
  {
    hide GuardedRun, Enabled, Run;
    var node := r[k].nodes[n];
    vs := LogPrefix(node.log, node.inst);
    EventCarries(cfg, r[k], n, e);
    KeptSums(cfg, r, k, n);
    FoldIsChain(cfg, vs);
    StoredValues(cfg, r, k, n, node.inst);
  }

  /** So does a stored value offered to a node that lags behind, if the checksum is asked for. */
  lemma OffersCarryChain(cfg: Config, r: seq<Sys>, k: nat, n: NodeId, i: nat, to: NodeId, m: Message) returns (vs: seq<Value>)
    requires GuardedRun(cfg, r) && k < |r| && n in cfg.nodes && n in r[k].nodes && Wf(cfg, r[k])
    requires Enabled(cfg, r[k], n, EvSendOne(i, to, true)) && m in Run(cfg, r[k], n, EvSendOne(i, to, true)).fx.msgs
    ensures m.Learn? && m.inst == i == |vs| && Values(r[k], vs) && SumOf(cfg, vs, m.chk)
  {
    hide GuardedRun;
    var node := r[k].nodes[n];
    vs := LogPrefix(node.log, i);
    KeptSums(cfg, r, k, n);
    FoldIsChain(cfg, vs);
    StoredValues(cfg, r, k, n, i);
    if i > 0 {
      StoredLogIsTrue(cfg, r, k, k, n, i - 1);
    }
  }

  // ---------------------------------------------------------------- nodes that have come apart

  /**
   * Two nodes in one instance whose histories have come apart, however that happened: the
   * one that receives the other's Accept, notice or stored value dies before it handles it.
   */
  lemma DivergedNodeStops(cfg: Config, node: Node, m: Message, vs: seq<Value>, ws: seq<Value>)
    requires (m.Accept? || m.Success? || m.Learn?) && m.inst == node.inst == |vs| == |ws| && (m.Accept? ==> m.from in cfg.nodes)
    requires SumOf(cfg, vs, node.lastChk) && SumOf(cfg, ws, m.chk)
    requires Chain(cfg, vs) != Chain(cfg, ws) && node.lastChk != 0 && m.chk != 0
    ensures Receive(cfg, node, m) == None
  {
  }
}
