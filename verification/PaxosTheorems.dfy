/** What guarded runs promise. */
module PaxosTheorems {
  import opened PaxosTypes
  import opened NodeSpec
  import opened PaxosSystem
  import opened PaxosInvariant
  import opened PaxosStable
  import opened PaxosSteps
  import opened PaxosLearnSteps
  import opened PaxosCrashes
  import opened PaxosProposerSteps
  import opened PaxosRounds
  import opened PaxosAgreement

  // ---------------------------------------------------------------- growth of a handler call

  /** A handler speaks only for its node, never lowers the promise, never votes below it. */
  predicate NodeGrows(node: Node, o: Out) {
    && o.node.me == node.me
    && o.node.acc.promise.AtLeast(node.acc.promise)
    && (forall m :: m in o.fx.msgs ==> m.from == node.me)
    && (forall x :: x in o.fx.votes ==> x.node == node.me && x.ballot.AtLeast(node.acc.promise))
  }

  lemma ThenGrows(node: Node, o: Out, p: Out)
    requires NodeGrows(node, o) && NodeGrows(o.node, p)
    ensures NodeGrows(node, Then(o, p))
  {
  }

  lemma SucceedGrows(node: Node)
    ensures NodeGrows(node, Succeed(node))
  {
  }

  lemma AcceptReplyGrows(cfg: Config, node: Node, a: NodeId, id: nat, rejectBy: nat)
    ensures NodeGrows(node, OnAcceptReply(cfg, node, a, id, rejectBy))
  {
    if node.prop.accepting && id == node.prop.id {
      AcceptReplyParts(cfg, node, a, rejectBy);
      var n1 := RecordAcceptReply(node, a, rejectBy);
      SucceedGrows(n1);
    }
  }

  lemma AcceptPartGrows(cfg: Config, node: Node)
    ensures NodeGrows(node, AcceptPart(cfg, node))
  {
  }

  lemma AcceptRoundGrows(cfg: Config, node: Node)
    ensures NodeGrows(node, StartAcceptRound(cfg, node))
  {
    hide StartAcceptRound, AcceptPart, Succeed;
    AcceptRoundParts(cfg, node);
    AcceptPartGrows(cfg, node);
    var o := AcceptPart(cfg, node);
    SucceedGrows(o.node);
    ThenGrows(node, o, Succeed(o.node));
  }

  lemma PrepareReplyGrows(cfg: Config, node: Node, a: NodeId, id: nat, rejectBy: nat, pre: Ballot, v: Value)
    ensures NodeGrows(node, OnPrepareReply(cfg, node, a, id, rejectBy, pre, v))
  {
    hide *;
    PrepareReplyIgnored(cfg, node, a, id, rejectBy, pre, v);
    if node.prop.preparing && id == node.prop.id {
      PrepareReplyParts(cfg, node, a, rejectBy, pre, v);
      var n1 := RecordPrepareReply(node, a, rejectBy, pre, v);
      QuietGrows(node, n1.prop);
      SkippableShape(n1);
      AcceptRoundGrows(cfg, Skippable(n1));
      AfterQuiet(node, n1, Skippable(n1), StartAcceptRound(cfg, Skippable(n1)));
    } else {
      QuietGrows(node, node.prop);
    }
  }

  lemma PrepareReplyIgnored(cfg: Config, node: Node, a: NodeId, id: nat, rejectBy: nat, pre: Ballot, v: Value)
    ensures !(node.prop.preparing && id == node.prop.id) ==>
      OnPrepareReply(cfg, node, a, id, rejectBy, pre, v) == Quiet(node)
  {
  }

  lemma QuietGrows(node: Node, p: Proposer)
    ensures NodeGrows(node, Quiet(node.(prop := p)))
  {
  }

  lemma SkippableShape(n1: Node)
    ensures Skippable(n1) == n1.(prop := Skippable(n1).prop)
  {
  }

  /** Changing only the proposer first makes no difference to what a handler grows. */
  lemma AfterQuiet(node: Node, n1: Node, n2: Node, o: Out)
    requires n1 == node.(prop := n1.prop) && n2 == n1.(prop := n2.prop) && NodeGrows(n2, o)
    ensures NodeGrows(node, Then(Quiet(n1), o))
  {
  }

  lemma PreparePartGrows(cfg: Config, node: Node, needNew: bool)
    ensures NodeGrows(node, PreparePart(cfg, node, needNew))
  {
  }

  lemma PrepareRoundGrows(cfg: Config, node: Node, needNew: bool)
    ensures NodeGrows(node, StartPrepareRound(cfg, node, needNew))
  {
    hide StartPrepareRound, PreparePart, StartAcceptRound;
    PrepareRoundParts(cfg, node, needNew);
    PreparePartGrows(cfg, node, needNew);
    var o := PreparePart(cfg, node, needNew);
    AcceptRoundGrows(cfg, Skippable(o.node));
    ThenGrows(node, o, StartAcceptRound(cfg, Skippable(o.node)));
  }

  lemma ReplyGrows(cfg: Config, node: Node, m: Message)
    requires m.PrepareReply? || m.AcceptReply?
    ensures NodeGrows(node, OnReply(cfg, node, m))
  {
    hide OnPrepareReply, OnAcceptReply;
    ReplyParts(cfg, node, m);
    if m.PrepareReply? {
      PrepareReplyGrows(cfg, node, m.from, m.id, m.rejectBy, m.pre, m.value);
    } else {
      AcceptReplyGrows(cfg, node, m.from, m.id, m.rejectBy);
    }
  }

  lemma AcceptorGrows(cfg: Config, node: Node, m: Message)
    requires m.Prepare? || m.Accept?
    ensures NodeGrows(node, AcceptorReceive(cfg, node, m))
  {
  }

  lemma LearnerGrows(cfg: Config, node: Node, m: Message)
    requires m.Success? || m.Learn?
    ensures NodeGrows(node, OnLearnerMsg(cfg, node, m))
  {
  }

  lemma ReceiveGrows(cfg: Config, node: Node, m: Message)
    requires Receive(cfg, node, m).Some?
    ensures NodeGrows(node, Receive(cfg, node, m).value)
  {
    hide OnReply, AcceptorReceive, OnLearnerMsg;
    if m.PrepareReply? || m.AcceptReply? {
      ReplyGrows(cfg, node, m);
    } else if (m.Prepare? || m.Accept?) && m.from in cfg.nodes {
      var n1 := ChecksumLogic(node, m).value;
      var o := if m.inst == n1.inst + 1 then LearnBySuccess(n1, n1.inst, m.from, m.id) else Quiet(n1);
      AcceptorGrows(cfg, o.node, m);
      ThenGrows(n1, o, AcceptorReceive(cfg, o.node, m));
    } else if m.Success? || m.Learn? {
      LearnerGrows(cfg, ChecksumLogic(node, m).value, m);
    }
  }

  lemma NewValueGrows(cfg: Config, node: Node, v: Value)
    ensures NodeGrows(node, NewValue(cfg, node, v))
  {
    hide StartAcceptRound, StartPrepareRound;
    var n1 := OfferValue(node, v);
    AcceptRoundGrows(cfg, n1);
    PrepareRoundGrows(cfg, n1, n1.prop.wasRejected);
  }

  lemma TimeoutGrows(cfg: Config, node: Node)
    ensures NodeGrows(node, OnTimeout(cfg, node))
  {
    hide StartPrepareRound;
    PrepareRoundGrows(cfg, node, node.prop.wasRejected);
  }

  lemma PromiseGrows(node: Node, node': Node)
    requires node'.me == node.me && node'.acc.promise == node.acc.promise
    ensures NodeGrows(node, Quiet(node'))
  {
  }

  lemma RestartGrows(cfg: Config, s: Sys, n: NodeId, lost: Option<nat>, k: nat, next: nat)
    requires n in cfg.nodes && n in s.nodes && Starts(s.nodes[n], lost, k, next)
    requires RestartPermitted(Survivor(s.nodes[n], lost), k) && CheckpointPermitted(lost, next)
    requires Inv(cfg, s)
    ensures NodeGrows(s.nodes[n], Reopen(Survivor(s.nodes[n], lost), k, next))
  {
    hide *;
    var node, node' := s.nodes[n], Restart(Survivor(s.nodes[n], lost), k, next);
    CrashKeepsPromise(cfg, s, n, lost, k, next);
    RestartMe(node, lost, k, next);
    PromiseGrows(node, node');
    ReopenShape(node, lost, k, next);
  }

  lemma CutGrows(cfg: Config, s: Sys, n: NodeId, c: Event, lost: Option<nat>, k: nat, next: nat)
    requires n in cfg.nodes && n in s.nodes && Accepting(cfg, s.nodes[n], c).Some?
    requires Starts(s.nodes[n], lost, k, next)
    requires RestartPermitted(Survivor(s.nodes[n], lost), k) && CheckpointPermitted(lost, next)
    requires Inv(cfg, s)
    ensures NodeGrows(s.nodes[n],
      Send(Reopen(Survivor(s.nodes[n], lost), k, next), AcceptMsg(Accepting(cfg, s.nodes[n], c).value)))
  {
    hide *;
    RestartGrows(cfg, s, n, lost, k, next);
    AcceptingMe(cfg, s.nodes[n], c);
    SentToo(s.nodes[n], Reopen(Survivor(s.nodes[n], lost), k, next), Accepting(cfg, s.nodes[n], c).value);
  }

  lemma SentToo(node: Node, o: Out, nd: Node)
    requires NodeGrows(node, o) && nd.me == node.me
    ensures NodeGrows(node, Send(o, AcceptMsg(nd)))
  {
  }

  lemma AcceptingMe(cfg: Config, node: Node, c: Event)
    requires Accepting(cfg, node, c).Some?
    ensures Accepting(cfg, node, c).value.me == node.me
  {
  }

  lemma ReopenShape(node: Node, lost: Option<nat>, k: nat, next: nat)
    requires NodeGrows(node, Quiet(Restart(Survivor(node, lost), k, next)))
    ensures NodeGrows(node, Reopen(Survivor(node, lost), k, next))
  {
  }

  lemma RestartMe(node: Node, lost: Option<nat>, k: nat, next: nat)
    ensures Restart(Survivor(node, lost), k, next).me == node.me
  {
  }

  lemma CommitTimeoutGrows(node: Node)
    ensures NodeGrows(node, OnCommitTimeout(node))
  {
  }

  lemma SendOneGrows(node: Node, inst: nat, to: NodeId, withChk: bool)
    requires inst in node.log
    ensures NodeGrows(node, SendOne(node, inst, to, withChk))
  {
  }

  lemma GrowsAsOwn(s: Sys, n: NodeId, o: Out)
    requires n in s.nodes && s.nodes[n].me == n && NodeGrows(s.nodes[n], o)
    ensures OwnEffects(s, n, o)
  {
  }

  lemma CrashGrows(cfg: Config, s: Sys, n: NodeId, e: Event)
    requires n in cfg.nodes && Wf(cfg, s) && n in s.nodes && (e.EvRestart? || e.EvCutAccept?)
    requires Enabled(cfg, s, n, e) && Permitted(cfg, s, n, e)
    requires Inv(cfg, s)
    ensures NodeGrows(s.nodes[n], Run(cfg, s, n, e))
  {
    hide *;
    CrashParts(cfg, s, n, e);
    match e
    case EvRestart(lost, k, next) => RestartGrows(cfg, s, n, lost, k, next);
    case EvCutAccept(c, lost, k, next) => CutGrows(cfg, s, n, c, lost, k, next);
  }

  lemma HandlerGrows(cfg: Config, s: Sys, n: NodeId, e: Event)
    requires n in cfg.nodes && Wf(cfg, s) && n in s.nodes && !e.EvRestart? && !e.EvCutAccept?
    requires Enabled(cfg, s, n, e) && Permitted(cfg, s, n, e)
    ensures NodeGrows(s.nodes[n], Run(cfg, s, n, e))
  {
    hide *;
    EventParts(cfg, s, n, e);
    var node := s.nodes[n];
    match e
    case EvNewValue(v) => NewValueGrows(cfg, node, v);
    case EvTimeout => TimeoutGrows(cfg, node);
    case EvCommitTimeout => CommitTimeoutGrows(node);
    case EvDeliver(m) => ReceiveGrows(cfg, node, m);
    case EvSendOne(i, to, c) => SendOneGrows(node, i, to, c);
  }

  lemma EventGrows(cfg: Config, s: Sys, n: NodeId, e: Event)
    requires n in cfg.nodes && Wf(cfg, s)
    requires Enabled(cfg, s, n, e) && Permitted(cfg, s, n, e)
    requires Inv(cfg, s)
    ensures Grows(cfg, s, Apply(s, n, Run(cfg, s, n, e)))
  {
    hide *;
    InvAt(cfg, s, n);
    NodeName(cfg, s, n);
    if e.EvRestart? || e.EvCutAccept? {
      CrashGrows(cfg, s, n, e);
    } else {
      HandlerGrows(cfg, s, n, e);
    }
    GrowsAsOwn(s, n, Run(cfg, s, n, e));
    ApplyGrows(cfg, s, n, Run(cfg, s, n, e));
  }

  lemma StepGrows(cfg: Config, s: Sys, s': Sys)
    requires Inv(cfg, s) && GuardedStep(cfg, s, s')
    ensures Grows(cfg, s, s')
  {
    hide Inv, Run, Permitted, Grows;
    var n, e :| StepBy(cfg, s, s', n, e) && Permitted(cfg, s, n, e);
    EnabledNode(cfg, s, n, e);
    EventGrows(cfg, s, n, e);
  }

  lemma GrowsTrans(cfg: Config, s: Sys, t: Sys, u: Sys)
    requires Grows(cfg, s, t) && Grows(cfg, t, u)
    ensures Grows(cfg, s, u)
  {
  }

  lemma GrowsRefl(cfg: Config, s: Sys)
    requires Inv(cfg, s)
    ensures Grows(cfg, s, s)
  {
  }

  /** Between any two moments of a run, knowledge only grows. */
  lemma {:induction false} RunGrows(cfg: Config, r: seq<Sys>, j: nat, k: nat)
    requires GuardedRun(cfg, r) && j <= k < |r|
    ensures Grows(cfg, r[j], r[k])
  {
    hide *;
    if j == k {
      RunKeepsInv(cfg, r, k);
      GrowsRefl(cfg, r[k]);
    } else {
      RunGrows(cfg, r, j, k - 1);
      RunKeepsInv(cfg, r, k - 1);
      RunStep(cfg, r, k);
      StepGrows(cfg, r[k - 1], r[k]);
      GrowsTrans(cfg, r[j], r[k - 1], r[k]);
    }
  }

  // ---------------------------------------------------------------- agreement

  /**
   * Whatever is lost, duplicated or reordered, and however often nodes crash and
   * restart: no two state machines ever execute different values in one instance.
   */
  lemma Agreement(cfg: Config, r: seq<Sys>, j: nat, k: nat, l: Learned, l': Learned)
    requires GuardedRun(cfg, r) && j < |r| && k < |r|
    requires l in r[j].learned && l' in r[k].learned && l.inst == l'.inst
    ensures l.value == l'.value
  {
    var m := if j < k then k else j;
    RunGrows(cfg, r, j, m);
    RunGrows(cfg, r, k, m);
    RunKeepsInv(cfg, r, m);
    ChosenUnique(cfg, r[m], l.inst, l.value, l'.value);
  }

  /** A proposer never sends two values under one (instance, ballot). */
  lemma OneValuePerBallot(cfg: Config, r: seq<Sys>, j: nat, k: nat, m: Message, m': Message)
    requires GuardedRun(cfg, r) && j < |r| && k < |r|
    requires m in r[j].sent && m' in r[k].sent && m.Accept? && m'.Accept?
    requires m.inst == m'.inst && m.from == m'.from && m.id == m'.id
    ensures m.value == m'.value
  {
    var x := if j < k then k else j;
    RunGrows(cfg, r, j, x);
    RunGrows(cfg, r, k, x);
    RunKeepsInv(cfg, r, x);
    ProposalSent(r[x], m);
    ProposalSent(r[x], m');
  }

  /**
   * Below its present instance a node has a record of every instance, and its value is
   * what was executed there: by this node, by any node, at any time.
   */
  lemma StoredLogIsTrue(cfg: Config, r: seq<Sys>, j: nat, k: nat, n: NodeId, i: nat)
    requires GuardedRun(cfg, r) && j < |r| && k < |r| && n in cfg.nodes && n in r[k].nodes
    requires i < r[k].nodes[n].inst
    ensures i in r[k].nodes[n].log && r[k].nodes[n].log[i].value != []
    ensures forall l :: l in r[j].learned && l.inst == i ==> l.value == r[k].nodes[n].log[i].value
  {
    hide *;
    var x := if j < k then k else j;
    RunKeepsInv(cfg, r, k);
    InvAt(cfg, r[k], n);
    StoreParts(cfg, r[k], n, r[k].nodes[n]);
    StoredBelow(cfg, r[k], n, r[k].nodes[n], i);
    forall l | l in r[j].learned && l.inst == i
      ensures l.value == r[k].nodes[n].log[i].value
    {
      StoredValue(cfg, r, j, k, x, n, l);
    }
  }

  lemma StoredValue(cfg: Config, r: seq<Sys>, j: nat, k: nat, x: nat, n: NodeId, l: Learned)
    requires GuardedRun(cfg, r) && j <= x < |r| && k <= x && n in cfg.nodes && n in r[k].nodes
    requires l in r[j].learned && l.inst < r[k].nodes[n].inst && l.inst in r[k].nodes[n].log
    ensures l.value == r[k].nodes[n].log[l.inst].value
  {
    hide *;
    RunGrows(cfg, r, j, x);
    RunGrows(cfg, r, k, x);
    RunKeepsInv(cfg, r, k);
    RunKeepsInv(cfg, r, x);
    InvAt(cfg, r[k], n);
    StoreParts(cfg, r[k], n, r[k].nodes[n]);
    var v := r[k].nodes[n].log[l.inst].value;
    StoredChosen(cfg, r[k], r[x], n, r[k].nodes[n], l.inst);
    ExecutedChosen(cfg, r[j], r[x], l);
    OneChosen(cfg, r[x], l.inst, l.value, v);
  }

  lemma StoredChosen(cfg: Config, s: Sys, t: Sys, n: NodeId, node: Node, i: nat)
    requires LogInv(cfg, s, n, node) && i < node.inst && Grows(cfg, s, t)
    ensures i in node.log && Chosen(cfg, t, i, node.log[i].value)
  {
    ChosenGrows(cfg, s, t, i, node.log[i].value);
  }

  lemma OneChosen(cfg: Config, s: Sys, i: nat, v: Value, w: Value)
    requires Inv(cfg, s) && Chosen(cfg, s, i, v) && Chosen(cfg, s, i, w)
    ensures v == w
  {
    ChosenUnique(cfg, s, i, v, w);
  }

  lemma ExecutedChosen(cfg: Config, s: Sys, t: Sys, l: Learned)
    requires Inv(cfg, t) && Grows(cfg, s, t) && l in s.learned
    ensures Chosen(cfg, t, l.inst, l.value)
  {
  }

  /** Whatever a lagging node is offered is the value of that instance. */
  lemma OfferedValueIsTrue(cfg: Config, r: seq<Sys>, j: nat, k: nat, m: Message, l: Learned)
    requires GuardedRun(cfg, r) && j < |r| && k < |r|
    requires m in r[j].sent && m.Learn? && l in r[k].learned && l.inst == m.inst
    ensures m.value == l.value
  {
    var x := if j < k then k else j;
    RunGrows(cfg, r, j, x);
    RunGrows(cfg, r, k, x);
    RunKeepsInv(cfg, r, j);
    RunKeepsInv(cfg, r, x);
    SentOk(cfg, r[j], m);
    ChosenGrows(cfg, r[j], r[x], m.inst, m.value);
    ChosenUnique(cfg, r[x], m.inst, m.value, l.value);
  }

  /** The checksum assertion never fires, and no checksum is ever adopted from outside. */
  lemma ChecksumNeverFires(cfg: Config, r: seq<Sys>, k: nat, n: NodeId, m: Message)
    requires GuardedRun(cfg, r) && k < |r| && n in cfg.nodes && n in r[k].nodes && m in r[k].sent
    ensures ChecksumLogic(r[k].nodes[n], m) == Some(r[k].nodes[n])
    ensures m.inst == r[k].nodes[n].inst && MessageChk(m) != 0 ==> MessageChk(m) == r[k].nodes[n].lastChk
  {
    RunKeepsInv(cfg, r, k);
    ChecksumSilent(cfg, r[k], n, m);
  }

  /** No member of `q` has voted below `b` after instance `i`. */
  ghost predicate NeverBelow(s: Sys, q: set<NodeId>, i: nat, b: Ballot) {
    forall x :: x in s.votes && x.node in q && x.inst > i ==> x.ballot.AtLeast(b)
  }

  lemma PledgesBind(cfg: Config, s: Sys, i: nat, b: Ballot)
    requires Wf(cfg, s) && QuorumPledged(cfg, s, i + 1, b)
    ensures exists q :: IsQuorum(cfg, q) && NeverBelow(s, q, i, b)
  {
    var q :| AllPledged(cfg, s, q, i + 1, b);
    forall x | x in s.votes && x.node in q && x.inst > i
      ensures x.ballot.AtLeast(b)
    {
      assert Pledged(s, x.node, i + 1, b);
    }
    assert NeverBelow(s, q, i, b);
  }

  /**
   * While a node may skip Prepare, some quorum accepts nothing below its ballot in
   * any later instance, now and ever after.
   */
  lemma SkipPrepareIsSafe(cfg: Config, r: seq<Sys>, j: nat, k: nat, n: NodeId)
    requires GuardedRun(cfg, r) && j <= k < |r| && n in cfg.nodes && n in r[j].nodes
    requires r[j].nodes[n].prop.canSkip
    ensures exists q ::
      IsQuorum(cfg, q) && NeverBelow(r[k], q, r[j].nodes[n].inst, Ballot(r[j].nodes[n].prop.id, n))
  {
    hide *;
    RunKeepsInv(cfg, r, j);
    RunKeepsInv(cfg, r, k);
    InvAt(cfg, r[j], n);
    InvAt(cfg, r[k], n);
    var node := r[j].nodes[n];
    var b := Ballot(node.prop.id, n);
    SkipPledges(cfg, r[j], n, node);
    RunGrows(cfg, r, j, k);
    QuorumPledgedGrows(cfg, r[j], r[k], node.inst + 1, b);
    PledgesBind(cfg, r[k], node.inst, b);
  }

  lemma SkipPledges(cfg: Config, s: Sys, n: NodeId, node: Node)
    requires Wf(cfg, s) && PropInv(cfg, s, n, node) && node.prop.canSkip
    ensures QuorumPledged(cfg, s, node.inst + 1, Ballot(node.prop.id, n))
  {
  }

  /**
   * A crash whose newest surviving record is the acceptor's own: the promise survives
   * exactly, and the new proposer starts above every ballot the node ever broadcast.
   */
  lemma RestartStartsAbove(cfg: Config, r: seq<Sys>, k: nat, n: NodeId, lost: Option<nat>, newest: nat, next: nat, m: Message)
    requires GuardedRun(cfg, r) && k < |r| && n in cfg.nodes && n in r[k].nodes
    requires Starts(r[k].nodes[n], lost, newest, next)
    requires RestartPermitted(Survivor(r[k].nodes[n], lost), newest) && CheckpointPermitted(lost, next)
    requires m in r[k].sent && m.from == n && (m.Prepare? || m.Accept?)
    ensures var node' := Restart(Survivor(r[k].nodes[n], lost), newest, next);
      && node'.acc.promise == r[k].nodes[n].acc.promise
      && m.id < node'.prop.id
  {
    hide *;
    RunKeepsInv(cfg, r, k);
    InvAt(cfg, r[k], n);
    CrashKeepsPromise(cfg, r[k], n, lost, newest, next);
    PromiseAbove(r[k], n, r[k].nodes[n], m);
    NewIds(Survivor(r[k].nodes[n], lost), newest, next);
  }

  lemma PromiseAbove(s: Sys, n: NodeId, node: Node, m: Message)
    requires IdInv(s, n, node) && m in s.sent && m.from == n && (m.Prepare? || m.Accept?)
    ensures m.id <= node.acc.promise.id
  {
  }

  lemma NewIds(node: Node, k: nat, next: nat)
    ensures Restart(node, k, next).prop.id == Restart(node, k, next).acc.promise.id + 1
  {
  }

  /** A restart finds every value it has to replay, and each is the value executed before. */
  lemma ReplayIsTrue(cfg: Config, r: seq<Sys>, j: nat, k: nat, n: NodeId, lost: Option<nat>, newest: nat, next: nat, i: nat)
    requires GuardedRun(cfg, r) && j < |r| && k < |r| && n in cfg.nodes && n in r[k].nodes
    requires Starts(r[k].nodes[n], lost, newest, next) && next <= i < newest
    ensures var log := Survivor(r[k].nodes[n], lost).log;
      i in log && forall l :: l in r[j].learned && l.inst == i ==> l.value == log[i].value
  {
    hide *;
    RunKeepsInv(cfg, r, k);
    InvAt(cfg, r[k], n);
    StoreParts(cfg, r[k], n, r[k].nodes[n]);
    SurvivesBelow(cfg, r[k], n, r[k].nodes[n], lost, newest, next, i);
    StoredLogIsTrue(cfg, r, j, k, n, i);
  }

  /** What the state machine is given by a start of node `n`. */
  lemma StartGives(cfg: Config, s: Sys, n: NodeId, e: Event, i: nat, v: Value)
    requires n in cfg.nodes && Wf(cfg, s) && n in s.nodes && Enabled(cfg, s, n, e) && (e.EvRestart? || e.EvCutAccept?)
    requires e.next <= i < e.newest && i in Survivor(s.nodes[n], e.lost).log
    requires v == Survivor(s.nodes[n], e.lost).log[i].value
    ensures Learned(n, i, v) in Run(cfg, s, n, e).fx.learned
  {
    hide Accepting, AcceptMsg, Lost, Restart;
    assert s.nodes[n].me == n;
  }

  /**
   * A restart gives the state machine every instance that its checkpoint lacks, below the
   * newest record, each with the value executed before by any node.
   */
  lemma RestartExecutes(cfg: Config, r: seq<Sys>, j: nat, k: nat, n: NodeId, e: Event, i: nat)
    requires GuardedRun(cfg, r) && j < |r| && k < |r| && Wf(cfg, r[k]) && n in cfg.nodes && n in r[k].nodes
    requires (e.EvRestart? || e.EvCutAccept?) && Enabled(cfg, r[k], n, e) && e.next <= i < e.newest
    ensures exists v ::
      && Learned(n, i, v) in Run(cfg, r[k], n, e).fx.learned
      && forall l :: l in r[j].learned && l.inst == i ==> l.value == v
  {
    hide *;
    StartsHere(cfg, r[k], n, e);
    ReplayIsTrue(cfg, r, j, k, n, e.lost, e.newest, e.next, i);
    var v := Survivor(r[k].nodes[n], e.lost).log[i].value;
    StartGives(cfg, r[k], n, e, i, v);
  }

  lemma StartsHere(cfg: Config, s: Sys, n: NodeId, e: Event)
    requires Wf(cfg, s) && Enabled(cfg, s, n, e) && (e.EvRestart? || e.EvCutAccept?)
    ensures n in s.nodes && Starts(s.nodes[n], e.lost, e.newest, e.next)
  {
  }

  /** Below its newest record nothing is missing from a log that has lost copies. */
  lemma SurvivesBelow(cfg: Config, s: Sys, n: NodeId, node: Node, lost: Option<nat>, k: nat, next: nat, i: nat)
    requires LogInv(cfg, s, n, node) && Starts(node, lost, k, next) && i < k
    ensures i < node.inst && i in node.log && i in Survivor(node, lost).log && Survivor(node, lost).log[i] == node.log[i]
  {
    hide Chosen, RecOk;
    if lost.None? {
      NewestKnown(cfg, s, n, node, k);
    }
  }

  lemma StoredBelow(cfg: Config, s: Sys, n: NodeId, node: Node, i: nat)
    requires LogInv(cfg, s, n, node) && i < node.inst
    ensures i in node.log && node.log[i].value != []
  {
  }
}
