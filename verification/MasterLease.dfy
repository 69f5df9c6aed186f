/**
 * Nodes with equal-rate clocks following one log of master bids: at most one of
 * them believes it is master at any time.
 */
module MasterLease {
  import opened PaxosTypes
  import opened MasterSm

  datatype Entry = Bid(op: Op) | Other

  /** `off(n)` is what node n's clock shows at time 0. */
  datatype Setting = Setting(nodes: set<NodeId>, off: NodeId -> nat)

  /** One node: it has executed the entries before `pos`; before the last restarts, those before `top`. */
  datatype Site = Site(sm: Sm, pos: nat, top: nat, checked: Option<nat>)

  /** `starts` has the time of each bid, `chosenAt` the time each entry was chosen. */
  datatype World = World(
    now: nat,
    log: seq<Entry>,
    chosenAt: seq<nat>,
    sites: map<NodeId, Site>,
    starts: map<nat, nat>,
    bids: set<Op>,
    proposed: set<(nat, Op)>)

  function Clock(c: Setting, w: World, n: NodeId): nat {
    w.now + c.off(n)
  }

  predicate Wf(c: Setting, w: World) {
    w.sites.Keys == c.nodes && NULL_NODE !in c.nodes && |w.chosenAt| == |w.log|
  }

  predicate Init(c: Setting, w: World) {
    && Wf(c, w)
    && w.log == [] && w.starts == map[] && w.bids == {} && w.proposed == {}
    && forall n :: n in w.sites ==> w.sites[n] == Site(FRESH_SM, 0, 0, None)
  }

  datatype Event =
    | Tick(ms: nat)
    | CheckMaster(n: NodeId)
    | MakeBid(n: NodeId, lease: nat, sid: nat)
    | Propose(n: NodeId, op: Op, withLast: bool)
    | Choose(e: Entry)
    | Execute(n: NodeId, live: bool)
    | Restart(n: NodeId, pos: nat)

  predicate Enabled(c: Setting, w: World, e: Event)
    requires Wf(c, w)
  {
    match e
    case Tick(_) => true
    case CheckMaster(n) => n in c.nodes
    case MakeBid(n, lease, sid) => n in c.nodes && w.sites[n].checked.Some? && lease >= 1000 && sid !in w.starts
    case Propose(n, op, _) => n in c.nodes && op in w.bids && op.node == n
    case Choose(x) => |w.log| < NO_VERSION && (x.Bid? ==> (|w.log|, x.op) in w.proposed)
    case Execute(n, live) => n in c.nodes && w.sites[n].pos < |w.log| && (live ==> w.log[w.sites[n].pos].Bid?)
    case Restart(n, pos) => n in c.nodes && pos <= w.sites[n].top
  }

  function ExecuteAt(c: Setting, w: World, n: NodeId, live: bool): Site
    requires Wf(c, w) && Enabled(c, w, Execute(n, live))
  {
    var x := w.sites[n];
    var sm :=
      match w.log[x.pos]
      case Other => x.sm
      case Bid(op) =>
        var abs := if live && op.sid in w.starts then OwnEnd(w.starts[op.sid] + c.off(n), op.lease) else 0;
        ApplyBid(n, x.sm, x.pos, op, abs, Clock(c, w, n));
    x.(sm := sm, pos := x.pos + 1, top := if x.pos + 1 > x.top then x.pos + 1 else x.top)
  }

  function Next(c: Setting, w: World, e: Event): World
    requires Wf(c, w) && Enabled(c, w, e)
  {
    match e
    case Tick(ms) => w.(now := w.now + ms)
    case CheckMaster(n) =>
      w.(sites := w.sites[n := w.sites[n].(checked := Check(n, w.sites[n].sm, Clock(c, w, n)))])
    case MakeBid(n, lease, sid) =>
      w.(starts := w.starts[sid := w.now],
         bids := w.bids + {Op(n, w.sites[n].checked.value, lease, 0, sid)},
         sites := w.sites[n := w.sites[n].(checked := None)])
    case Propose(n, op, withLast) =>
      var last := if withLast then w.sites[n].sm.version else 0;
      w.(proposed := w.proposed + {(w.sites[n].pos, op.(last := last))})
    case Choose(x) => w.(log := w.log + [x], chosenAt := w.chosenAt + [w.now])
    case Execute(n, live) => w.(sites := w.sites[n := ExecuteAt(c, w, n, live)])
    case Restart(n, pos) =>
      var x := w.sites[n];
      w.(sites := w.sites[n := Site(InitSm(n, x.sm.store, Clock(c, w, n)), pos, x.top, None)])
  }

  /** A node renewing its own lease does not offer the others an earlier end than it believes in itself. */
  predicate RenewalPermitted(c: Setting, w: World, e: Event)
    requires Wf(c, w) && Enabled(c, w, e)
  {
    e.MakeBid? ==>
      var x := w.sites[e.n];
      x.sm.master == e.n && x.checked == Some(x.sm.version) ==> Clock(c, w, e.n) + e.lease >= x.sm.expire
  }

  ghost predicate Step(c: Setting, w: World, w': World) {
    Wf(c, w) && exists e :: Enabled(c, w, e) && RenewalPermitted(c, w, e) && w' == Next(c, w, e)
  }

  ghost predicate Run(c: Setting, r: seq<World>) {
    |r| > 0 && Init(c, r[0]) && forall k :: 0 <= k < |r| - 1 ==> Step(c, r[k], r[k + 1])
  }

  // ---------------------------------------------------------------- the log's own meaning

  /** The last entry of the log that won, when every bid must name the winner before it. */
  function Winner(log: seq<Entry>): (v: nat)
  {
    if log == [] then NO_VERSION
    else
      var p := |log| - 1;
      var v := Winner(log[..p]);
      if log[p].Bid? && log[p].op.version == v then p else v
  }

  lemma {:induction false} WinnerIsBid(log: seq<Entry>)
    ensures Winner(log) != NO_VERSION ==> Winner(log) < |log| && log[Winner(log)].Bid?
  {
    if log != [] {
      WinnerIsBid(log[..|log| - 1]);
    }
  }

  lemma WinnerNext(log: seq<Entry>, x: Entry)
    ensures Winner(log + [x]) == if x.Bid? && x.op.version == Winner(log) then |log| else Winner(log)
  {
    assert (log + [x])[..|log|] == log;
  }

  lemma WinnerTake(log: seq<Entry>, p: nat)
    requires p < |log|
    ensures Winner(log[..p + 1]) ==
      if log[p].Bid? && log[p].op.version == Winner(log[..p]) then p else Winner(log[..p])
  {
    assert log[..p + 1] == log[..p] + [log[p]];
    WinnerNext(log[..p], log[p]);
  }

  /** Winners only move on. */
  lemma {:induction false} WinnerGrows(log: seq<Entry>, p: nat, q: nat)
    requires p <= q <= |log|
    ensures Winner(log[..q]) == Winner(log[..p]) || p <= Winner(log[..q]) < q
    decreases q - p
  {
    if p < q {
      WinnerGrows(log, p, q - 1);
      WinnerTake(log, q - 1);
    }
  }

  predicate Won(log: seq<Entry>, s: nat) {
    s < |log| && log[s].Bid? && log[s].op.version == Winner(log[..s])
  }

  lemma {:induction false} WinnerWon(log: seq<Entry>)
    ensures Winner(log) != NO_VERSION ==> Won(log, Winner(log))
  {
    if log != [] {
      var p := |log| - 1;
      WinnerWon(log[..p]);
      var v := Winner(log);
      if v != NO_VERSION && v != p {
        assert log[..p][..v] == log[..v];
      }
    }
  }

  lemma WonExtend(log: seq<Entry>, x: Entry, s: nat)
    requires s < |log|
    ensures Won(log + [x], s) == Won(log, s)
  {
    assert (log + [x])[..s] == log[..s];
  }

  // ---------------------------------------------------------------- invariant

  /** A version somebody bids with: a winner the bidder has executed and, if another's, outwaited. */
  ghost predicate VersionOk(w: World, n: NodeId, top: nat, v: nat, time: nat)
    requires |w.chosenAt| == |w.log|
  {
    v == NO_VERSION
    || (v < top <= |w.log| && w.log[v].Bid? && (w.log[v].op.node != n ==> time >= w.chosenAt[v] + w.log[v].op.lease))
  }

  ghost predicate BidOk(c: Setting, w: World, op: Op)
    requires Wf(c, w)
  {
    && op.node in c.nodes && op.sid in w.starts && w.starts[op.sid] <= w.now && op.lease >= 1000 && op.last == 0
    && VersionOk(w, op.node, w.sites[op.node].top, op.version, w.starts[op.sid])
  }

  /** A renewal in flight covers the bidder's own belief. */
  ghost predicate RenewalOk(c: Setting, w: World, op: Op)
    requires Wf(c, w)
  {
    && op.node in c.nodes && op.sid in w.starts
    && var m := w.sites[op.node].sm;
       m.master == op.node && op.version == m.version ==> w.starts[op.sid] + c.off(op.node) + op.lease >= m.expire
  }

  ghost predicate BidsOk(c: Setting, w: World)
    requires Wf(c, w)
  {
    forall op :: op in w.bids ==> BidOk(c, w, op) && RenewalOk(c, w, op)
  }

  ghost predicate LastOk(log: seq<Entry>, op: Op) {
    op.last == 0 || op.last == Winner(log)
  }

  ghost predicate ProposedOk(w: World) {
    forall p, op :: (p, op) in w.proposed ==>
      p <= |w.log| && op.(last := 0) in w.bids && (p == |w.log| ==> LastOk(w.log, op))
  }

  ghost predicate EntryOk(w: World, k: nat)
    requires |w.chosenAt| == |w.log| && k < |w.log|
  {
    && w.chosenAt[k] <= w.now
    && (forall j :: 0 <= j < k ==> w.chosenAt[j] <= w.chosenAt[k])
    && (w.log[k].Bid? ==>
          var op := w.log[k].op;
          && op.(last := 0) in w.bids && LastOk(w.log[..k], op)
          && op.sid in w.starts && w.starts[op.sid] <= w.chosenAt[k]
          && (op.version == NO_VERSION || op.version < k))
  }

  ghost predicate LogOk(w: World)
    requires |w.chosenAt| == |w.log|
  {
    |w.log| <= NO_VERSION && forall k :: 0 <= k < |w.log| ==> EntryOk(w, k)
  }

  ghost predicate SmOk(c: Setting, w: World, n: NodeId, m: Sm)
    requires |w.chosenAt| == |w.log|
  {
    if m.version == NO_VERSION then m == FRESH_SM
    else
      && m.version < |w.log| && w.log[m.version].Bid?
      && var op := w.log[m.version].op;
         && m.store == Some(Stored(op.node, m.version, op.lease))
         && if op.node == n then
              m.master == NULL_NODE
              || (m.master == n
                  && (m.expire == 0
                      || (op.sid in w.starts && m.expire + 100 <= w.starts[op.sid] + c.off(n) + op.lease)))
            else m.master == op.node && m.expire >= w.chosenAt[m.version] + op.lease + c.off(n)
  }

  ghost predicate SiteOk(c: Setting, w: World, n: NodeId)
    requires Wf(c, w) && n in c.nodes
  {
    var x := w.sites[n];
    && x.pos <= x.top <= |w.log|
    && x.sm.version == Winner(w.log[..x.top])
    && SmOk(c, w, n, x.sm)
    && (x.checked.Some? ==> VersionOk(w, n, x.top, x.checked.value, w.now))
  }

  /** While `n` believes until `e`, a later winner `s` leaves nobody else a chance before `e`. */
  ghost predicate Covered(c: Setting, w: World, n: NodeId, s: nat)
    requires Wf(c, w) && n in c.nodes && s < |w.log| && w.log[s].Bid?
  {
    var e := w.sites[n].sm.expire;
    if w.log[s].op.node == n then w.chosenAt[s] + w.log[s].op.lease + c.off(n) >= e
    else w.chosenAt[s] + c.off(n) >= e
  }

  ghost predicate BeliefOk(c: Setting, w: World, n: NodeId)
    requires Wf(c, w) && n in c.nodes
  {
    var m := w.sites[n].sm;
    m.master == n ==> forall s :: m.version < s < |w.log| && Won(w.log, s) ==> Covered(c, w, n, s)
  }

  ghost predicate Inv(c: Setting, w: World) {
    && Wf(c, w)
    && LogOk(w) && BidsOk(c, w) && ProposedOk(w)
    && forall n :: n in c.nodes ==> SiteOk(c, w, n) && BeliefOk(c, w, n)
  }

  lemma InitInv(c: Setting, w: World)
    requires Init(c, w)
    ensures Inv(c, w)
  {
  }

  // ---------------------------------------------------------------- steps that choose nothing

  /** The log stands; time and bookkeeping only move on. */
  ghost predicate Later(c: Setting, w: World, w': World) {
    && Wf(c, w) && Wf(c, w')
    && w'.log == w.log && w'.chosenAt == w.chosenAt && w.now <= w'.now
    && w.bids <= w'.bids
    && forall sid :: sid in w.starts ==> sid in w'.starts && w'.starts[sid] == w.starts[sid]
  }

  lemma LogKept(c: Setting, w: World, w': World)
    requires Later(c, w, w') && LogOk(w)
    ensures LogOk(w')
  {
    forall k | 0 <= k < |w.log|
      ensures EntryOk(w', k)
    {
      assert EntryOk(w, k);
    }
  }

  lemma SiteKept(c: Setting, w: World, w': World, n: NodeId)
    requires Later(c, w, w') && n in c.nodes && SiteOk(c, w, n) && BeliefOk(c, w, n)
    requires w'.sites[n].(checked := None) == w.sites[n].(checked := None)
    requires w'.sites[n].checked == w.sites[n].checked || w'.sites[n].checked == None
    ensures SiteOk(c, w', n) && BeliefOk(c, w', n)
  {
    var m := w.sites[n].sm;
    if m.master == n {
      forall s | m.version < s < |w.log| && Won(w'.log, s)
        ensures Covered(c, w', n, s)
      {
        assert Covered(c, w, n, s);
      }
    }
  }

  lemma BidKept(c: Setting, w: World, w': World, op: Op)
    requires Later(c, w, w') && Wf(c, w) && op.node in c.nodes
    requires BidOk(c, w, op) && RenewalOk(c, w, op)
    requires w'.sites[op.node].sm == w.sites[op.node].sm && w'.sites[op.node].top == w.sites[op.node].top
    ensures BidOk(c, w', op) && RenewalOk(c, w', op)
  {
  }

  lemma BidAt(c: Setting, w: World, op: Op)
    requires Wf(c, w) && BidsOk(c, w) && op in w.bids
    ensures BidOk(c, w, op) && RenewalOk(c, w, op)
  {
  }

  lemma SiteAt(c: Setting, w: World, n: NodeId)
    requires Inv(c, w) && n in c.nodes
    ensures SiteOk(c, w, n) && BeliefOk(c, w, n)
  {
  }

  /** A step that leaves the bids, proposals and state machines alone. */
  lemma QuietInv(c: Setting, w: World, w': World)
    requires Later(c, w, w') && w'.bids == w.bids && w'.proposed == w.proposed
    requires forall n :: n in c.nodes ==> w'.sites[n].(checked := None) == w.sites[n].(checked := None)
    requires forall n :: n in c.nodes ==>
      w'.sites[n].checked == w.sites[n].checked
      || (w'.sites[n].checked.Some? ==> VersionOk(w', n, w'.sites[n].top, w'.sites[n].checked.value, w'.now))
    requires Inv(c, w)
    ensures Inv(c, w')
  {
    hide SiteOk, BeliefOk, BidOk, RenewalOk, LogOk, VersionOk;
    LogKept(c, w, w');
    forall n | n in c.nodes
      ensures SiteOk(c, w', n) && BeliefOk(c, w', n)
    {
      var w1 := w'.(sites := w'.sites[n := w'.sites[n].(checked := None)]);
      SiteKept(c, w, w1, n);
      CheckedSite(c, w, w1, w', n);
    }
    forall op | op in w.bids
      ensures BidOk(c, w', op) && RenewalOk(c, w', op)
    {
      BidAt(c, w, op);
      BidNode(c, w, op);
      BidKept(c, w, w', op);
    }
  }

  lemma BidNode(c: Setting, w: World, op: Op)
    requires Wf(c, w) && BidOk(c, w, op)
    ensures op.node in c.nodes
  {
  }

  lemma CheckedSite(c: Setting, w: World, w1: World, w': World, n: NodeId)
    requires n in c.nodes && Later(c, w, w') && Wf(c, w1)
    requires w1 == w'.(sites := w1.sites) && w1.sites[n] == w'.sites[n].(checked := None)
    requires w'.sites[n].(checked := None) == w.sites[n].(checked := None)
    requires SiteOk(c, w, n) && SiteOk(c, w1, n) && BeliefOk(c, w1, n)
    requires w'.sites[n].checked == w.sites[n].checked
      || (w'.sites[n].checked.Some? ==> VersionOk(w', n, w'.sites[n].top, w'.sites[n].checked.value, w'.now))
    ensures SiteOk(c, w', n) && BeliefOk(c, w', n)
  {
    var m := w'.sites[n].sm;
    if m.master == n {
      forall s | m.version < s < |w'.log| && Won(w'.log, s)
        ensures Covered(c, w', n, s)
      {
        assert Covered(c, w1, n, s);
      }
    }
  }

  lemma TickInv(c: Setting, w: World, ms: nat)
    requires Inv(c, w)
    ensures Inv(c, Next(c, w, Tick(ms)))
  {
    hide Inv;
    assert Wf(c, w) by { InvWf(c, w); }
    QuietInv(c, w, Next(c, w, Tick(ms)));
  }

  lemma InvWf(c: Setting, w: World)
    requires Inv(c, w)
    ensures Wf(c, w) && LogOk(w) && BidsOk(c, w) && ProposedOk(w)
  {
  }

  /** A check that passes has outwaited another master's lease. */
  lemma CheckedOk(c: Setting, w: World, n: NodeId)
    requires Wf(c, w) && n in c.nodes && SiteOk(c, w, n) && LogOk(w) && BidsOk(c, w)
    ensures var w' := Next(c, w, CheckMaster(n));
      var x := w'.sites[n];
      x.checked.Some? ==> VersionOk(w', n, x.top, x.checked.value, w'.now)
  {
    var x := w.sites[n];
    WinnerIsBid(w.log[..x.top]);
    if x.sm.version != NO_VERSION {
      assert EntryOk(w, x.sm.version);
      BidAt(c, w, w.log[x.sm.version].op.(last := 0));
    }
  }

  lemma CheckInv(c: Setting, w: World, n: NodeId)
    requires n in c.nodes && Inv(c, w)
    ensures Wf(c, w) && Inv(c, Next(c, w, CheckMaster(n)))
  {
    hide Inv, VersionOk, SiteOk;
    InvWf(c, w);
    SiteAt(c, w, n);
    CheckedOk(c, w, n);
    var w' := Next(c, w, CheckMaster(n));
    QuietInv(c, w, w');
  }

  lemma NewBidOk(c: Setting, w: World, n: NodeId, lease: nat, sid: nat)
    requires Wf(c, w) && n in c.nodes && SiteOk(c, w, n)
    requires Enabled(c, w, MakeBid(n, lease, sid)) && RenewalPermitted(c, w, MakeBid(n, lease, sid))
    ensures var w' := Next(c, w, MakeBid(n, lease, sid));
      var op := Op(n, w.sites[n].checked.value, lease, 0, sid);
      && Later(c, w, w') && w'.bids == w.bids + {op} && w'.proposed == w.proposed
      && BidOk(c, w', op) && RenewalOk(c, w', op)
  {
  }

  lemma BidInv(c: Setting, w: World, n: NodeId, lease: nat, sid: nat)
    requires Wf(c, w) && Enabled(c, w, MakeBid(n, lease, sid))
    requires RenewalPermitted(c, w, MakeBid(n, lease, sid))
    requires Inv(c, w)
    ensures Inv(c, Next(c, w, MakeBid(n, lease, sid)))
  {
    hide SiteOk, BeliefOk, BidOk, RenewalOk, LogOk, VersionOk, RenewalPermitted;
    SiteAt(c, w, n);
    var w' := Next(c, w, MakeBid(n, lease, sid));
    NewBidOk(c, w, n, lease, sid);
    LogKept(c, w, w');
    forall a | a in c.nodes
      ensures SiteOk(c, w', a) && BeliefOk(c, w', a)
    {
      SiteKept(c, w, w', a);
    }
    forall op | op in w'.bids
      ensures BidOk(c, w', op) && RenewalOk(c, w', op)
    {
      if op in w.bids {
        BidNode(c, w, op);
        BidKept(c, w, w', op);
      }
    }
  }

  lemma ProposedLast(c: Setting, w: World, n: NodeId, op: Op, withLast: bool)
    requires Wf(c, w) && n in c.nodes && SiteOk(c, w, n) && BidOk(c, w, op)
    ensures var last := if withLast then w.sites[n].sm.version else 0;
      && op.(last := last).(last := 0) == op
      && (w.sites[n].pos == |w.log| ==> LastOk(w.log, op.(last := last)))
  {
    var x := w.sites[n];
    assert x.pos == |w.log| ==> w.log[..x.top] == w.log;
  }

  lemma ProposeInv(c: Setting, w: World, n: NodeId, op: Op, withLast: bool)
    requires Wf(c, w) && Enabled(c, w, Propose(n, op, withLast))
    requires Inv(c, w)
    ensures Inv(c, Next(c, w, Propose(n, op, withLast)))
  {
    hide SiteOk, BeliefOk, BidOk, RenewalOk, LogOk, LastOk;
    var w' := Next(c, w, Propose(n, op, withLast));
    SiteAt(c, w, n);
    BidAt(c, w, op);
    ProposedLast(c, w, n, op, withLast);
    LogKept(c, w, w');
    forall a | a in c.nodes
      ensures SiteOk(c, w', a) && BeliefOk(c, w', a)
    {
      SiteKept(c, w, w', a);
    }
    forall o | o in w.bids
      ensures BidOk(c, w', o) && RenewalOk(c, w', o)
    {
      BidNode(c, w, o);
      BidKept(c, w, w', o);
    }
  }

  // ---------------------------------------------------------------- steps of one state machine

  /** One site changes its state machine or position; everything else stands. */
  ghost predicate SiteStep(c: Setting, w: World, w': World, n: NodeId) {
    Wf(c, w) && n in c.nodes && n in w'.sites && w' == w.(sites := w.sites[n := w'.sites[n]])
  }

  lemma SiteStepInv(c: Setting, w: World, w': World, n: NodeId)
    requires SiteStep(c, w, w', n)
    requires Wf(c, w') ==> SiteOk(c, w', n) && BeliefOk(c, w', n)
    requires w.sites[n].top <= w'.sites[n].top <= |w.log|
    requires Wf(c, w') ==> forall op ::
      op in w.bids && op.node == n && BidOk(c, w, op) && RenewalOk(c, w, op) ==> RenewalOk(c, w', op)
    requires Inv(c, w)
    ensures Inv(c, w')
  {
    hide SiteOk, BeliefOk, LogOk;
    LogKept(c, w, w');
    forall a | a in c.nodes
      ensures SiteOk(c, w', a) && BeliefOk(c, w', a)
    {
      if a != n {
        SiteKept(c, w, w', a);
      }
    }
    forall op | op in w.bids
      ensures BidOk(c, w', op) && RenewalOk(c, w', op)
    {
      assert BidOk(c, w, op) && RenewalOk(c, w, op);
    }
  }

  lemma RestartSite(c: Setting, w: World, n: NodeId, pos: nat)
    requires Wf(c, w) && n in c.nodes && SiteOk(c, w, n) && LogOk(w) && pos <= w.sites[n].top
    ensures var w' := Next(c, w, Restart(n, pos));
      SiteOk(c, w', n) && BeliefOk(c, w', n) && w'.sites[n].sm.master != n
  {
    var m := w.sites[n].sm;
    if m.version != NO_VERSION {
      assert EntryOk(w, m.version);
    }
  }

  lemma RestartInv(c: Setting, w: World, n: NodeId, pos: nat)
    requires Wf(c, w) && Enabled(c, w, Restart(n, pos))
    requires Inv(c, w)
    ensures Inv(c, Next(c, w, Restart(n, pos)))
  {
    hide SiteOk, BeliefOk, LogOk, BidOk;
    SiteAt(c, w, n);
    RestartSite(c, w, n, pos);
    var w' := Next(c, w, Restart(n, pos));
    SiteStepInv(c, w, w', n);
  }

  // ---------------------------------------------------------------- choosing an entry

  lemma NewEntry(c: Setting, w: World, x: Entry)
    requires Wf(c, w) && LogOk(w) && BidsOk(c, w) && ProposedOk(w) && Enabled(c, w, Choose(x))
    ensures EntryOk(Next(c, w, Choose(x)), |w.log|)
  {
    var w' := Next(c, w, Choose(x));
    var p := |w.log|;
    assert w'.log[..p] == w.log;
    forall j | 0 <= j < p
      ensures w'.chosenAt[j] <= w'.chosenAt[p]
    {
      assert EntryOk(w, j);
    }
    if x.Bid? {
      assert (p, x.op) in w.proposed;
      BidAt(c, w, x.op.(last := 0));
    }
  }

  lemma ChooseEntry(c: Setting, w: World, x: Entry)
    requires Wf(c, w) && LogOk(w) && BidsOk(c, w) && ProposedOk(w) && Enabled(c, w, Choose(x))
    requires forall n :: n in c.nodes ==> SiteOk(c, w, n)
    ensures LogOk(Next(c, w, Choose(x))) && ProposedOk(Next(c, w, Choose(x)))
  {
    var w' := Next(c, w, Choose(x));
    var p := |w.log|;
    forall k | 0 <= k < |w'.log|
      ensures EntryOk(w', k)
    {
      if k < p {
        assert EntryOk(w, k);
        assert w'.log[..k] == w.log[..k];
      } else {
        NewEntry(c, w, x);
      }
    }
  }

  lemma ChooseKeeps(c: Setting, w: World, x: Entry, n: NodeId)
    requires Wf(c, w) && Enabled(c, w, Choose(x)) && n in c.nodes && SiteOk(c, w, n)
    ensures SiteOk(c, Next(c, w, Choose(x)), n)
  {
    var w' := Next(c, w, Choose(x));
    var top := w.sites[n].top;
    assert w'.log[..top] == w.log[..top];
  }

  /** What is known of a new winner `op` that comes after `v`. */
  lemma NewWinner(c: Setting, w: World, x: Entry)
    requires Wf(c, w) && Enabled(c, w, Choose(x)) && LogOk(w) && BidsOk(c, w) && ProposedOk(w)
    requires x.Bid?
    ensures var op := x.op;
      op.(last := 0) in w.bids && BidOk(c, w, op.(last := 0)) && RenewalOk(c, w, op.(last := 0))
  {
    assert (|w.log|, x.op) in w.proposed;
  }

  /** The next winner comes directly after the one `n` believes in. */
  lemma CoveredNext(c: Setting, w: World, n: NodeId, op: Op)
    requires Wf(c, w) && LogOk(w) && n in c.nodes && SiteOk(c, w, n)
    requires w.sites[n].sm.master == n && op.version == w.sites[n].sm.version != NO_VERSION
    requires BidOk(c, w, op.(last := 0)) && RenewalOk(c, w, op.(last := 0))
    ensures if op.node == n then w.now + op.lease + c.off(n) >= w.sites[n].sm.expire
            else w.now + c.off(n) >= w.sites[n].sm.expire
  {
    var v := op.version;
    assert EntryOk(w, v);
  }

  /** The next winner comes after a later one, which is covered. */
  lemma CoveredLater(c: Setting, w: World, n: NodeId, op: Op)
    requires Wf(c, w) && LogOk(w) && n in c.nodes && SiteOk(c, w, n)
    requires w.sites[n].sm.master == n && w.sites[n].top <= op.version < |w.log| && op.version != NO_VERSION
    requires w.log[op.version].Bid? && Covered(c, w, n, op.version) && BidOk(c, w, op.(last := 0))
    ensures w.now + c.off(n) >= w.sites[n].sm.expire
  {
    assert EntryOk(w, op.version);
  }

  /** The new winner respects what `n` believes. */
  lemma ChooseCovered(c: Setting, w: World, x: Entry, n: NodeId)
    requires Wf(c, w) && Enabled(c, w, Choose(x)) && n in c.nodes && w.sites[n].sm.master == n
    requires x.Bid? && x.op.version == Winner(w.log)
    requires Inv(c, w)
    ensures Covered(c, Next(c, w, Choose(x)), n, |w.log|)
  {
    hide LogOk, SiteOk, BeliefOk, BidOk, RenewalOk, Winner;
    var x0 := w.sites[n];
    var v := x.op.version;
    SiteAt(c, w, n);
    NewWinner(c, w, x);
    MasterVersion(c, w, n);
    WinnerWon(w.log);
    WinnerIsBid(w.log);
    WinnerGrows(w.log, x0.top, |w.log|);
    assert w.log[..|w.log|] == w.log;
    if v == x0.sm.version {
      CoveredNext(c, w, n, x.op);
    } else {
      CoveredAt(c, w, n, v);
      CoveredLater(c, w, n, x.op);
    }
  }

  lemma MasterVersion(c: Setting, w: World, n: NodeId)
    requires Wf(c, w) && n in c.nodes && SiteOk(c, w, n) && w.sites[n].sm.master == n
    ensures var x := w.sites[n];
      x.sm.version == Winner(w.log[..x.top]) != NO_VERSION && x.sm.version < x.top <= |w.log|
  {
    WinnerIsBid(w.log[..w.sites[n].top]);
  }

  lemma CoveredAt(c: Setting, w: World, n: NodeId, s: nat)
    requires Wf(c, w) && n in c.nodes && BeliefOk(c, w, n) && w.sites[n].sm.master == n
    requires w.sites[n].sm.version < s < |w.log| && Won(w.log, s)
    ensures Covered(c, w, n, s)
  {
  }

  lemma ChooseBelief(c: Setting, w: World, x: Entry, n: NodeId)
    requires Wf(c, w) && Enabled(c, w, Choose(x)) && n in c.nodes
    requires Inv(c, w)
    ensures BeliefOk(c, Next(c, w, Choose(x)), n)
  {
    var w' := Next(c, w, Choose(x));
    var m := w.sites[n].sm;
    if m.master == n {
      hide Inv, SiteOk;
      SiteAt(c, w, n);
      forall s | m.version < s < |w'.log| && Won(w'.log, s)
        ensures Covered(c, w', n, s)
      {
        if s < |w.log| {
          WonExtend(w.log, x, s);
          assert Covered(c, w, n, s);
        } else {
          assert w'.log[..s] == w.log;
          ChooseCovered(c, w, x, n);
        }
      }
    }
  }

  lemma ChooseInv(c: Setting, w: World, x: Entry)
    requires Wf(c, w) && Enabled(c, w, Choose(x))
    requires Inv(c, w)
    ensures Inv(c, Next(c, w, Choose(x)))
  {
    hide SiteOk, BeliefOk, LogOk, ProposedOk;
    var w' := Next(c, w, Choose(x));
    ChooseEntry(c, w, x);
    forall n | n in c.nodes
      ensures SiteOk(c, w', n) && BeliefOk(c, w', n)
    {
      ChooseKeeps(c, w, x, n);
      ChooseBelief(c, w, x, n);
    }
    forall op | op in w.bids
      ensures BidOk(c, w', op) && RenewalOk(c, w', op)
    {
      assert BidOk(c, w, op) && RenewalOk(c, w, op);
    }
  }

  // ---------------------------------------------------------------- executing an entry

  /** On a node that follows the log, the version repair never applies. */
  lemma NoRepair(c: Setting, w: World, n: NodeId)
    requires Inv(c, w) && n in c.nodes && w.sites[n].pos < |w.log| && w.log[w.sites[n].pos].Bid?
    ensures !NeedsRepair(w.sites[n].sm, w.sites[n].pos, w.log[w.sites[n].pos].op)
  {
    hide BeliefOk, BidsOk, ProposedOk, SmOk;
    var x := w.sites[n];
    SiteAt(c, w, n);
    assert EntryOk(w, x.pos);
    WinnerGrows(w.log, x.pos, x.top);
  }

  /** Replaying an entry executed before changes nothing. */
  lemma ReplayChangesNothing(c: Setting, w: World, n: NodeId, live: bool)
    requires n in c.nodes && Wf(c, w) && Enabled(c, w, Execute(n, live)) && w.sites[n].pos < w.sites[n].top
    requires Inv(c, w)
    ensures ExecuteAt(c, w, n, live).sm == w.sites[n].sm
  {
    hide BeliefOk, BidsOk, ProposedOk, SmOk, NeedsRepair;
    var x := w.sites[n];
    SiteAt(c, w, n);
    assert EntryOk(w, x.pos);
    if w.log[x.pos].Bid? {
      NoRepair(c, w, n);
      WinnerTake(w.log, x.pos);
      WinnerGrows(w.log, x.pos + 1, x.top);
      WinnerIsBid(w.log[..x.pos]);
    }
  }

  /** The state machine after an entry executed for the first time. */
  lemma NewEntrySm(c: Setting, w: World, n: NodeId, live: bool)
    requires n in c.nodes && Wf(c, w) && Enabled(c, w, Execute(n, live)) && w.sites[n].pos == w.sites[n].top
    requires Inv(c, w) && SiteOk(c, w, n) && EntryOk(w, w.sites[n].pos)
    requires w.log[w.sites[n].pos].Bid? ==> !NeedsRepair(w.sites[n].sm, w.sites[n].pos, w.log[w.sites[n].pos].op)
    ensures var m := ExecuteAt(c, w, n, live).sm;
      m.version == Winner(w.log[..w.sites[n].pos + 1]) && SmOk(c, w, n, m)
  {
    var x := w.sites[n];
    WinnerTake(w.log, x.pos);
    if w.log[x.pos].Bid? {
      var op := w.log[x.pos].op;
      assert Repair(x.sm, x.pos, op) == x.sm;
      BidAt(c, w, op.(last := 0));
    }
  }

  lemma SiteMoved(c: Setting, w: World, w': World, n: NodeId, m: Sm)
    requires n in c.nodes && Wf(c, w) && SiteOk(c, w, n) && w.sites[n].pos == w.sites[n].top < |w.log|
    requires m.version == Winner(w.log[..w.sites[n].pos + 1]) && SmOk(c, w, n, m)
    requires var x := w.sites[n]; w' == w.(sites := w.sites[n := x.(sm := m, pos := x.pos + 1, top := x.pos + 1)])
    ensures SiteOk(c, w', n)
  {
    hide Winner;
  }

  lemma NewEntrySite(c: Setting, w: World, n: NodeId, live: bool)
    requires n in c.nodes && Wf(c, w) && Enabled(c, w, Execute(n, live)) && w.sites[n].pos == w.sites[n].top
    requires Inv(c, w)
    ensures SiteOk(c, Next(c, w, Execute(n, live)), n)
  {
    hide SiteOk, BeliefOk, ProposedOk, BidsOk, EntryOk, SmOk, NeedsRepair, ApplyBid, Repair, Winner;
    var x := w.sites[n];
    SiteAt(c, w, n);
    EntryAt(w, x.pos);
    if w.log[x.pos].Bid? {
      NoRepair(c, w, n);
    }
    NewEntrySm(c, w, n, live);
    hide Inv, LogOk;
    SiteMoved(c, w, Next(c, w, Execute(n, live)), n, ExecuteAt(c, w, n, live).sm);
  }

  lemma EntryAt(w: World, k: nat)
    requires |w.chosenAt| == |w.log| && k < |w.log| && LogOk(w)
    ensures EntryOk(w, k)
  {
  }

  /** Nobody named in a bid by `n` is an entry `n` has yet to execute. */
  lemma NotBidYet(c: Setting, w: World, n: NodeId, s: nat)
    requires Wf(c, w) && n in c.nodes && LogOk(w) && BidsOk(c, w)
    requires s < |w.log| && w.log[s].Bid? && w.log[s].op.node == n
    ensures w.log[s].op.version == NO_VERSION || w.log[s].op.version < w.sites[n].top
  {
    assert EntryOk(w, s);
    BidAt(c, w, w.log[s].op.(last := 0));
  }

  /** After the winner `p`, which its own node has not executed yet, the next winner waits it out. */
  lemma {:induction false} LaterWinnersWait(c: Setting, w: World, n: NodeId, p: nat, s: nat)
    requires Wf(c, w) && n in c.nodes && LogOk(w) && BidsOk(c, w)
    requires w.sites[n].top <= p < s < |w.log| && w.log[p].Bid? && w.log[p].op.node == n
    requires Won(w.log, p) && Won(w.log, s)
    ensures w.chosenAt[s] >= w.chosenAt[p] + w.log[p].op.lease
    decreases s
  {
    var v := w.log[s].op.version;
    assert EntryOk(w, s);
    BidAt(c, w, w.log[s].op.(last := 0));
    WinnerTake(w.log, p);
    WinnerGrows(w.log, p + 1, s);
    if v == p {
      if w.log[s].op.node == n {
        NotBidYet(c, w, n, s);
      }
    } else {
      WinnerWon(w.log[..s]);
      assert w.log[..s][..v] == w.log[..v];
      LaterWinnersWait(c, w, n, p, v);
    }
  }

  lemma NewEntryBelief(c: Setting, w: World, n: NodeId, live: bool)
    requires n in c.nodes && Wf(c, w) && Enabled(c, w, Execute(n, live)) && w.sites[n].pos == w.sites[n].top
    requires Inv(c, w)
    ensures BeliefOk(c, Next(c, w, Execute(n, live)), n)
  {
    hide ProposedOk, NeedsRepair;
    var x := w.sites[n];
    var w' := Next(c, w, Execute(n, live));
    SiteAt(c, w, n);
    assert EntryOk(w, x.pos);
    if w.log[x.pos].Bid? {
      NoRepair(c, w, n);
      var p := x.pos;
      var op := w.log[p].op;
      if op.version == x.sm.version && op.node == n {
        BidAt(c, w, op.(last := 0));
        forall s | p < s < |w.log| && Won(w.log, s)
          ensures Covered(c, w', n, s)
        {
          LaterWinnersWait(c, w, n, p, s);
        }
      }
    }
  }

  lemma ReplaySite(c: Setting, w: World, n: NodeId, live: bool)
    requires n in c.nodes && Wf(c, w) && Enabled(c, w, Execute(n, live)) && w.sites[n].pos < w.sites[n].top
    requires ExecuteAt(c, w, n, live).sm == w.sites[n].sm && SiteOk(c, w, n) && BeliefOk(c, w, n)
    ensures var w' := Next(c, w, Execute(n, live));
      SiteOk(c, w', n) && BeliefOk(c, w', n) && w'.sites[n].top == w.sites[n].top && w'.sites[n].sm == w.sites[n].sm
  {
    var w' := Next(c, w, Execute(n, live));
    var m := w.sites[n].sm;
    if m.master == n {
      forall s | m.version < s < |w.log| && Won(w'.log, s)
        ensures Covered(c, w', n, s)
      {
        assert Covered(c, w, n, s);
      }
    }
  }

  /** No bid in flight can renew what the node has only now learned. */
  lemma NewEntryRenewal(c: Setting, w: World, n: NodeId, live: bool, op: Op)
    requires n in c.nodes && Wf(c, w) && Enabled(c, w, Execute(n, live)) && w.sites[n].pos == w.sites[n].top
    requires op.node == n && BidOk(c, w, op) && RenewalOk(c, w, op)
    requires Inv(c, w)
    ensures RenewalOk(c, Next(c, w, Execute(n, live)), op)
  {
    hide ProposedOk, NeedsRepair, BeliefOk;
    var x := w.sites[n];
    SiteAt(c, w, n);
    assert EntryOk(w, x.pos);
    if w.log[x.pos].Bid? {
      NoRepair(c, w, n);
    }
  }

  lemma ExecuteInv(c: Setting, w: World, n: NodeId, live: bool)
    requires n in c.nodes && Wf(c, w) && Enabled(c, w, Execute(n, live))
    requires Inv(c, w)
    ensures Inv(c, Next(c, w, Execute(n, live)))
  {
    hide SiteOk, BeliefOk, LogOk, BidOk, RenewalOk, NeedsRepair, Inv;
    SiteAt(c, w, n);
    var x := w.sites[n];
    var w' := Next(c, w, Execute(n, live));
    SiteBounds(c, w, n);
    if x.pos < x.top {
      ReplayChangesNothing(c, w, n, live);
      ReplaySite(c, w, n, live);
      forall op | op in w.bids && op.node == n && BidOk(c, w, op) && RenewalOk(c, w, op)
        ensures RenewalOk(c, w', op)
      {
        SameSmRenewal(c, w, w', op);
      }
      SiteStepInv(c, w, w', n);
    } else {
      NewEntrySite(c, w, n, live);
      NewEntryBelief(c, w, n, live);
      forall op | op in w.bids && op.node == n && BidOk(c, w, op) && RenewalOk(c, w, op)
        ensures RenewalOk(c, w', op)
      {
        NewEntryRenewal(c, w, n, live, op);
      }
      SiteStepInv(c, w, w', n);
    }
  }

  lemma SiteBounds(c: Setting, w: World, n: NodeId)
    requires Wf(c, w) && n in c.nodes && SiteOk(c, w, n)
    ensures w.sites[n].pos <= w.sites[n].top <= |w.log|
  {
  }

  lemma SameSmRenewal(c: Setting, w: World, w': World, op: Op)
    requires Wf(c, w) && Wf(c, w') && RenewalOk(c, w, op) && w'.starts == w.starts
    requires op.node in c.nodes ==> w'.sites[op.node].sm == w.sites[op.node].sm
    ensures RenewalOk(c, w', op)
  {
  }

  // ---------------------------------------------------------------- whole runs

  lemma StepInv(c: Setting, w: World, e: Event)
    requires Wf(c, w) && Enabled(c, w, e) && RenewalPermitted(c, w, e)
    requires Inv(c, w)
    ensures Inv(c, Next(c, w, e))
  {
    hide Inv, RenewalPermitted, Next;
    match e
    case Tick(ms) => TickInv(c, w, ms);
    case CheckMaster(n) => CheckInv(c, w, n);
    case MakeBid(n, lease, sid) => BidInv(c, w, n, lease, sid);
    case Propose(n, op, withLast) => ProposeInv(c, w, n, op, withLast);
    case Choose(x) => ChooseInv(c, w, x);
    case Execute(n, live) => ExecuteInv(c, w, n, live);
    case Restart(n, pos) => RestartInv(c, w, n, pos);
  }

  lemma {:induction false} RunInv(c: Setting, r: seq<World>, k: nat)
    requires Run(c, r) && k < |r|
    ensures Inv(c, r[k])
  {
    hide Inv, Next, RenewalPermitted, Enabled;
    if k == 0 {
      InitInv(c, r[0]);
    } else {
      RunInv(c, r, k - 1);
      assert Step(c, r[k - 1], r[k - 1 + 1]);
      var e :| Enabled(c, r[k - 1], e) && RenewalPermitted(c, r[k - 1], e) && r[k] == Next(c, r[k - 1], e);
      StepInv(c, r[k - 1], e);
    }
  }

  ghost predicate BelievesMaster(c: Setting, w: World, n: NodeId)
  {
    n in w.sites && IsIMMaster(n, w.sites[n].sm, Clock(c, w, n))
  }

  /** Once a later master's bid is known anywhere, the earlier master's lease has ended. */
  lemma LaterBelief(c: Setting, w: World, n: NodeId, m: NodeId)
    requires Inv(c, w) && n in c.nodes && m in c.nodes
    requires w.sites[n].sm.master == n && w.sites[m].sm.master == m
    requires w.sites[n].sm.version < w.sites[m].sm.version
    ensures !BelievesMaster(c, w, n)
  {
    hide BidsOk, ProposedOk, BeliefOk;
    SiteAt(c, w, n);
    SiteAt(c, w, m);
    var v := w.sites[m].sm.version;
    var top := w.sites[m].top;
    MasterVersion(c, w, m);
    WinnerWon(w.log[..top]);
    assert w.log[..top][..v] == w.log[..v];
    CoveredAt(c, w, n, v);
    assert EntryOk(w, v);
  }

  lemma SameVersion(c: Setting, w: World, n: NodeId, m: NodeId)
    requires Wf(c, w) && n in c.nodes && m in c.nodes && SiteOk(c, w, n) && SiteOk(c, w, m)
    requires w.sites[n].sm.master == n && w.sites[m].sm.master == m
    requires w.sites[n].sm.version == w.sites[m].sm.version
    ensures n == m
  {
  }

  /** At any moment of any run, at most one node believes it is master. */
  lemma AtMostOneMaster(c: Setting, r: seq<World>, k: nat, n: NodeId, m: NodeId)
    requires Run(c, r) && k < |r|
    requires BelievesMaster(c, r[k], n) && BelievesMaster(c, r[k], m)
    ensures n == m
  {
    RunInv(c, r, k);
    SiteAt(c, r[k], n);
    SiteAt(c, r[k], m);
    hide SiteOk, BeliefOk, LogOk, BidsOk, ProposedOk;
    var a, b := r[k].sites[n].sm.version, r[k].sites[m].sm.version;
    if a < b {
      LaterBelief(c, r[k], n, m);
    } else if b < a {
      LaterBelief(c, r[k], m, n);
    } else {
      SameVersion(c, r[k], n, m);
    }
  }

  /** All nodes read the log alike: the version is the last winner of what was executed. */
  lemma VersionIsLastWinner(c: Setting, r: seq<World>, k: nat, n: NodeId)
    requires Run(c, r) && k < |r| && n in c.nodes && n in r[k].sites
    ensures var x := r[k].sites[n];
      && x.top <= |r[k].log|
      && x.sm.version == Winner(r[k].log[..x.top])
      && (x.sm.version != NO_VERSION ==>
            && x.sm.version < |r[k].log| && r[k].log[x.sm.version].Bid?
            && var op := r[k].log[x.sm.version].op;
               x.sm.store == Some(Stored(op.node, x.sm.version, op.lease)))
  {
    RunInv(c, r, k);
    SiteAt(c, r[k], n);
  }

  lemma RepairNeverFires(c: Setting, r: seq<World>, k: nat, n: NodeId)
    requires Run(c, r) && k < |r| && n in c.nodes && n in r[k].sites
    requires var x := r[k].sites[n]; x.pos < |r[k].log| && r[k].log[x.pos].Bid?
    ensures var x := r[k].sites[n]; !NeedsRepair(x.sm, x.pos, r[k].log[x.pos].op)
  {
    hide Inv, NeedsRepair;
    RunInv(c, r, k);
    NoRepair(c, r[k], n);
  }

  /**
   * What the repair is for: a bid that tells its proposer's version is taken over by every
   * node whose own version is older than the entry, whichever it is, and not only by those
   * that know the winner before it; a node that has learned of no master ever is not repaired.
   */
  lemma RepairJoins(me: NodeId, m: Sm, inst: nat, op: Op, abs: nat, clock: nat)
    requires op.last != 0 && op.version == op.last
    ensures var m' := ApplyBid(me, m, inst, op, abs, clock);
      if m.version < inst || m.version == op.version then
        && m'.version == inst && m'.master == op.node && m'.lease == op.lease && m'.store == Some(Stored(op.node, inst, op.lease))
        && m'.expire == if op.node == me then abs else clock + op.lease
      else m' == m
  {
  }

  // ---------------------------------------------------------------- no lease is longer than granted

  /** A node's belief, in itself or another, ends within the stored lease from now. */
  ghost predicate Bounded(c: Setting, w: World, n: NodeId) {
    n in w.sites
    && var m := w.sites[n].sm;
       match m.store
       case None => m.expire == 0 && m.lease == 0
       case Some(v) => m.expire <= Clock(c, w, n) + v.lease && (m.lease == v.lease || m.lease == 0)
  }

  lemma StartBounded(c: Setting, w: World, k: nat)
    requires |w.chosenAt| == |w.log| && k < |w.log| && EntryOk(w, k) && w.log[k].Bid?
    ensures var op := w.log[k].op; op.sid in w.starts && w.starts[op.sid] <= w.now
  {
  }

  lemma StepBounded(c: Setting, w: World, e: Event, n: NodeId)
    requires Wf(c, w) && Enabled(c, w, e) && n in c.nodes && Bounded(c, w, n)
    requires Inv(c, w)
    ensures Bounded(c, Next(c, w, e), n)
  {
    if e.Execute? && e.n == n {
      EntryAt(w, w.sites[n].pos);
      hide LogOk, BidsOk, ProposedOk, SiteOk, BeliefOk, EntryOk;
      if w.log[w.sites[n].pos].Bid? {
        StartBounded(c, w, w.sites[n].pos);
      }
    }
  }

  lemma {:induction false} AlwaysBounded(c: Setting, r: seq<World>, k: nat, n: NodeId)
    requires Run(c, r) && k < |r| && n in c.nodes
    ensures Bounded(c, r[k], n)
  {
    hide Inv, Next, RenewalPermitted, Enabled, Bounded;
    if k == 0 {
      FirstBounded(c, r[0], n);
    } else {
      AlwaysBounded(c, r, k - 1, n);
      RunInv(c, r, k - 1);
      assert Step(c, r[k - 1], r[k - 1 + 1]);
      var e :| Enabled(c, r[k - 1], e) && RenewalPermitted(c, r[k - 1], e) && r[k] == Next(c, r[k - 1], e);
      StepBounded(c, r[k - 1], e, n);
    }
  }

  lemma FirstBounded(c: Setting, w: World, n: NodeId)
    requires Init(c, w) && n in c.nodes
    ensures Bounded(c, w, n)
  {
  }

  /**
   * Mastership passes on: once the lease of the last winner a node knows of has passed
   * and it has learned of no other, it takes nobody for master and is free to bid, with that
   * winner's version.
   */
  lemma LeaseRunsOut(c: Setting, r: seq<World>, k: nat, n: NodeId, clock: nat)
    requires Run(c, r) && k < |r| && n in c.nodes && n in r[k].sites
    requires var m := r[k].sites[n].sm;
      m.version < |r[k].log| && r[k].log[m.version].Bid? ==> clock >= Clock(c, r[k], n) + r[k].log[m.version].op.lease
    ensures var m := r[k].sites[n].sm;
      && GetMaster(m, clock) == NULL_NODE && Check(n, m, clock) == Some(m.version)
      && (m.lease != 0 ==> m.version < |r[k].log| && r[k].log[m.version].Bid? && m.lease == r[k].log[m.version].op.lease)
  {
    AlwaysBounded(c, r, k, n);
    VersionIsLastWinner(c, r, k, n);
    RunInv(c, r, k);
    SiteAt(c, r[k], n);
    hide LogOk, BidsOk, ProposedOk, BeliefOk;
  }

  // ---------------------------------------------------------------- how exact the renewal guard is

  /** Renewing for at least as long as the lease the node won is always permitted. */
  lemma LongRenewalPermitted(c: Setting, w: World, n: NodeId, lease: nat, sid: nat)
    requires Inv(c, w) && Enabled(c, w, MakeBid(n, lease, sid))
    requires var v := w.sites[n].sm.version;
      v < |w.log| && w.log[v].Bid? ==> lease + 100 >= w.log[v].op.lease
    ensures RenewalPermitted(c, w, MakeBid(n, lease, sid))
  {
    hide BeliefOk;
    SiteAt(c, w, n);
    var m := w.sites[n].sm;
    if m.version != NO_VERSION {
      assert EntryOk(w, m.version);
    }
  }

  /** A path of enabled events, permitted or not. */
  ghost predicate Path(c: Setting, w: World, es: seq<Event>, w': World)
    decreases |es|
  {
    if es == [] then w == w'
    else Wf(c, w) && Enabled(c, w, es[0]) && Path(c, Next(c, w, es[0]), es[1..], w')
  }

  lemma {:induction false} PathJoin(c: Setting, w: World, es: seq<Event>, w1: World, fs: seq<Event>, w2: World)
    requires Path(c, w, es, w1) && Path(c, w1, fs, w2)
    ensures Path(c, w, es + fs, w2)
    decreases |es|
  {
    if es == [] {
      assert es + fs == fs;
    } else {
      PathJoin(c, Next(c, w, es[0]), es[1..], w1, fs, w2);
      assert (es + fs)[1..] == es[1..] + fs;
    }
  }

  lemma PathStep(c: Setting, w: World, es: seq<Event>, w1: World, e: Event)
    requires Path(c, w, es, w1) && Wf(c, w1) && Enabled(c, w1, e)
    ensures Path(c, w, es + [e], Next(c, w1, e))
  {
    assert [e][1..] == [];
    PathJoin(c, w, es, w1, [e], Next(c, w1, e));
  }

  /** `a` bids for `lease` with the version it has executed, and the bid is chosen next. */
  lemma BidChosen(c: Setting, w: World, a: NodeId, lease: nat, sid: nat) returns (es: seq<Event>, w': World)
    requires Wf(c, w) && a in c.nodes && w.sites[a].pos == |w.log| < NO_VERSION
    requires lease >= 1000 && sid !in w.starts
    requires Check(a, w.sites[a].sm, Clock(c, w, a)).Some?
    ensures Path(c, w, es, w') && Wf(c, w') && w'.now == w.now
    ensures forall e :: e in es && e.MakeBid? ==> e == MakeBid(a, lease, sid)
    ensures w'.sites.Keys == w.sites.Keys
    ensures forall b :: b in w.sites ==> w'.sites[b].sm == w.sites[b].sm && w'.sites[b].pos == w.sites[b].pos
    ensures w'.log == w.log + [Bid(Op(a, w.sites[a].sm.version, lease, 0, sid))]
    ensures w'.starts == w.starts[sid := w.now]
  {
    var op := Op(a, w.sites[a].sm.version, lease, 0, sid);
    var w1 := Next(c, w, CheckMaster(a));
    var w2 := Next(c, w1, MakeBid(a, lease, sid));
    assert op in w2.bids;
    var w3 := Next(c, w2, Propose(a, op, false));
    assert op.(last := 0) == op;
    assert (|w.log|, op) in w3.proposed;
    w' := Next(c, w3, Choose(Bid(op)));
    es := [];
    PathStep(c, w, [], w, CheckMaster(a));
    PathStep(c, w, [] + [CheckMaster(a)], w1, MakeBid(a, lease, sid));
    PathStep(c, w, [] + [CheckMaster(a)] + [MakeBid(a, lease, sid)], w2, Propose(a, op, false));
    es := [] + [CheckMaster(a)] + [MakeBid(a, lease, sid)] + [Propose(a, op, false)];
    PathStep(c, w, es, w3, Choose(Bid(op)));
    es := es + [Choose(Bid(op))];
  }

  /** `m` executes the bid of `n` that was chosen last; the lease then runs out for `m`. */
  lemma BidExpires(c: Setting, w: World, n: NodeId, m: NodeId, lease: nat) returns (es: seq<Event>, w': World)
    requires Wf(c, w) && n in c.nodes && m in c.nodes && n != m && |w.log| > 0
    requires w.sites[m].pos == |w.log| - 1 && w.log[|w.log| - 1].Bid?
    requires var op := w.log[|w.log| - 1].op;
      op.node == n && op.version == w.sites[m].sm.version && op.last == 0 && op.lease == lease
    ensures Path(c, w, es, w') && Wf(c, w') && w'.now == w.now + lease && w'.starts == w.starts && w'.log == w.log
    ensures w'.sites[n] == w.sites[n] && w'.sites[m].pos == |w.log|
    ensures var x := w'.sites[m].sm; x.version == |w.log| - 1 && Clock(c, w', m) >= x.expire
    ensures forall e :: e in es ==> !e.MakeBid?
  {
    var w1 := Next(c, w, Execute(m, false));
    w' := Next(c, w1, Tick(lease));
    PathStep(c, w, [], w, Execute(m, false));
    PathStep(c, w, [] + [Execute(m, false)], w1, Tick(lease));
    es := [] + [Execute(m, false)] + [Tick(lease)];
  }

  /** `m` executes its own winning bid while the proposal is live. */
  lemma BidWins(c: Setting, w: World, m: NodeId) returns (es: seq<Event>, w': World)
    requires Wf(c, w) && m in c.nodes && |w.log| > 0
    requires w.sites[m].pos == |w.log| - 1 && w.log[|w.log| - 1].Bid?
    requires var op := w.log[|w.log| - 1].op;
      && op.node == m && op.version == w.sites[m].sm.version && op.last == 0 && op.lease >= 1000
      && op.sid in w.starts && w.starts[op.sid] == w.now
    ensures Path(c, w, es, w') && w'.now == w.now && BelievesMaster(c, w', m)
    ensures forall a :: a in w.sites && a != m ==> a in w'.sites && w'.sites[a] == w.sites[a]
    ensures forall e :: e in es ==> !e.MakeBid?
  {
    w' := Next(c, w, Execute(m, true));
    PathStep(c, w, [], w, Execute(m, true));
    es := [] + [Execute(m, true)];
  }

  // ---------------------------------------------------------------- playing the log

  /** When the last winner is known already, the next entry to execute changes nothing. */
  lemma NothingNew(c: Setting, w: World, n: NodeId)
    requires n in c.nodes && Wf(c, w) && Enabled(c, w, Execute(n, false))
    requires w.sites[n].sm.version == Winner(w.log)
    requires Inv(c, w)
    ensures ExecuteAt(c, w, n, false).sm == w.sites[n].sm
  {
    hide BeliefOk, BidsOk, ProposedOk, SmOk, NeedsRepair;
    var x := w.sites[n];
    SiteAt(c, w, n);
    if x.pos < x.top {
      ReplayChangesNothing(c, w, n, false);
    } else if w.log[x.pos].Bid? {
      NoRepair(c, w, n);
      WinnerTake(w.log, x.pos);
      WinnerGrows(w.log, x.pos + 1, |w.log|);
      WinnerIsBid(w.log[..x.pos]);
      assert w.log[..|w.log|] == w.log;
    }
  }

  lemma SameLogSameVersion(c: Setting, w: World, n: NodeId)
    requires Wf(c, w) && n in c.nodes && SiteOk(c, w, n) && w.sites[n].pos == |w.log|
    ensures w.sites[n].sm.version == Winner(w.log)
  {
    assert w.log[..|w.log|] == w.log;
  }

  /** A node executes the rest of the log; what it knew of the last winner stands. */
  lemma {:induction false} PlayLog(c: Setting, w: World, n: NodeId) returns (es: seq<Event>, w': World)
    requires n in c.nodes
    requires Inv(c, w)
    ensures Path(c, w, es, w') && Inv(c, w') && n in w'.sites && w' == w.(sites := w.sites[n := w'.sites[n]])
    ensures w'.sites[n].pos == |w.log| && w'.sites[n].sm.version == Winner(w.log)
    ensures w.sites[n].sm.version == Winner(w.log) ==> w'.sites[n].sm == w.sites[n].sm
    ensures forall e :: e in es ==> !e.MakeBid?
    decreases |w.log| - w.sites[n].pos
  {
    hide Inv, SiteOk, Winner;
    InvWf(c, w);
    SiteAt(c, w, n);
    SiteBounds(c, w, n);
    if w.sites[n].pos == |w.log| {
      SameLogSameVersion(c, w, n);
      es, w' := [], w;
      assert w.sites[n := w.sites[n]] == w.sites;
    } else {
      var e := Execute(n, false);
      var w1 := Next(c, w, e);
      ExecuteInv(c, w, n, false);
      if w.sites[n].sm.version == Winner(w.log) {
        NothingNew(c, w, n);
      }
      var fs;
      fs, w' := PlayLog(c, w1, n);
      es := [e] + fs;
      assert es[1..] == fs;
      assert w.sites[n := w1.sites[n]][n := w'.sites[n]] == w.sites[n := w'.sites[n]];
    }
  }

  /**
   * The renewal guard is exact: as soon as a master, known as the last winner, renews for
   * a time that ends before its present belief, another node can become master while it
   * still believes.
   */
  lemma ShortRenewalBreaks(c: Setting, w: World, n: NodeId, m: NodeId, lease: nat, sid: nat, sid2: nat)
    returns (es: seq<Event>, w': World)
    requires n in c.nodes && m in c.nodes && n != m && Wf(c, w) && |w.log| + 1 < NO_VERSION
    requires BelievesMaster(c, w, n) && w.sites[n].sm.version == Winner(w.log)
    requires lease >= 1000 && sid !in w.starts && sid2 !in w.starts && sid != sid2
    requires Clock(c, w, n) + lease < w.sites[n].sm.expire
    requires Inv(c, w)
    ensures Path(c, w, es, w') && BelievesMaster(c, w', n) && BelievesMaster(c, w', m)
    ensures forall e :: e in es && e.MakeBid? ==> e == MakeBid(n, lease, sid) || e == MakeBid(m, 1000, sid2)
  {
    hide Path, Inv, SiteOk, Winner;
    var es1, w1 := PlayLog(c, w, n);
    var es2, w2 := PlayLog(c, w1, m);
    InvWf(c, w2);
    var es3, w3 := BidChosen(c, w2, n, lease, sid);
    var es4, w4 := BidExpires(c, w3, n, m, lease);
    var es5, w5 := BidChosen(c, w4, m, 1000, sid2);
    var es6, w6 := BidWins(c, w5, m);
    PathJoin(c, w, es1, w1, es2, w2);
    PathJoin(c, w, es1 + es2, w2, es3, w3);
    PathJoin(c, w, es1 + es2 + es3, w3, es4, w4);
    PathJoin(c, w, es1 + es2 + es3 + es4, w4, es5, w5);
    PathJoin(c, w, es1 + es2 + es3 + es4 + es5, w5, es6, w6);
    es, w' := es1 + es2 + es3 + es4 + es5 + es6, w6;
  }

  /**
   * And a bid that does not name the last winner of the log never wins, however the log
   * goes on: only renewals by the last winner need the guard.
   */
  lemma StaleBidNeverWins(log: seq<Entry>, log': seq<Entry>, s: nat)
    requires |log| <= s < |log'| && log'[..|log|] == log
    requires log'[s].Bid? && log'[s].op.version != Winner(log) && log'[s].op.version < |log|
    ensures !Won(log', s)
  {
    WinnerGrows(log', |log|, s);
  }

  // ---------------------------------------------------------------- two masters, from the start

  ghost predicate Reached(c: Setting, w: World) {
    exists r :: Run(c, r) && r[|r| - 1] == w
  }

  lemma Continue(c: Setting, w: World, e: Event) returns (w': World)
    requires Reached(c, w) && Wf(c, w) && Enabled(c, w, e) && RenewalPermitted(c, w, e)
    ensures Reached(c, w') && w' == Next(c, w, e)
  {
    w' := Next(c, w, e);
    var r :| Run(c, r) && r[|r| - 1] == w;
    var r' := r + [w'];
    forall k | 0 <= k < |r'| - 1
      ensures Step(c, r'[k], r'[k + 1])
    {
      if k < |r| - 1 {
        assert r'[k] == r[k] && r'[k + 1] == r[k + 1];
      }
    }
    assert Run(c, r') && r'[|r'| - 1] == w';
  }

  /** A run that meets the guard makes node 1 master. */
  lemma OneMaster(c: Setting, lease: nat) returns (w: World)
    requires 1 in c.nodes && NULL_NODE !in c.nodes && lease >= 1000
    ensures Reached(c, w) && Wf(c, w) && w.now == 0 && |w.log| == 1 && w.starts == map[0 := 0]
    ensures w.sites[1].sm.master == 1 && w.sites[1].sm.version == 0 && w.sites[1].sm.expire == c.off(1) + lease - 100
    ensures w.log[0].Bid? && w.log[0].op.version == NO_VERSION
  {
    hide Reached;
    w := World(0, [], [], map n | n in c.nodes :: Site(FRESH_SM, 0, 0, None), map[], {}, {});
    StartWorld(c, w);
    w := Continue(c, w, CheckMaster(1));
    w := Continue(c, w, MakeBid(1, lease, 0));
    var op := Op(1, NO_VERSION, lease, 0, 0);
    w := Continue(c, w, Propose(1, op, false));
    assert op.(last := 0) == op;
    w := Continue(c, w, Choose(Bid(op)));
    w := Continue(c, w, Execute(1, true));
  }

  lemma StartWorld(c: Setting, w: World)
    requires Init(c, w)
    ensures Reached(c, w)
  {
    assert Run(c, [w]);
  }

  /**
   * So the guard is needed in every cluster with another node: after a run that meets
   * it, one renewal that does not leads to two masters.
   */
  lemma TwoMastersReachable(c: Setting, m: NodeId) returns (w: World, es: seq<Event>, w': World)
    requires 1 in c.nodes && m in c.nodes && m != 1 && NULL_NODE !in c.nodes
    ensures Reached(c, w) && Path(c, w, es, w') && BelievesMaster(c, w', 1) && BelievesMaster(c, w', m)
    ensures forall e :: e in es && e.MakeBid? ==> e == MakeBid(1, 1000, 1) || e == MakeBid(m, 1000, 2)
  {
    w := OneMaster(c, 100000);
    assert Inv(c, w) by {
      var r :| Run(c, r) && r[|r| - 1] == w;
      RunInv(c, r, |r| - 1);
    }
    hide Inv, Path, Reached;
    assert w.log[..0] == [];
    assert Winner([]) == NO_VERSION;
    assert Winner(w.log) == 0;
    es, w' := ShortRenewalBreaks(c, w, 1, m, 1000, 1, 2);
  }
}
