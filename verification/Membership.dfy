/**
 * Add, remove and change calls on any nodes, interleaved at will, over one log: the
 * membership is the fold of the calls that succeeded.
 */
module Membership {
  import opened PaxosTypes
  import opened SystemVariables

  /** A call once it has read version (after `p1` entries) and membership (after `p2`), and its entry. */
  datatype Call = Call(node: NodeId, change: Change, p1: nat, p2: nat, op: Vars)

  /** `call` is where the entry came from; the entry itself is only `call.op`. */
  datatype Entry = Op(call: Call) | Other

  datatype Read = Read(node: NodeId, change: Change, p1: nat, version: nat)

  /** The variables, the entries before `pos` executed, and before the last restarts those before `top`. */
  datatype Site = Site(vars: Vars, store: Option<Vars>, pos: nat, top: nat)

  datatype Setting = Setting(nodes: set<NodeId>, list: NodeId -> seq<NodeId>)

  datatype World = World(log: seq<Entry>, sites: map<NodeId, Site>, begun: set<Read>, calls: set<Call>,
                         proposed: set<(nat, Call)>)

  predicate Wf(c: Setting, w: World) {
    w.sites.Keys == c.nodes
  }

  /** Before there is a group id, the node's own configured list stands in. */
  function Boot(c: Setting, n: NodeId, v: Vars): Vars {
    if v.gid != 0 then v else v.(members := c.list(n))
  }

  predicate Init(c: Setting, w: World) {
    && Wf(c, w) && w.log == [] && w.begun == {} && w.calls == {} && w.proposed == {}
    && forall n :: n in w.sites ==> w.sites[n] == Site(Boot(c, n, NO_VARS), None, 0, 0)
  }

  datatype Event =
    | ReadVersion(n: NodeId, change: Change)
    | ReadMembers(read: Read)
    | MakeGid(n: NodeId, gid: nat)
    | Propose(call: Call)
    | Choose(e: Entry)
    | Execute(n: NodeId)
    | Restart(n: NodeId, pos: nat)

  predicate Enabled(c: Setting, w: World, e: Event)
    requires Wf(c, w)
  {
    match e
    case ReadVersion(n, ch) => n in c.nodes && !ch.Create? && w.sites[n].vars.gid != 0
    case ReadMembers(rd) => rd in w.begun && rd.node in c.nodes && Applied(rd.change, w.sites[rd.node].vars.members).Some?
    case MakeGid(n, gid) => n in c.nodes && gid != 0 && w.sites[n].vars.gid == 0
    case Propose(call) => call in w.calls && call.node in c.nodes
    case Choose(x) => |w.log| < NO_VERSION && (x.Op? ==> (|w.log|, x.call) in w.proposed)
    case Execute(n) => n in c.nodes && w.sites[n].pos < |w.log|
    case Restart(n, pos) => n in c.nodes && pos <= w.sites[n].top
  }

  function ExecuteAt(w: World, x: Site): Site
    requires x.pos < |w.log|
  {
    var next := x.(pos := x.pos + 1, top := if x.pos + 1 > x.top then x.pos + 1 else x.top);
    if w.log[x.pos].Other? then next
    else
      var o := Exec(x.vars, x.pos, w.log[x.pos].call.op);
      next.(vars := o.vars, store := if o.ret.Done? then Some(o.vars) else x.store)
  }

  function Next(c: Setting, w: World, e: Event): World
    requires Wf(c, w) && Enabled(c, w, e)
  {
    match e
    case ReadVersion(n, ch) =>
      w.(begun := w.begun + {Read(n, ch, w.sites[n].top, w.sites[n].vars.version)})
    case ReadMembers(rd) =>
      var v := w.sites[rd.node].vars;
      w.(calls := w.calls + {Call(rd.node, rd.change, rd.p1, w.sites[rd.node].top,
                                  Vars(v.gid, rd.version, Applied(rd.change, v.members).value))})
    case MakeGid(n, gid) =>
      var x := w.sites[n];
      w.(calls := w.calls + {Call(n, Create(gid), x.top, x.top, x.vars.(gid := gid))})
    case Propose(call) => w.(proposed := w.proposed + {(w.sites[call.node].pos, call)})
    case Choose(x) => w.(log := w.log + [x])
    case Execute(n) => w.(sites := w.sites[n := ExecuteAt(w, w.sites[n])])
    case Restart(n, pos) =>
      var x := w.sites[n];
      w.(sites := w.sites[n := Site(Boot(c, n, if x.store.Some? then x.store.value else NO_VARS), x.store, pos, x.top)])
  }

  ghost predicate Step(c: Setting, w: World, w': World) {
    Wf(c, w) && exists e :: Enabled(c, w, e) && w' == Next(c, w, e)
  }

  ghost predicate Run(c: Setting, r: seq<World>) {
    |r| > 0 && Init(c, r[0]) && forall k :: 0 <= k < |r| - 1 ==> Step(c, r[k], r[k + 1])
  }

  // ---------------------------------------------------------------- the fold of the log

  /** The variables after these entries; without a group id the members are not in the log yet. */
  function Fold(log: seq<Entry>): Vars {
    if log == [] then NO_VARS
    else
      var p := |log| - 1;
      var v := Fold(log[..p]);
      if log[p].Other? then v else Exec(v, p, log[p].call.op).vars
  }

  /** Entry `k` changed the variables. */
  predicate Succeeds(log: seq<Entry>, k: nat) {
    k < |log| && log[k].Op? && Exec(Fold(log[..k]), k, log[k].call.op).ret.Done?
  }

  lemma FoldNext(log: seq<Entry>, x: Entry)
    ensures Fold(log + [x]) == if x.Other? then Fold(log) else Exec(Fold(log), |log|, x.call.op).vars
  {
    assert (log + [x])[..|log|] == log;
  }

  lemma FoldTake(log: seq<Entry>, p: nat)
    requires p < |log|
    ensures Fold(log[..p + 1]) ==
      if log[p].Other? then Fold(log[..p]) else Exec(Fold(log[..p]), p, log[p].call.op).vars
  {
    assert log[..p + 1] == log[..p] + [log[p]];
    FoldNext(log[..p], log[p]);
  }

  /** Either nothing changed between `p` and `q`, or the version is an entry between them. */
  lemma {:induction false} FoldGrows(log: seq<Entry>, p: nat, q: nat)
    requires p <= q <= |log| <= NO_VERSION
    ensures Fold(log[..q]) == Fold(log[..p]) || p <= Fold(log[..q]).version < q
    decreases q - p
  {
    if p < q {
      FoldGrows(log, p, q - 1);
      FoldTake(log, q - 1);
    }
  }

  lemma {:induction false} FoldVersion(log: seq<Entry>)
    requires |log| <= NO_VERSION
    ensures Fold(log).version == NO_VERSION || Fold(log).version < |log|
    ensures Fold(log).version == NO_VERSION ==> Fold(log) == NO_VARS
  {
    if log != [] {
      FoldVersion(log[..|log| - 1]);
    }
  }

  // ---------------------------------------------------------------- invariant

  /** What a call knows, and that it read the version first. */
  ghost predicate CallOk(c: Setting, log: seq<Entry>, call: Call, top: nat) {
    && call.p1 <= call.p2 <= top <= |log|
    && call.op.gid != 0
    && call.op.version == Fold(log[..call.p1]).version
    && var v := Fold(log[..call.p2]);
       match call.change
       case Create(gid) => v.gid == 0 && call.p1 == call.p2 && call.op.members == c.list(call.node)
       case _ => v.gid == call.op.gid && Applied(call.change, v.members) == Some(call.op.members)
  }

  ghost predicate ReadOk(c: Setting, w: World, rd: Read)
    requires Wf(c, w)
  {
    && rd.node in c.nodes && !rd.change.Create? && rd.p1 <= w.sites[rd.node].top <= |w.log|
    && rd.version == Fold(w.log[..rd.p1]).version && Fold(w.log[..rd.p1]).gid != 0
  }

  ghost predicate EntryOk(c: Setting, log: seq<Entry>, k: nat)
    requires k < |log|
  {
    log[k].Op? ==> CallOk(c, log[..k], log[k].call, k)
  }

  ghost predicate LogOk(c: Setting, log: seq<Entry>) {
    |log| <= NO_VERSION && forall k :: 0 <= k < |log| ==> EntryOk(c, log, k)
  }

  ghost predicate CallsOk(c: Setting, w: World)
    requires Wf(c, w)
  {
    && (forall rd :: rd in w.begun ==> ReadOk(c, w, rd))
    && (forall call :: call in w.calls ==> call.node in c.nodes && CallOk(c, w.log, call, w.sites[call.node].top))
  }

  ghost predicate ProposedOk(w: World) {
    forall p, call :: (p, call) in w.proposed ==> call in w.calls && p <= |w.log|
  }

  ghost predicate SiteOk(c: Setting, w: World, n: NodeId)
    requires Wf(c, w) && n in c.nodes
  {
    var x := w.sites[n];
    && x.pos <= x.top <= |w.log|
    && x.vars == Boot(c, n, Fold(w.log[..x.top]))
    && x.store == if x.vars.version == NO_VERSION then None else Some(x.vars)
  }

  /** A group id, once there, stays; and comes with a version. */
  ghost predicate GidOk(log: seq<Entry>) {
    forall p :: 0 <= p <= |log| ==> (Fold(log[..p]).gid == 0 <==> Fold(log[..p]).version == NO_VERSION)
  }

  ghost predicate Inv(c: Setting, w: World) {
    && Wf(c, w)
    && LogOk(c, w.log) && CallsOk(c, w) && ProposedOk(w) && GidOk(w.log)
    && forall n :: n in c.nodes ==> SiteOk(c, w, n)
  }

  lemma InitInv(c: Setting, w: World)
    requires Init(c, w)
    ensures Inv(c, w)
  {
  }

  lemma SiteAt(c: Setting, w: World, n: NodeId)
    requires Inv(c, w) && n in c.nodes
    ensures Wf(c, w) && SiteOk(c, w, n)
  {
  }

  lemma InvParts(c: Setting, w: World)
    requires Inv(c, w)
    ensures Wf(c, w) && LogOk(c, w.log) && CallsOk(c, w) && ProposedOk(w) && GidOk(w.log)
  {
  }

  /** Log and sites stand; only the calls move on. */
  lemma QuietInv(c: Setting, w: World, w': World)
    requires w'.log == w.log && w'.sites == w.sites
    requires Wf(c, w') ==> CallsOk(c, w') && ProposedOk(w')
    requires Inv(c, w)
    ensures Inv(c, w')
  {
    hide LogOk, CallsOk, ProposedOk, GidOk;
    forall n | n in c.nodes
      ensures SiteOk(c, w', n)
    {
      SiteAt(c, w, n);
    }
  }

  /** What a call or a read knows does not depend on the other calls. */
  lemma ReadKept(c: Setting, w: World, w': World, rd: Read)
    requires Wf(c, w) && Wf(c, w') && w'.log == w.log && w'.sites == w.sites && ReadOk(c, w, rd)
    ensures ReadOk(c, w', rd)
  {
  }

  lemma ReadInv(c: Setting, w: World, n: NodeId, ch: Change)
    requires Wf(c, w) && Enabled(c, w, ReadVersion(n, ch))
    requires Inv(c, w)
    ensures Inv(c, Next(c, w, ReadVersion(n, ch)))
  {
    hide CallOk, GidOk, LogOk;
    SiteAt(c, w, n);
    var w' := Next(c, w, ReadVersion(n, ch));
    forall rd | rd in w'.begun
      ensures ReadOk(c, w', rd)
    {
      if rd in w.begun {
        ReadKept(c, w, w', rd);
      }
    }
    QuietInv(c, w, w');
  }

  lemma CallMade(c: Setting, w: World, rd: Read)
    requires Wf(c, w) && Enabled(c, w, ReadMembers(rd)) && ReadOk(c, w, rd) && SiteOk(c, w, rd.node)
    requires GidOk(w.log) && |w.log| <= NO_VERSION
    ensures var v := w.sites[rd.node].vars;
      var top := w.sites[rd.node].top;
      var op := Vars(v.gid, rd.version, Applied(rd.change, v.members).value);
      CallOk(c, w.log, Call(rd.node, rd.change, rd.p1, top, op), top)
  {
    var top := w.sites[rd.node].top;
    FoldGrows(w.log, rd.p1, top);
    assert Fold(w.log[..top]).gid != 0;
  }

  lemma MembersInv(c: Setting, w: World, rd: Read)
    requires Wf(c, w) && Enabled(c, w, ReadMembers(rd))
    requires Inv(c, w)
    ensures Inv(c, Next(c, w, ReadMembers(rd)))
  {
    hide CallOk, GidOk, LogOk;
    InvParts(c, w);
    SiteAt(c, w, rd.node);
    assert ReadOk(c, w, rd);
    LogLength(c, w.log);
    CallMade(c, w, rd);
    var w' := Next(c, w, ReadMembers(rd));
    forall x | x in w'.begun
      ensures ReadOk(c, w', x)
    {
      ReadKept(c, w, w', x);
    }
    QuietInv(c, w, w');
  }

  lemma LogLength(c: Setting, log: seq<Entry>)
    requires LogOk(c, log)
    ensures |log| <= NO_VERSION
  {
  }

  lemma GidInv(c: Setting, w: World, n: NodeId, gid: nat)
    requires Wf(c, w) && Enabled(c, w, MakeGid(n, gid))
    requires Inv(c, w)
    ensures Inv(c, Next(c, w, MakeGid(n, gid)))
  {
    hide GidOk, LogOk;
    SiteAt(c, w, n);
    var w' := Next(c, w, MakeGid(n, gid));
    forall x | x in w'.begun
      ensures ReadOk(c, w', x)
    {
      ReadKept(c, w, w', x);
    }
    QuietInv(c, w, w');
  }

  lemma ProposeInv(c: Setting, w: World, call: Call)
    requires Wf(c, w) && Enabled(c, w, Propose(call))
    requires Inv(c, w)
    ensures Inv(c, Next(c, w, Propose(call)))
  {
    hide CallOk, GidOk, LogOk;
    SiteAt(c, w, call.node);
    var w' := Next(c, w, Propose(call));
    forall x | x in w'.begun
      ensures ReadOk(c, w', x)
    {
      ReadKept(c, w, w', x);
    }
    QuietInv(c, w, w');
  }

  lemma CallExtends(c: Setting, log: seq<Entry>, x: Entry, call: Call, top: nat)
    requires CallOk(c, log, call, top)
    ensures CallOk(c, log + [x], call, top)
  {
    assert (log + [x])[..call.p1] == log[..call.p1];
    assert (log + [x])[..call.p2] == log[..call.p2];
  }

  lemma ChooseGid(c: Setting, w: World, x: Entry)
    requires Wf(c, w) && Enabled(c, w, Choose(x)) && LogOk(c, w.log) && GidOk(w.log)
    requires x.Op? ==> x.call.op.gid != 0
    ensures GidOk(w.log + [x])
  {
    var log' := w.log + [x];
    forall p | 0 <= p <= |log'|
      ensures Fold(log'[..p]).gid == 0 <==> Fold(log'[..p]).version == NO_VERSION
    {
      if p <= |w.log| {
        assert log'[..p] == w.log[..p];
      } else {
        assert log'[..p] == log' && w.log[..|w.log|] == w.log;
        FoldNext(w.log, x);
      }
    }
  }

  lemma ChooseLog(c: Setting, w: World, x: Entry)
    requires Wf(c, w) && Enabled(c, w, Choose(x)) && LogOk(c, w.log) && CallsOk(c, w) && ProposedOk(w)
    ensures LogOk(c, w.log + [x])
    ensures x.Op? ==> x.call.op.gid != 0
  {
    var w' := Next(c, w, Choose(x));
    forall k | 0 <= k < |w'.log|
      ensures EntryOk(c, w'.log, k)
    {
      assert w'.log[..k] == w.log[..k];
      if k < |w.log| {
        assert EntryOk(c, w.log, k);
      } else if x.Op? {
        assert (|w.log|, x.call) in w.proposed;
        assert w.log[..k] == w.log;
      }
    }
    if x.Op? {
      assert (|w.log|, x.call) in w.proposed;
    }
  }

  lemma ChooseInv(c: Setting, w: World, x: Entry)
    requires Wf(c, w) && Enabled(c, w, Choose(x))
    requires Inv(c, w)
    ensures Inv(c, Next(c, w, Choose(x)))
  {
    hide CallOk, LogOk, GidOk;
    var w' := Next(c, w, Choose(x));
    ChooseLog(c, w, x);
    ChooseGid(c, w, x);
    forall call | call in w.calls
      ensures call.node in c.nodes && CallOk(c, w'.log, call, w.sites[call.node].top)
    {
      CallExtends(c, w.log, x, call, w.sites[call.node].top);
    }
    forall rd | rd in w.begun
      ensures ReadOk(c, w', rd)
    {
      assert ReadOk(c, w, rd);
      assert w'.log[..rd.p1] == w.log[..rd.p1];
    }
    forall n | n in c.nodes
      ensures SiteOk(c, w', n)
    {
      assert SiteOk(c, w, n);
      assert w'.log[..w.sites[n].top] == w.log[..w.sites[n].top];
    }
  }

  /** Executing an entry again changes nothing. */
  lemma ReplayChangesNothing(c: Setting, w: World, n: NodeId)
    requires n in c.nodes && Wf(c, w) && Enabled(c, w, Execute(n)) && w.sites[n].pos < w.sites[n].top
    requires LogOk(c, w.log) && SiteOk(c, w, n)
    ensures w.log[w.sites[n].pos].Op? ==>
      Exec(w.sites[n].vars, w.sites[n].pos, w.log[w.sites[n].pos].call.op).ret != Done
    ensures ExecuteAt(w, w.sites[n]) == w.sites[n].(pos := w.sites[n].pos + 1)
  {
    var x := w.sites[n];
    if w.log[x.pos].Op? {
      Replayed(c, w.log, x.pos, x.top);
    }
  }

  /** An entry of the log fails on the variables of any later moment. */
  lemma Replayed(c: Setting, log: seq<Entry>, p: nat, q: nat)
    requires LogOk(c, log) && p < q <= |log| && log[p].Op?
    ensures var v := Fold(log[..q]);
      forall v': Vars :: v'.gid == v.gid && v'.version == v.version ==> Exec(v', p, log[p].call.op).ret != Done
  {
    assert EntryOk(c, log, p);
    var call := log[p].call;
    hide LogOk, EntryOk, Fold;
    assert log[..p][..call.p1] == log[..call.p1];
    FoldVersion(log[..call.p1]);
    FoldTake(log, p);
    FoldGrows(log, p + 1, q);
    FoldGrows(log, call.p1, p);
  }

  lemma NewEntrySite(c: Setting, w: World, n: NodeId)
    requires n in c.nodes && Wf(c, w) && Enabled(c, w, Execute(n)) && w.sites[n].pos == w.sites[n].top
    requires LogOk(c, w.log) && GidOk(w.log) && SiteOk(c, w, n)
    ensures SiteOk(c, Next(c, w, Execute(n)), n)
  {
    var x := w.sites[n];
    assert EntryOk(c, w.log, x.pos);
    assert Fold(w.log[..x.top]).gid == 0 <==> Fold(w.log[..x.top]).version == NO_VERSION;
    hide LogOk, GidOk, Fold;
    FoldTake(w.log, x.pos);
  }

  lemma OneSite(c: Setting, w: World, w': World, n: NodeId)
    requires n in c.nodes && Wf(c, w) && n in w'.sites && w' == w.(sites := w.sites[n := w'.sites[n]])
    requires w.sites[n].top <= w'.sites[n].top <= |w.log|
    requires Wf(c, w') ==> SiteOk(c, w', n)
    requires Inv(c, w)
    ensures Inv(c, w')
  {
    forall k | 0 <= k < |w.log|
      ensures EntryOk(c, w'.log, k)
    {
      assert EntryOk(c, w.log, k);
    }
    forall a | a in c.nodes
      ensures SiteOk(c, w', a)
    {
      assert SiteOk(c, w, a);
    }
    forall rd | rd in w.begun
      ensures ReadOk(c, w', rd)
    {
      assert ReadOk(c, w, rd);
    }
  }

  lemma ExecuteInv(c: Setting, w: World, n: NodeId)
    requires Wf(c, w) && Enabled(c, w, Execute(n))
    requires Inv(c, w)
    ensures Inv(c, Next(c, w, Execute(n)))
  {
    hide LogOk, CallsOk, ProposedOk, GidOk;
    SiteAt(c, w, n);
    var x := w.sites[n];
    if x.pos < x.top {
      ReplayChangesNothing(c, w, n);
    } else {
      NewEntrySite(c, w, n);
    }
    OneSite(c, w, Next(c, w, Execute(n)), n);
  }

  lemma RestartInv(c: Setting, w: World, n: NodeId, pos: nat)
    requires Wf(c, w) && Enabled(c, w, Restart(n, pos))
    requires Inv(c, w)
    ensures Inv(c, Next(c, w, Restart(n, pos)))
  {
    hide LogOk, CallsOk, ProposedOk, GidOk;
    SiteAt(c, w, n);
    InvParts(c, w);
    LogLength(c, w.log);
    FoldVersion(w.log[..w.sites[n].top]);
    OneSite(c, w, Next(c, w, Restart(n, pos)), n);
  }

  lemma StepInv(c: Setting, w: World, e: Event)
    requires Wf(c, w) && Enabled(c, w, e)
    requires Inv(c, w)
    ensures Inv(c, Next(c, w, e))
  {
    hide Inv, Next;
    match e
    case ReadVersion(n, ch) => ReadInv(c, w, n, ch);
    case ReadMembers(rd) => MembersInv(c, w, rd);
    case MakeGid(n, gid) => GidInv(c, w, n, gid);
    case Propose(call) => ProposeInv(c, w, call);
    case Choose(x) => ChooseInv(c, w, x);
    case Execute(n) => ExecuteInv(c, w, n);
    case Restart(n, pos) => RestartInv(c, w, n, pos);
  }

  lemma {:induction false} RunInv(c: Setting, r: seq<World>, k: nat)
    requires Run(c, r) && k < |r|
    ensures Inv(c, r[k])
  {
    hide Inv, Next, Enabled;
    if k == 0 {
      InitInv(c, r[0]);
    } else {
      RunInv(c, r, k - 1);
      assert Step(c, r[k - 1], r[k - 1 + 1]);
      var e :| Enabled(c, r[k - 1], e) && r[k] == Next(c, r[k - 1], e);
      StepInv(c, r[k - 1], e);
    }
  }

  // ---------------------------------------------------------------- what the runs promise

  /** Every node's variables are the fold of the entries it has executed. */
  lemma VariablesAreTheFold(c: Setting, r: seq<World>, k: nat, n: NodeId)
    requires Run(c, r) && k < |r| && n in c.nodes && n in r[k].sites
    ensures var x := r[k].sites[n];
      && x.top <= |r[k].log|
      && x.vars == Boot(c, n, Fold(r[k].log[..x.top]))
  {
    RunInv(c, r, k);
    SiteAt(c, r[k], n);
  }

  /**
   * No lost update: an entry that succeeds applies its call to exactly the membership
   * just before it, though the call read version and membership at two other moments.
   */
  lemma NoLostUpdate(c: Setting, r: seq<World>, k: nat, i: nat)
    requires Run(c, r) && k < |r| && Succeeds(r[k].log, i)
    ensures var log := r[k].log;
      var before, after := Fold(log[..i]), Fold(log[..i + 1]);
      && after.version == i && (before.version == NO_VERSION || before.version < i)
      && match log[i].call.change
         case Create(_) => before.gid == 0 && after.gid != 0 && after.members == c.list(log[i].call.node)
         case ch => after.gid == before.gid && Applied(ch, before.members) == Some(after.members)
  {
    RunInv(c, r, k);
    InvParts(c, r[k]);
    UpdateApplies(c, r[k], i);
  }

  lemma UpdateApplies(c: Setting, w: World, i: nat)
    requires LogOk(c, w.log) && GidOk(w.log) && Succeeds(w.log, i)
    ensures var log := w.log;
      var before, after := Fold(log[..i]), Fold(log[..i + 1]);
      && after.version == i && (before.version == NO_VERSION || before.version < i)
      && match log[i].call.change
         case Create(_) => before.gid == 0 && after.gid != 0 && after.members == c.list(log[i].call.node)
         case ch => after.gid == before.gid && Applied(ch, before.members) == Some(after.members)
  {
    var log := w.log;
    var call := log[i].call;
    assert EntryOk(c, w.log, i);
    FoldTake(log, i);
    FoldVersion(log[..i]);
    assert log[..i][..call.p1] == log[..call.p1] && log[..i][..call.p2] == log[..call.p2];
    FoldVersion(log[..call.p1]);
    FoldGrows(log, call.p1, i);
    FoldGrows(log, call.p1, call.p2);
    FoldGrows(log, call.p2, i);
    FoldVersion(log[..call.p2]);
    assert Fold(log[..i]).gid == 0 <==> Fold(log[..i]).version == NO_VERSION;
  }

  /** Between two points of the log nothing succeeded if and only if the version is still the same. */
  lemma {:induction false} SameVersion(log: seq<Entry>, p: nat, q: nat)
    requires p <= q <= |log| <= NO_VERSION
    ensures Fold(log[..q]).version == Fold(log[..p]).version <==> forall j :: p <= j < q ==> !Succeeds(log, j)
    ensures Fold(log[..q]).version == Fold(log[..p]).version ==> Fold(log[..q]) == Fold(log[..p])
    decreases q - p
  {
    if p < q {
      SameVersion(log, p, q - 1);
      FoldTake(log, q - 1);
      FoldVersion(log[..p]);
      assert Succeeds(log, q - 1) ==> Fold(log[..q]).version == q - 1;
    }
  }

  /**
   * A call is refused only for a reason: its entry succeeds if and only if no other entry
   * has succeeded since the call read the version.
   */
  lemma SucceedsUnlessOvertaken(c: Setting, r: seq<World>, k: nat, i: nat)
    requires Run(c, r) && k < |r| && i < |r[k].log| && r[k].log[i].Op?
    ensures var log := r[k].log;
      Succeeds(log, i) <==> forall j :: log[i].call.p1 <= j < i ==> !Succeeds(log, j)
  {
    RunInv(c, r, k);
    InvParts(c, r[k]);
    EntryExactly(c, r[k].log, i);
  }

  lemma EntryExactly(c: Setting, log: seq<Entry>, i: nat)
    requires LogOk(c, log) && GidOk(log) && i < |log| && log[i].Op?
    ensures Succeeds(log, i) <==> forall j :: log[i].call.p1 <= j < i ==> !Succeeds(log, j)
  {
    var call := log[i].call;
    assert EntryOk(c, log, i);
    assert log[..i][..call.p1] == log[..call.p1] && log[..i][..call.p2] == log[..call.p2];
    SameVersion(log, call.p1, i);
    if Fold(log[..i]).version == Fold(log[..call.p1]).version {
      SameVersion(log, call.p1, call.p2);
      FoldVersion(log[..call.p1]);
      FoldGrows(log, call.p1, call.p2);
      FoldGrows(log, call.p2, i);
      FoldVersion(log[..i]);
    }
  }

  /** Of the log of any group whatever: a group id once there never changes. */
  lemma {:induction false} GidForever(log: seq<Entry>, p: nat, q: nat)
    requires p <= q <= |log| && Fold(log[..p]).gid != 0
    ensures Fold(log[..q]).gid == Fold(log[..p]).gid
    decreases q - p
  {
    if p < q {
      GidForever(log, p, q - 1);
      FoldTake(log, q - 1);
    }
  }

  /** An entry that does not succeed changes nothing. */
  lemma FailureChangesNothing(log: seq<Entry>, i: nat)
    requires i < |log| && !Succeeds(log, i)
    ensures Fold(log[..i + 1]) == Fold(log[..i])
  {
    FoldTake(log, i);
  }

  /** The same entry succeeds at most once, however often it is proposed and chosen. */
  lemma SucceedsOnce(c: Setting, r: seq<World>, k: nat, i: nat, j: nat)
    requires Run(c, r) && k < |r| && i < j && Succeeds(r[k].log, i) && Succeeds(r[k].log, j)
    ensures r[k].log[i].call.op != r[k].log[j].call.op
  {
    RunInv(c, r, k);
    InvParts(c, r[k]);
    UpdateApplies(c, r[k], i);
    FoldGrows(r[k].log, i + 1, j);
  }

  /** With duplicate-free configured lists, no node is ever a member twice. */
  lemma {:induction false} NeverTwice(c: Setting, w: World, p: nat)
    requires LogOk(c, w.log) && GidOk(w.log) && p <= |w.log|
    requires forall n :: NoDuplicates(c.list(n))
    ensures NoDuplicates(Fold(w.log[..p]).members)
  {
    if p > 0 {
      NeverTwice(c, w, p - 1);
      if Succeeds(w.log, p - 1) {
        UpdateApplies(c, w, p - 1);
        var ch := w.log[p - 1].call.change;
        if !ch.Create? {
          AppliedMembers(ch, Fold(w.log[..p - 1]).members);
        }
      } else {
        FailureChangesNothing(w.log, p - 1);
      }
    }
  }

  lemma NoDuplicateMembers(c: Setting, r: seq<World>, k: nat, n: NodeId)
    requires Run(c, r) && k < |r| && n in c.nodes && n in r[k].sites
    requires forall a :: NoDuplicates(c.list(a))
    ensures NoDuplicates(r[k].sites[n].vars.members)
  {
    RunInv(c, r, k);
    InvParts(c, r[k]);
    SiteAt(c, r[k], n);
    NeverTwice(c, r[k], r[k].sites[n].top);
  }

  /**
   * A caller whose own execution reports success knows that its change was applied to
   * the membership of that very moment, on its own node.
   */
  lemma SuccessIsTruthful(c: Setting, r: seq<World>, k: nat, call: Call)
    requires Run(c, r) && k < |r| && Wf(c, r[k]) && call in r[k].calls && call.node in c.nodes && !call.change.Create?
    requires var x := r[k].sites[call.node];
      && x.pos < |r[k].log| && r[k].log[x.pos].Op? && r[k].log[x.pos].call.op == call.op
      && Exec(x.vars, x.pos, call.op).ret.Done?
    ensures var x := r[k].sites[call.node];
      && x.pos == x.top
      && Applied(call.change, x.vars.members) == Some(ExecuteAt(r[k], x).vars.members)
  {
    RunInv(c, r, k);
    InvParts(c, r[k]);
    var w := r[k];
    var x := w.sites[call.node];
    SiteAt(c, w, call.node);
    if x.pos < x.top {
      ReplayChangesNothing(c, w, call.node);
    }
    assert CallOk(c, w.log, call, x.top);
    FoldVersion(w.log[..call.p1]);
    FoldGrows(w.log, call.p1, call.p2);
    FoldGrows(w.log, call.p2, x.top);
    FoldGrows(w.log, call.p1, x.top);
    FoldVersion(w.log[..call.p2]);
  }
}
