/** The hand-off of one caller's value to the instance loop, and the result it gets. */
module Commit {
  import opened PaxosTypes

  const NO_INSTANCE: nat := 0xFFFF_FFFF_FFFF_FFFF

  const RET_NONE := -1
  const RET_OK := 0
  const RET_CONFLICT := 14
  const RET_EXECUTE_FAIL := 15
  const RET_FOLLOWER := 16
  const RET_NOT_MEMBER := 17
  const RET_TOO_LARGE := 18
  const RET_TIMEOUT := 404

  /** The shared record; `smCtx` names the caller's state machine context. */
  datatype Ctx = Ctx(inst: nat, ret: int, ended: bool, value: Option<Value>, smCtx: nat)

  const NO_COMMIT := Ctx(NO_INSTANCE, RET_NONE, false, None, 0)

  predicate IsNew(x: Ctx) {
    x.inst == NO_INSTANCE && x.value.Some?
  }

  predicate IsMine(x: Ctx, inst: nat, v: Value) {
    !x.ended && x.inst == inst && x.value == Some(v)
  }

  function WithResult(x: Ctx, ret: int, inst: nat, v: Value): Ctx {
    if x.ended || x.inst != inst then x
    else
      x.(ret := if ret == RET_OK && x.value != Some(v) then RET_CONFLICT else ret, ended := true, value := None)
  }

  // ---------------------------------------------------------------- the object

  class CommitCtx {
    var inst: nat
    var ret: int
    var ended: bool
    var value: Option<Value>
    var smCtx: nat

    ghost function View(): Ctx
      reads this
    {
      Ctx(inst, ret, ended, value, smCtx)
    }

    constructor ()
      ensures View() == NO_COMMIT
    {
      inst, ret, ended, value, smCtx := NO_INSTANCE, RET_NONE, false, None, 0;
    }

    method NewCommit(v: Value, ctx: nat)
      modifies this
      ensures View() == Ctx(NO_INSTANCE, RET_NONE, false, Some(v), ctx)
    {
      inst, ret, ended, value, smCtx := NO_INSTANCE, RET_NONE, false, Some(v), ctx;
    }

    function IsNewCommit(): (r: bool)
      reads this
      ensures r == IsNew(View())
    {
      inst == NO_INSTANCE && value.Some?
    }

    method StartCommit(i: nat)
      modifies this
      ensures View() == old(View()).(inst := i)
    {
      inst := i;
    }

    /** The caller's context, when the learned value is the caller's. */
    method IsMyCommit(i: nat, learned: Value) returns (mine: bool, ctx: Option<nat>)
      requires !ended && inst == i ==> value.Some?
      ensures mine == IsMine(View(), i, learned)
      ensures ctx == if mine then Some(smCtx) else None
    {
      mine, ctx := false, None;
      if !ended && inst == i {
        mine := learned == value.value;
      }
      if mine {
        ctx := Some(smCtx);
      }
    }

    method SetResult(r: int, i: nat, learned: Value)
      requires !ended && inst == i && r == RET_OK ==> value.Some?
      modifies this
      ensures View() == WithResult(old(View()), r, i, learned)
    {
      if ended || inst != i {
        return;
      }
      ret := r;
      if ret == RET_OK {
        if value.value != learned {
          ret := RET_CONFLICT;
        }
      }
      ended := true;
      value := None;
    }
  }

  // ---------------------------------------------------------------- one node's runs

  const RET_TOO_MANY_WAITING := 405

  const RETRIES := 3

  /** One attempt of a call: the instance it was started in, if any, and what came of it. */
  datatype Try = Try(inst: nat, value: Value, smCtx: nat, ret: int)

  /** One caller's call: its attempts so far, and once it returns its result and instance. */
  datatype Call = Call(value: Value, smCtx: nat, isMaster: bool, tries: seq<Try>, result: Option<int>, id: nat)

  /** What the retry loop makes of one more attempt. */
  function Tried(x: Call, t: Try): Call {
    var y := x.(tries := x.tries + [t]);
    if t.ret != RET_CONFLICT || x.isMaster || |y.tries| == RETRIES then y.(result := Some(t.ret), id := t.inst) else y
  }

  /**
   * `learned` are the values executed so far, `given` the context each execution got.
   * `tried` is the value of the present attempt as it was rewritten before proposing,
   * `holder` the caller that has the wait lock.
   */
  datatype Host = Host(ctx: Ctx, tried: Value, learned: seq<Value>, given: seq<Option<nat>>,
                       holder: Option<nat>, calls: map<nat, Call>)

  datatype Event =
    | Enter(c: nat, value: Value, smCtx: nat, isMaster: bool)
    | NoLock(c: nat, ret: int)
    | Begin(c: nat)
    | Refuse(ret: int)
    | Start(value: Value)
    | Learn(value: Value, executes: bool)
    | Timeout
    | End

  predicate Open(n: Host, c: nat) {
    c in n.calls && n.calls[c].result.None? && n.holder != Some(c)
  }

  /** One caller at a time: the wait lock is held from Begin to End. */
  predicate Enabled(n: Host, e: Event) {
    match e
    case Enter(c, _, _, _) => c !in n.calls
    case NoLock(c, r) => Open(n, c) && r in {RET_TIMEOUT, RET_TOO_MANY_WAITING}
    case Begin(c) => Open(n, c) && n.holder.None?
    case Refuse(r) => IsNew(n.ctx) && r in {RET_FOLLOWER, RET_NOT_MEMBER, RET_TOO_LARGE}
    case Start(_) => IsNew(n.ctx)
    case Learn(_, _) => |n.learned| < NO_INSTANCE - 1
    case Timeout => true
    case End => n.holder.Some? && n.holder.value in n.calls && n.ctx.ended
  }

  function Next(n: Host, e: Event): Host
    requires Enabled(n, e)
  {
    match e
    case Enter(c, v, s, m) => n.(calls := n.calls[c := Call(v, s, m, [], None, 0)])
    case NoLock(c, r) =>
      var x := n.calls[c];
      n.(calls := n.calls[c := Tried(x, Try(NO_INSTANCE, x.value, x.smCtx, r))])
    case Begin(c) =>
      var x := n.calls[c];
      n.(ctx := Ctx(NO_INSTANCE, RET_NONE, false, Some(x.value), x.smCtx), tried := x.value, holder := Some(c))
    case Refuse(r) => n.(ctx := WithResult(n.ctx, r, NO_INSTANCE, []))
    case Start(v) => n.(ctx := n.ctx.(inst := |n.learned|, value := Some(v)), tried := v)
    case Learn(v, executes) =>
      var i := |n.learned|;
      if executes then
        n.(ctx := WithResult(n.ctx, RET_OK, i, v), learned := n.learned + [v],
           given := n.given + [if IsMine(n.ctx, i, v) then Some(n.ctx.smCtx) else None])
      else n.(ctx := WithResult(n.ctx, RET_EXECUTE_FAIL, i, v))
    case Timeout => n.(ctx := WithResult(n.ctx, RET_TIMEOUT, |n.learned|, []))
    case End =>
      var c := n.holder.value;
      n.(holder := None,
         calls := n.calls[c := Tried(n.calls[c], Try(n.ctx.inst, n.tried, n.ctx.smCtx, n.ctx.ret))])
  }

  const FRESH_HOST := Host(NO_COMMIT, [], [], [], None, map[])

  function Play(n: Host, es: seq<Event>): Option<Host>
    decreases |es|
  {
    if es == [] then Some(n)
    else if Enabled(n, es[0]) then Play(Next(n, es[0]), es[1..])
    else None
  }

  /** Any interleaving of any callers with the instance loop, from the start of the process. */
  function Run(es: seq<Event>): Option<Host> {
    Play(FRESH_HOST, es)
  }

  // ---------------------------------------------------------------- invariant

  /** A finished attempt tells the truth about what the node executed. */
  predicate Truthful(n: Host, t: Try) {
    && |n.given| == |n.learned|
    && (t.ret == RET_OK ==>
          t.inst < |n.learned| && n.learned[t.inst] == t.value && n.given[t.inst] == Some(t.smCtx))
    && (t.ret == RET_CONFLICT ==>
          t.inst < |n.learned| && n.learned[t.inst] != t.value && n.given[t.inst] == None)
  }

  /** Attempts follow each other in ever later instances, each but the last a conflict. */
  predicate TriesOk(n: Host, x: Call) {
    && |x.tries| <= (if x.isMaster then 1 else RETRIES)
    && (forall i :: 0 <= i < |x.tries| ==> Truthful(n, x.tries[i]) && x.tries[i].smCtx == x.smCtx)
    && (forall i :: 0 <= i < |x.tries| - 1 ==> x.tries[i].ret == RET_CONFLICT)
    && (forall i, j :: 0 <= i < j < |x.tries| ==> x.tries[i].inst < x.tries[j].inst)
  }

  predicate ResultOk(x: Call) {
    match x.result
    case None =>
      && |x.tries| < (if x.isMaster then 1 else RETRIES)
      && forall i :: 0 <= i < |x.tries| ==> x.tries[i].ret == RET_CONFLICT
    case Some(r) =>
      && x.tries != []
      && var t := x.tries[|x.tries| - 1];
         r == t.ret && x.id == t.inst && (r == RET_CONFLICT ==> x.isMaster || |x.tries| == RETRIES)
  }

  predicate CtxOk(n: Host) {
    var x := n.ctx;
    && (x.ended ==> x.value.None?)
    && (!x.ended ==> x.ret == RET_NONE && (x.value.Some? <==> n.holder.Some?))
    && (!x.ended && x.inst != NO_INSTANCE ==> x.inst == |n.learned| && x.value == Some(n.tried))
    && (!x.ended && n.holder.Some? ==> x.value == Some(n.tried))
    && (x.ended ==> Truthful(n, Try(x.inst, n.tried, x.smCtx, x.ret)))
  }

  /** The attempt under way belongs to an open call and lies in a later instance than its others. */
  predicate HolderOk(n: Host) {
    n.holder.Some? ==>
      && n.holder.value in n.calls
      && var x := n.calls[n.holder.value];
         && x.result.None? && n.ctx.smCtx == x.smCtx
         && forall i :: 0 <= i < |x.tries| ==> x.tries[i].inst < n.ctx.inst
  }

  predicate Inv(n: Host) {
    && |n.given| == |n.learned| < NO_INSTANCE
    && CtxOk(n) && HolderOk(n)
    && forall c :: c in n.calls ==> TriesOk(n, n.calls[c]) && ResultOk(n.calls[c])
  }

  /** Values executed later do not change what an attempt has found. */
  lemma TruthfulLater(n: Host, n': Host, t: Try)
    requires Truthful(n, t) && |n'.given| == |n'.learned|
    requires n.learned <= n'.learned && n.given <= n'.given
    ensures Truthful(n', t)
  {
  }

  lemma TriesLater(n: Host, n': Host, x: Call)
    requires TriesOk(n, x) && |n'.given| == |n'.learned|
    requires n.learned <= n'.learned && n.given <= n'.given
    ensures TriesOk(n', x)
  {
    forall i | 0 <= i < |x.tries|
      ensures Truthful(n', x.tries[i])
    {
      TruthfulLater(n, n', x.tries[i]);
    }
  }

  /** One more attempt, later than all before, keeps a call in order. */
  lemma TriedOk(n: Host, x: Call, t: Try)
    requires TriesOk(n, x) && ResultOk(x) && x.result.None?
    requires Truthful(n, t) && t.smCtx == x.smCtx
    requires forall i :: 0 <= i < |x.tries| ==> x.tries[i].inst < t.inst
    ensures TriesOk(n, Tried(x, t)) && ResultOk(Tried(x, t))
  {
  }

  lemma StepCtx(n: Host, e: Event)
    requires Inv(n) && Enabled(n, e)
    ensures var n' := Next(n, e);
      && |n'.given| == |n'.learned| < NO_INSTANCE && n.learned <= n'.learned && n.given <= n'.given
      && CtxOk(n') && HolderOk(n')
  {
    if e.Start? && n.holder.Some? {
      var x := n.calls[n.holder.value];
      assert TriesOk(n, x) && ResultOk(x);
      assert forall i :: 0 <= i < |x.tries| ==> Truthful(n, x.tries[i]);
    } else if e.Begin? {
      assert TriesOk(n, n.calls[e.c]) && ResultOk(n.calls[e.c]);
    }
  }

  lemma StepInv(n: Host, e: Event)
    requires Inv(n) && Enabled(n, e)
    ensures Inv(Next(n, e))
  {
    var n' := Next(n, e);
    StepCtx(n, e);
    forall c | c in n'.calls
      ensures TriesOk(n', n'.calls[c]) && ResultOk(n'.calls[c])
    {
      if c in n.calls {
        var x := n.calls[c];
        assert TriesOk(n, x) && ResultOk(x);
        TriesLater(n, n', x);
        if e.NoLock? && e.c == c {
          TriedOk(n', x, Try(NO_INSTANCE, x.value, x.smCtx, e.ret));
        } else if e.End? && n.holder == Some(c) {
          TriedOk(n', x, Try(n.ctx.inst, n.tried, n.ctx.smCtx, n.ctx.ret));
        }
      }
    }
  }

  lemma {:induction false} PlayInv(n: Host, es: seq<Event>)
    requires Inv(n) && Play(n, es).Some?
    ensures Inv(Play(n, es).value)
    decreases |es|
  {
    if es != [] {
      StepInv(n, es[0]);
      PlayInv(Next(n, es[0]), es[1..]);
    }
  }

  // ---------------------------------------------------------------- what the runs promise

  /** What a call may be told, and what it then knows of the instances it tried. */
  predicate CallTruthful(n: Host, x: Call) {
    && |n.given| == |n.learned|
    && |x.tries| <= (if x.isMaster then 1 else RETRIES)
    && (forall i, j :: 0 <= i < j < |x.tries| ==> x.tries[i].inst < x.tries[j].inst)
    && (x.result == Some(RET_OK) ==>
          && x.tries != []
          && x.id < |n.learned|
          && n.learned[x.id] == x.tries[|x.tries| - 1].value && n.given[x.id] == Some(x.smCtx))
    && (x.result == Some(RET_CONFLICT) ==>
          && |x.tries| == (if x.isMaster then 1 else RETRIES)
          && forall i :: 0 <= i < |x.tries| ==>
               var t := x.tries[i];
               t.inst < |n.learned| && n.learned[t.inst] != t.value && n.given[t.inst] == None)
  }

  lemma InvTruthful(n: Host, c: nat)
    requires Inv(n) && c in n.calls
    ensures CallTruthful(n, n.calls[c])
  {
    var x := n.calls[c];
    assert TriesOk(n, x) && ResultOk(x);
  }

  /**
   * In every run of every number of callers: a call makes at most three attempts, the
   * master's bid one, in strictly later instances.  OK with instance i: the value
   * executed at i is the last attempt's, as rewritten, and the state machine got the
   * caller's context there.  Conflict: in each instance tried another value was
   * executed, without the caller's context.
   */
  lemma CallsAreTruthful(es: seq<Event>, c: nat)
    requires Run(es).Some? && c in Run(es).value.calls
    ensures CallTruthful(Run(es).value, Run(es).value.calls[c])
  {
    PlayInv(FRESH_HOST, es);
    InvTruthful(Run(es).value, c);
  }

  /** How often caller `c` has tried for the lock. */
  function Attempts(es: seq<Event>, c: nat): nat {
    if es == [] then 0
    else Attempts(es[1..], c) + (if es[0] == Begin(c) || (es[0].NoLock? && es[0].c == c) then 1 else 0)
  }

  function TriesOf(n: Host, c: nat): nat {
    if c in n.calls then |n.calls[c].tries| else 0
  }

  function Held(n: Host, c: nat): nat {
    if n.holder == Some(c) then 1 else 0
  }

  lemma StepCount(n: Host, e: Event, c: nat)
    requires Inv(n) && Enabled(n, e)
    ensures TriesOf(Next(n, e), c) + Held(Next(n, e), c) ==
      TriesOf(n, c) + Held(n, c) + (if e == Begin(c) || (e.NoLock? && e.c == c) then 1 else 0)
  {
    hide CtxOk, TriesOk, ResultOk, Truthful;
  }

  /** Every attempt ends in exactly one result, except the one that is still under way. */
  lemma {:induction false} OneResultPerAttempt(n: Host, es: seq<Event>, c: nat)
    requires Inv(n) && Play(n, es).Some?
    ensures var m := Play(n, es).value;
      TriesOf(m, c) + Held(m, c) == TriesOf(n, c) + Held(n, c) + Attempts(es, c)
    decreases |es|
  {
    hide Inv, Next, Enabled, TriesOf, Held;
    if es != [] {
      StepInv(n, es[0]);
      StepCount(n, es[0], c);
      OneResultPerAttempt(Next(n, es[0]), es[1..], c);
    }
  }

  /** Once an attempt has a result, nothing but the next attempt changes it. */
  lemma {:induction false} ResultIsFinal(n: Host, es: seq<Event>)
    requires n.ctx.ended && Inv(n) && Play(n, es).Some?
    requires forall e :: e in es ==> !e.Begin?
    ensures Play(n, es).value.ctx == n.ctx
    decreases |es|
  {
    if es != [] {
      StepInv(n, es[0]);
      ResultIsFinal(Next(n, es[0]), es[1..]);
    }
  }

  /** And once a call has returned, nothing at all changes it. */
  lemma {:induction false} CallIsFinal(n: Host, es: seq<Event>, c: nat)
    requires Inv(n) && c in n.calls && n.calls[c].result.Some? && Play(n, es).Some?
    ensures c in Play(n, es).value.calls && Play(n, es).value.calls[c] == n.calls[c]
    decreases |es|
  {
    if es != [] {
      StepInv(n, es[0]);
      CallIsFinal(Next(n, es[0]), es[1..], c);
    }
  }

  /**
   * How an attempt ends: the learned value of its instance decides between OK and a
   * conflict; a failed execution, the timer and a refusal end it, too.  Only a conflict
   * lets a call that is not the master's try again, and no more than three times.
   */
  lemma AttemptEnds(n: Host, e: Event)
    requires n.holder.Some? && !n.ctx.ended && Enabled(n, e)
    requires e.Refuse? || (n.ctx.inst != NO_INSTANCE && (e.Learn? || e.Timeout?))
    requires Inv(n)
    ensures var ret :=
        match e
        case Learn(w, executes) => if !executes then RET_EXECUTE_FAIL else if w == n.tried then RET_OK else RET_CONFLICT
        case Refuse(r) => r
        case _ => RET_TIMEOUT;
      var m := Next(n, e);
      && Enabled(m, End) && n.holder.value in n.calls
      && var x := n.calls[n.holder.value];
         var y := Next(m, End).calls[n.holder.value];
         && y.tries == x.tries + [Try(n.ctx.inst, n.tried, x.smCtx, ret)]
         && y.result == (if ret == RET_CONFLICT && !x.isMaster && |x.tries| < 2 then None else Some(ret))
         && (y.result.Some? ==> y.id == n.ctx.inst)
  {
    var x := n.calls[n.holder.value];
    assert TriesOk(n, x) && ResultOk(x);
    hide TriesOk, Truthful;
  }

  // ---------------------------------------------------------------- the retry loop

  /**
   * What the world does during one attempt of a call: `before` it gets the lock, which
   * may fail, and `during` it waits for the result.
   */
  datatype Attempt = Attempt(before: seq<Event>, noLock: Option<int>, during: seq<Event>)

  predicate Foreign(es: seq<Event>, c: nat) {
    forall e :: e in es ==> e != Begin(c) && !(e.NoLock? && e.c == c)
  }

  predicate NoEnd(es: seq<Event>) {
    forall e :: e in es ==> !e.End?
  }

  function AttemptEvents(c: nat, a: Attempt): seq<Event> {
    a.before + (if a.noLock.Some? then [NoLock(c, a.noLock.value)] else [Begin(c)] + a.during + [End])
  }

  /** The world can do this while `c` makes one attempt. */
  predicate Possible(n: Host, c: nat, a: Attempt) {
    && Open(n, c) && Foreign(a.before, c)
    && var n1 := Play(n, a.before);
       && n1.Some?
       && if a.noLock.Some? then Enabled(n1.value, NoLock(c, a.noLock.value))
          else
            && Enabled(n1.value, Begin(c)) && Foreign(a.during, c) && NoEnd(a.during)
            && var n2 := Play(Next(n1.value, Begin(c)), a.during);
               n2.Some? && Enabled(n2.value, End)
  }

  function TryOnce(n: Host, c: nat, a: Attempt): (m: Host)
    requires Possible(n, c, a)
  {
    var n1 := Play(n, a.before).value;
    if a.noLock.Some? then Next(n1, NoLock(c, a.noLock.value))
    else Next(Play(Next(n1, Begin(c)), a.during).value, End)
  }

  /** A plan covers all attempts the call comes to make. */
  predicate Covers(n: Host, c: nat, plan: seq<Attempt>)
    decreases |plan|
  {
    && c in n.calls
    && (n.calls[c].result.None? ==>
          && plan != []
          && Possible(n, c, plan[0]) && Covers(TryOnce(n, c, plan[0]), c, plan[1..]))
  }

  lemma {:induction false} PlayForeign(n: Host, es: seq<Event>, c: nat)
    requires c in n.calls && Foreign(es, c) && Play(n, es).Some? && (n.holder == Some(c) ==> NoEnd(es))
    ensures var m := Play(n, es).value;
      && c in m.calls && m.calls[c] == n.calls[c]
      && (m.holder == Some(c) <==> n.holder == Some(c))
    decreases |es|
  {
    if es != [] {
      PlayForeign(Next(n, es[0]), es[1..], c);
    }
  }

  lemma {:induction false} PlayJoin(n: Host, a: seq<Event>, b: seq<Event>)
    requires Play(n, a).Some?
    ensures Play(n, a + b) == Play(Play(n, a).value, b)
    decreases |a|
  {
    if a == [] {
      assert a + b == b;
    } else {
      assert (a + b)[1..] == a[1..] + b;
      PlayJoin(Next(n, a[0]), a[1..], b);
    }
  }

  lemma PlayOne(n: Host, e: Event)
    requires Enabled(n, e)
    ensures Play(n, [e]) == Some(Next(n, e))
  {
    assert [e][1..] == [];
  }

  /** One attempt is a stretch of the run that adds exactly one try to the call. */
  lemma TryOnceIsRun(n: Host, c: nat, a: Attempt)
    requires Possible(n, c, a)
    ensures Play(n, AttemptEvents(c, a)) == Some(TryOnce(n, c, a))
    ensures var m := TryOnce(n, c, a);
      && c in m.calls && m.holder != Some(c)
      && exists t :: m.calls[c] == Tried(n.calls[c], t)
  {
    var n1 := Play(n, a.before).value;
    PlayForeign(n, a.before, c);
    if a.noLock.Some? {
      PlayOne(n1, NoLock(c, a.noLock.value));
      PlayJoin(n, a.before, [NoLock(c, a.noLock.value)]);
      var x := n.calls[c];
      assert TryOnce(n, c, a).calls[c] == Tried(x, Try(NO_INSTANCE, x.value, x.smCtx, a.noLock.value));
    } else {
      var n2 := Next(n1, Begin(c));
      var n3 := Play(n2, a.during).value;
      PlayForeign(n2, a.during, c);
      PlayOne(n1, Begin(c));
      PlayOne(n3, End);
      PlayJoin(n2, a.during, [End]);
      PlayJoin(n1, [Begin(c)], a.during + [End]);
      PlayJoin(n, a.before, [Begin(c)] + (a.during + [End]));
      assert [Begin(c)] + a.during + [End] == [Begin(c)] + (a.during + [End]);
      assert TryOnce(n, c, a).calls[c] == Tried(n.calls[c], Try(n3.ctx.inst, n3.tried, n3.ctx.smCtx, n3.ctx.ret));
    }
  }

  class Committer {
    /** The node the calls go through, with whatever other callers do. */
    var host: Host

    constructor ()
      ensures host == FRESH_HOST
    {
      host := FRESH_HOST;
    }

    /** One attempt: lock, hand over, wait for the result; `id` only means something with OK. */
    method NewValueGetIDNoRetry(c: nat, a: Attempt) returns (ret: int, id: nat)
      requires Possible(host, c, a)
      modifies this
      ensures host == TryOnce(old(host), c, a) && Play(old(host), AttemptEvents(c, a)) == Some(host)
      ensures c in host.calls && host.holder != Some(c)
      ensures exists t :: host.calls[c] == Tried(old(host).calls[c], t) && t.ret == ret && (ret == RET_OK ==> id == t.inst)
    {
      TryOnceIsRun(host, c, a);
      ghost var x := host.calls[c];
      PlayForeign(host, a.before, c);
      host := Play(host, a.before).value;
      id := 0;
      if a.noLock.Some? {
        ret := a.noLock.value;
        host := Next(host, NoLock(c, ret));
        assert host.calls[c] == Tried(x, Try(NO_INSTANCE, x.value, x.smCtx, ret));
        return;
      }
      host := Next(host, Begin(c));
      PlayForeign(host, a.during, c);
      host := Play(host, a.during).value;
      ret := host.ctx.ret;
      if ret == RET_OK {
        id := host.ctx.inst;
      }
      ghost var t := Try(host.ctx.inst, host.tried, host.ctx.smCtx, host.ctx.ret);
      host := Next(host, End);
      assert host.calls[c] == Tried(x, t);
    }

    /**
     * A whole call, whatever the world does meanwhile: it is a stretch of the run, and
     * what it returns is true of the instances it tried.
     */
    method NewValueGetID(c: nat, v: Value, smCtx: nat, isMaster: bool, plan: seq<Attempt>)
      returns (ret: int, id: nat, ghost es: seq<Event>)
      requires c !in host.calls && Covers(Next(host, Enter(c, v, smCtx, isMaster)), c, plan)
      modifies this
      ensures Play(old(host), es) == Some(host)
      ensures c in host.calls && host.calls[c].result == Some(ret) && (ret == RET_OK ==> id == host.calls[c].id)
      ensures Inv(old(host)) ==> CallTruthful(host, host.calls[c])
    {
      ghost var n := host;
      host := Next(host, Enter(c, v, smCtx, isMaster));
      es := [Enter(c, v, smCtx, isMaster)];
      PlayOne(n, es[0]);
      var retry := RETRIES;
      var k := 0;
      ret, id := RET_OK, 0;
      hide Play, Inv, TryOnce, AttemptEvents, CallTruthful;
      while retry > 0
        invariant 0 <= retry && retry + k == RETRIES && k <= |plan|
        invariant Play(n, es) == Some(host)
        invariant c in host.calls && host.holder != Some(c) && host.calls[c].isMaster == isMaster
        invariant Covers(host, c, plan[k..]) && |host.calls[c].tries| == k
        invariant host.calls[c].result == if retry > 0 then None else Some(ret)
        invariant retry == 0 ==> ret != RET_OK
        decreases retry
      {
        retry := retry - 1;
        assert plan[k..][1..] == plan[k + 1..];
        PlayJoin(n, es, AttemptEvents(c, plan[k]));
        es := es + AttemptEvents(c, plan[k]);
        ret, id := NewValueGetIDNoRetry(c, plan[k]);
        k := k + 1;
        if ret != RET_CONFLICT {
          break;
        }
        if isMaster {
          break;
        }
      }
      if Inv(n) {
        PlayInv(n, es);
        InvTruthful(host, c);
      }
    }
  }
}
