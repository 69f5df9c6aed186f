/** Catch-up: the senders' windows, the receiver's acknowledgements, and when a sender waits. */
module LearnerFlow {
  import opened PaxosTypes

  /**
   * `sendLead`: how far a sender runs ahead; `ackLead`: how often the receiver
   * acknowledges; `prepareTimeout`: how long after its last send a sender still counts as
   * sending; `ackTimeout`: how long it waits for an acknowledgement.  In milliseconds.
   */
  datatype Leads = Leads(sendLead: nat, ackLead: nat, prepareTimeout: nat, ackTimeout: nat)

  const NORMAL := Leads(21, 4, 5000, 5000)
  const LARGE_BUFFERS := Leads(5, 2, 6000, 60000)

  predicate Sound(c: Leads) {
    0 < c.ackLead < c.sendLead && 0 < c.prepareTimeout
  }

  /** Both settings in use are sound. */
  lemma SettingsSound()
    ensures Sound(NORMAL) && Sound(LARGE_BUFFERS)
  {
  }

  function CutLead(c: Leads, lead: nat): nat {
    if lead - c.ackLead > c.ackLead then lead - c.ackLead else lead
  }

  // ---------------------------------------------------------------- one sender

  /**
   * A session is offered, then confirmed, and then streams: `begin..next` have been sent;
   * `checked` tells whether the last one passed the window check, `waited` whether its
   * check has found it beyond the window.  The last three
   * fields are history: the acknowledgements that arrived while the session counted
   * them; whether the receiver had acknowledged nothing beyond `begin` when the session
   * was confirmed; whether an acknowledgement came too late for the session to count it.
   */
  datatype Sender = Sender(
    active: bool, confirmed: bool, begin: nat, next: nat, checked: bool, waited: bool, ack: nat, lead: nat,
    lastSend: nat, lastAckTime: nat, counted: set<nat>, clean: bool, late: bool)

  function Idle(lead: nat): Sender {
    Sender(false, false, 0, 0, true, false, 0, lead, 0, 0, {}, false, false)
  }

  datatype Act =
    | Offer(b: nat)
    | Confirm(clean: bool)
    | SendOne
    | Wait
    | Pass
    | CaughtUp
    | AckTimeout
    | Finish
    | Fail
    | Arrive(a: nat)

  function Since(time: nat, now: nat): nat {
    if now > time then now - time else 0
  }

  predicate Busy(c: Leads, s: Sender, now: nat) {
    s.active && Since(s.lastSend, now) < c.prepareTimeout
  }

  predicate Streams(s: Sender) {
    s.active && s.confirmed
  }

  /** The check of the last value sent does not let the sender go on. */
  predicate Waits(s: Sender) {
    Streams(s) && !s.checked && s.next - 1 > s.ack + s.lead
  }

  predicate CanAct(c: Leads, s: Sender, now: nat, e: Act) {
    match e
    case Offer(_) => !Busy(c, s, now) && !s.confirmed
    case Confirm(_) => Busy(c, s, now) && !s.confirmed
    case SendOne => Streams(s) && s.checked
    case Wait => Waits(s)
    case Pass => Streams(s) && !s.checked && s.next - 1 <= s.ack + s.lead && (s.ack <= s.next - 1 || s.waited)
    case CaughtUp => Streams(s) && !s.checked && !s.waited && s.next - 1 < s.ack
    case AckTimeout => Waits(s) && Since(s.lastAckTime, now) >= c.ackTimeout
    case Finish => Streams(s) && s.checked
    case Fail => Streams(s) && s.checked
    case Arrive(_) => true
  }

  /** An acknowledgement counts only in a confirmed session, soon enough after the last send. */
  function Acted(c: Leads, s: Sender, now: nat, e: Act): Sender {
    match e
    case Offer(b) => Sender(true, false, b, b, true, false, b, s.lead, now, now, {}, false, false)
    case Confirm(clean) => s.(confirmed := true, clean := clean)
    case SendOne => s.(next := s.next + 1, checked := false)
    case Wait => s.(waited := true)
    case Pass => s.(checked := true, waited := false, lastSend := now)
    case CaughtUp => Idle(c.sendLead)
    case AckTimeout => Idle(CutLead(c, s.lead))
    case Finish => Idle(c.sendLead)
    case Fail => Idle(s.lead)
    case Arrive(a) =>
      if Busy(c, s, now) && s.confirmed then
        if a > s.ack then s.(ack := a, lastAckTime := now, counted := s.counted + {a})
        else s.(counted := s.counted + {a})
      else s.(late := s.late || Streams(s))
  }

  datatype Timed = Timed(at: nat, act: Act)

  /** The time of the last of these acts, or `from`. */
  function Latest(from: nat, es: seq<Timed>): nat {
    if es == [] then from else es[|es| - 1].at
  }

  /** The sender after these acts, from time `from` on; None when one of them is not possible. */
  function ActAll(c: Leads, s: Sender, from: nat, es: seq<Timed>): Option<Sender> {
    if es == [] then Some(s)
    else
      var e := es[|es| - 1];
      var before := es[..|es| - 1];
      var u := ActAll(c, s, from, before);
      if u.Some? && Latest(from, before) <= e.at && CanAct(c, u.value, e.at, e.act)
      then Some(Acted(c, u.value, e.at, e.act)) else None
  }

  /** By time `until` the acts `es` have led from `s` to `u`. */
  predicate Took(c: Leads, s: Sender, from: nat, es: seq<Timed>, u: Sender, until: nat) {
    ActAll(c, s, from, es) == Some(u) && Latest(from, es) <= until
  }

  // ---------------------------------------------------------------- one receiver, any senders

  /**
   * `sent` and `acks` are all messages so far, with the sender they come from or go to,
   * `arrived` the acknowledgements that have come in, counted or not.  `lastAck` is the
   * receiver's one record of its last acknowledgement, `heard` the largest value it has
   * processed.
   */
  datatype World = World(
    now: nat, senders: map<NodeId, Sender>, sent: set<(NodeId, nat)>, acks: set<(NodeId, nat)>,
    arrived: set<(NodeId, nat)>, inst: nat, lastAck: nat, heard: Option<nat>)

  datatype Event =
    | Tick(ms: nat)
    | Do(n: NodeId, act: Act)
    | Deliver(n: NodeId, i: nat)
    | LearnElsewhere

  /** A session may begin at an instance the receiver has left behind; messages come at any time, any number. */
  predicate Enabled(c: Leads, w: World, e: Event) {
    match e
    case Tick(_) => true
    case Do(n, act) =>
      && n in w.senders && CanAct(c, w.senders[n], w.now, act)
      && (act.Offer? ==> act.b <= w.inst)
      && (act.Confirm? ==> act.clean == (w.lastAck <= w.senders[n].begin))
      && (act.Arrive? ==> (n, act.a) in w.acks)
    case Deliver(n, i) => (n, i) in w.sent
    case LearnElsewhere => true
  }

  /** The receiver acknowledges its instance, to whoever it heard from, once it is far enough beyond the last time. */
  function Acknowledge(c: Leads, w: World, n: NodeId): World {
    if w.inst < w.lastAck + c.ackLead then w else w.(lastAck := w.inst, acks := w.acks + {(n, w.inst)})
  }

  function Received(c: Leads, w: World, n: NodeId, i: nat): World {
    if i > w.inst then w
    else
      var v := Acknowledge(c, w, n).(heard := if w.heard.Some? && w.heard.value > i then w.heard else Some(i));
      if i == w.inst then v.(inst := w.inst + 1) else v
  }

  function Next(c: Leads, w: World, e: Event): World
    requires Enabled(c, w, e)
  {
    match e
    case Tick(ms) => w.(now := w.now + ms)
    case Do(n, act) =>
      var s := w.senders[n];
      w.(senders := w.senders[n := Acted(c, s, w.now, act)],
         sent := if act.SendOne? then w.sent + {(n, s.next)} else w.sent,
         arrived := if act.Arrive? then w.arrived + {(n, act.a)} else w.arrived)
    case Deliver(n, i) => Received(c, w, n, i)
    case LearnElsewhere => w.(inst := w.inst + 1)
  }

  predicate Init(c: Leads, w: World) {
    && w.sent == {} && w.acks == {} && w.arrived == {} && w.lastAck == 0 && w.heard == None
    && forall n :: n in w.senders ==> w.senders[n] == Idle(c.sendLead)
  }

  ghost predicate Step(c: Leads, w: World, w': World) {
    exists e :: Enabled(c, w, e) && w' == Next(c, w, e)
  }

  ghost predicate Run(c: Leads, r: seq<World>) {
    && |r| > 0
    && Init(c, r[0])
    && forall k :: 0 <= k < |r| - 1 ==> Step(c, r[k], r[k + 1])
  }

  // ---------------------------------------------------------------- invariant

  ghost predicate SessionOk(c: Leads, s: Sender) {
    && c.ackLead < s.lead <= c.sendLead
    && (if s.active then
          && s.begin <= s.ack && s.begin <= s.next && (!s.checked ==> s.begin < s.next)
          && (s.checked ==> !s.waited) && (!s.confirmed ==> s.checked && s.next == s.begin && s.counted == {})
          && (s.next > s.begin ==> s.next - 1 <= s.ack + s.lead + (if s.checked then 0 else 1))
          && (s.ack == s.begin || s.ack in s.counted) && forall a :: a in s.counted ==> a <= s.ack
        else s == Idle(s.lead))
  }

  /** A clean session without a late acknowledgement has counted all that arrived. */
  ghost predicate CountsAll(w: World, n: NodeId, s: Sender) {
    Streams(s) && s.clean && !s.late ==>
      forall a :: (n, a) in w.arrived && a > s.begin ==> a in s.counted
  }

  ghost predicate LastAckSent(w: World) {
    w.lastAck == 0 || exists m :: (m, w.lastAck) in w.acks
  }

  ghost predicate Inv(c: Leads, w: World) {
    && (forall n :: n in w.senders ==> SessionOk(c, w.senders[n]) && CountsAll(w, n, w.senders[n]))
    && w.lastAck <= w.inst && LastAckSent(w)
    && (forall x :: x in w.acks ==> x.1 <= w.lastAck) && w.arrived <= w.acks
    && (w.heard.Some? ==> w.lastAck + c.ackLead > w.heard.value)
  }

  lemma ActSession(c: Leads, s: Sender, now: nat, act: Act)
    requires Sound(c) && SessionOk(c, s) && CanAct(c, s, now, act)
    ensures SessionOk(c, Acted(c, s, now, act))
  {
  }

  lemma ActCounts(c: Leads, w: World, n: NodeId, act: Act)
    requires Sound(c) && Inv(c, w) && Enabled(c, w, Do(n, act))
    ensures CountsAll(Next(c, w, Do(n, act)), n, Acted(c, w.senders[n], w.now, act))
  {
    assert SessionOk(c, w.senders[n]) && CountsAll(w, n, w.senders[n]);
    hide SessionOk;
  }

  lemma ActInv(c: Leads, w: World, n: NodeId, act: Act)
    requires Sound(c) && Inv(c, w) && Enabled(c, w, Do(n, act))
    ensures Inv(c, Next(c, w, Do(n, act)))
  {
    var w' := Next(c, w, Do(n, act));
    ActSession(c, w.senders[n], w.now, act);
    ActCounts(c, w, n, act);
    hide SessionOk, Acted, CanAct;
    forall m | m in w'.senders
      ensures SessionOk(c, w'.senders[m]) && CountsAll(w', m, w'.senders[m])
    {
      if m != n {
        assert SessionOk(c, w.senders[m]) && CountsAll(w, m, w.senders[m]);
      }
    }
    if w.lastAck != 0 {
      var m :| (m, w.lastAck) in w.acks;
      assert (m, w'.lastAck) in w'.acks;
    }
  }

  lemma DeliverInv(c: Leads, w: World, n: NodeId, i: nat)
    requires Sound(c) && Inv(c, w)
    ensures Inv(c, Received(c, w, n, i))
  {
    var w' := Received(c, w, n, i);
    if i <= w.inst && w.inst >= w.lastAck + c.ackLead {
      assert (n, w'.lastAck) in w'.acks;
    } else if w.lastAck != 0 {
      var m :| (m, w.lastAck) in w.acks;
      assert (m, w'.lastAck) in w'.acks;
    }
    forall m | m in w'.senders
      ensures SessionOk(c, w'.senders[m]) && CountsAll(w', m, w'.senders[m])
    {
      assert SessionOk(c, w.senders[m]) && CountsAll(w, m, w.senders[m]);
    }
  }

  lemma StepInv(c: Leads, w: World, e: Event)
    requires Sound(c) && Inv(c, w) && Enabled(c, w, e)
    ensures Inv(c, Next(c, w, e))
  {
    match e
    case Do(n, act) => ActInv(c, w, n, act);
    case Deliver(n, i) => DeliverInv(c, w, n, i);
    case _ =>
      var w' := Next(c, w, e);
      forall m | m in w'.senders
        ensures SessionOk(c, w'.senders[m]) && CountsAll(w', m, w'.senders[m])
      {
        assert SessionOk(c, w.senders[m]) && CountsAll(w, m, w.senders[m]);
      }
      if w.lastAck != 0 {
        var m :| (m, w.lastAck) in w.acks;
        assert (m, w'.lastAck) in w'.acks;
      }
  }

  lemma {:induction false} RunInv(c: Leads, r: seq<World>, k: nat)
    requires Sound(c) && Run(c, r) && k < |r|
    ensures Inv(c, r[k])
  {
    hide Inv, Next, Enabled, Sound;
    if k == 0 {
      InitInv(c, r[0]);
    } else {
      RunInv(c, r, k - 1);
      var e := StepOf(c, r, k - 1);
      StepInv(c, r[k - 1], e);
    }
  }

  lemma InitInv(c: Leads, w: World)
    requires Sound(c) && Init(c, w)
    ensures Inv(c, w)
  {
  }

  lemma SenderAt(c: Leads, r: seq<World>, k: nat, n: NodeId)
    requires Sound(c) && Run(c, r) && k < |r| && n in r[k].senders
    ensures Inv(c, r[k]) && SessionOk(c, r[k].senders[n]) && CountsAll(r[k], n, r[k].senders[n])
  {
    RunInv(c, r, k);
  }

  // ---------------------------------------------------------------- the window, and waiting

  /** Never more than one value beyond the window; and the window never shrinks to the ack interval. */
  lemma WindowKept(c: Leads, r: seq<World>, k: nat, n: NodeId)
    requires Sound(c) && Run(c, r) && k < |r| && n in r[k].senders
    ensures var s := r[k].senders[n];
      && c.ackLead < s.lead <= c.sendLead
      && (Streams(s) && s.next > s.begin ==> s.next - 1 <= s.ack + s.lead + 1)
  {
    SenderAt(c, r, k, n);
  }

  /** An acknowledgement not older than the window of the last value `s` has sent. */
  predicate InWindow(s: Sender, a: nat) {
    s.next - 1 <= a + s.lead
  }

  /**
   * A sender about to check its last value waits if and only if that value is beyond the
   * first window of the session and no acknowledgement within its window has arrived
   * while the session would count it.
   */
  lemma WaitsExactly(c: Leads, r: seq<World>, k: nat, n: NodeId)
    requires Sound(c) && Run(c, r) && k < |r| && n in r[k].senders
    requires Streams(r[k].senders[n]) && !r[k].senders[n].checked
    ensures var s := r[k].senders[n];
      Waits(s) <==> !InWindow(s, s.begin) && forall a :: a in s.counted ==> !InWindow(s, a)
  {
    SenderAt(c, r, k, n);
  }

  /** Every acknowledgement sent to `n` has arrived, in time or not. */
  ghost predicate AcksArrived(w: World, n: NodeId) {
    forall a :: (n, a) in w.acks ==> (n, a) in w.arrived
  }

  /** The receiver has processed a value as late as the last one `s` has sent. */
  predicate LastHeard(w: World, s: Sender) {
    w.heard.Some? && w.heard.value >= s.next - 1
  }

  /**
   * With all messages in, the receiver's last acknowledgement is within the window of the
   * last value.  So a sender that still waits has lost it, in one of three ways: it went
   * to another sender; it was sent before the session was confirmed; or some
   * acknowledgement came later than the prepare timeout after the last send.
   */
  lemma WaitsForOneOfThree(c: Leads, r: seq<World>, k: nat, n: NodeId)
    requires Sound(c) && Run(c, r) && k < |r| && n in r[k].senders && Waits(r[k].senders[n])
    requires AcksArrived(r[k], n) && LastHeard(r[k], r[k].senders[n])
    ensures var w, s := r[k], r[k].senders[n];
      && InWindow(s, w.lastAck)
      && (!s.clean || s.late || ((n, w.lastAck) !in w.acks && exists m :: m != n && (m, w.lastAck) in w.acks))
  {
    SenderAt(c, r, k, n);
    var w := r[k];
    if w.lastAck != 0 {
      var m :| (m, w.lastAck) in w.acks;
    }
  }

  /**
   * A sender that is the only one acknowledged, whose receiver had acknowledged nothing
   * beyond the session's beginning when it was confirmed, and that gets no acknowledgement
   * too late, never waits once all messages are in.
   */
  lemma NeverWaitsAlone(c: Leads, r: seq<World>, k: nat, n: NodeId)
    requires Sound(c) && Run(c, r) && k < |r| && n in r[k].senders
    requires AcksArrived(r[k], n) && LastHeard(r[k], r[k].senders[n])
    requires forall x :: x in r[k].acks ==> x.0 == n
    requires r[k].senders[n].clean && !r[k].senders[n].late
    ensures !Waits(r[k].senders[n])
  {
    if Waits(r[k].senders[n]) {
      WaitsForOneOfThree(c, r, k, n);
    }
  }

  predicate SameSend(s: Sender, u: Sender) {
    u.next == s.next && u.ack == s.ack && u.lead == s.lead && u.lastSend == s.lastSend && u.lastAckTime == s.lastAckTime
  }

  /** `n` waits in the session `s`, and the prepare timeout has passed since its last send. */
  predicate Deaf(c: Leads, w: World, n: NodeId, s: Sender) {
    && n in w.senders && SameSend(s, w.senders[n])
    && Waits(w.senders[n]) && !Busy(c, w.senders[n], w.now)
  }

  /** A deaf sender waits, with the same acknowledgement, until the acknowledgement timeout. */
  lemma {:induction false} DeafUntilTimeout(c: Leads, r: seq<World>, k: nat, k': nat, n: NodeId)
    requires Run(c, r) && k <= k' < |r| && n in r[k].senders && Deaf(c, r[k], n, r[k].senders[n])
    requires Since(r[k].senders[n].lastAckTime, r[k'].now) < c.ackTimeout
    ensures Deaf(c, r[k'], n, r[k].senders[n])
    decreases k'
  {
    hide Run, Deaf;
    if k < k' {
      var e := StepOf(c, r, k' - 1);
      TimeGoesOn(c, r[k' - 1], e);
      hide Next, Enabled;
      DeafUntilTimeout(c, r, k, k' - 1, n);
      DeafStep(c, r[k' - 1], e, n, r[k].senders[n]);
    }
  }

  lemma DeafStep(c: Leads, w: World, e: Event, n: NodeId, s: Sender)
    requires Enabled(c, w, e) && Deaf(c, w, n, s) && Since(s.lastAckTime, Next(c, w, e).now) < c.ackTimeout
    ensures Deaf(c, Next(c, w, e), n, s)
  {
    if e.Do? && e.n == n {
      DeafAct(c, w.senders[n], w.now, e.act);
    }
  }

  lemma DeafAct(c: Leads, s: Sender, now: nat, act: Act)
    requires Waits(s) && !Busy(c, s, now) && Since(s.lastAckTime, now) < c.ackTimeout && CanAct(c, s, now, act)
    ensures var u := Acted(c, s, now, act);
      Waits(u) && !Busy(c, u, now) && SameSend(s, u)
  {
  }

  lemma StepOf(c: Leads, r: seq<World>, k: nat) returns (e: Event)
    requires Run(c, r) && k < |r| - 1
    ensures Enabled(c, r[k], e) && r[k + 1] == Next(c, r[k], e)
  {
    hide Enabled, Next, Init;
    assert Step(c, r[k], r[k + 1]);
    e :| Enabled(c, r[k], e) && r[k + 1] == Next(c, r[k], e);
  }

  lemma TimeGoesOn(c: Leads, w: World, e: Event)
    requires Enabled(c, w, e)
    ensures w.now <= Next(c, w, e).now
  {
  }

  // ---------------------------------------------------------------- runs

  ghost predicate Reaches(c: Leads, w: World) {
    exists r :: Run(c, r) && r[|r| - 1] == w
  }

  lemma Begin(c: Leads, nodes: set<NodeId>) returns (w: World)
    ensures Reaches(c, w) && w.senders == (map n | n in nodes :: Idle(c.sendLead))
    ensures w == World(0, w.senders, {}, {}, {}, 0, 0, None)
  {
    w := World(0, map n | n in nodes :: Idle(c.sendLead), {}, {}, {}, 0, 0, None);
    assert Run(c, [w]);
  }

  lemma Extend(c: Leads, w: World, e: Event) returns (w': World)
    requires Reaches(c, w) && Enabled(c, w, e)
    ensures Reaches(c, w') && w' == Next(c, w, e)
  {
    w' := Next(c, w, e);
    var r :| Run(c, r) && r[|r| - 1] == w;
    var r' := r + [w'];
    forall k | 0 <= k < |r'| - 1
      ensures Step(c, r'[k], r'[k + 1])
    {
      if k < |r| - 1 {
        assert r'[k] == r[k] && r'[k + 1] == r[k + 1];
      } else {
        assert Enabled(c, r'[k], e) && r'[k + 1] == Next(c, r'[k], e);
      }
    }
    assert Run(c, r') && r'[|r'| - 1] == w';
  }

  /** A session of `n` that begins at 0, offered and confirmed at once. */
  lemma Opened(c: Leads, w: World, n: NodeId) returns (w': World)
    requires Sound(c) && Reaches(c, w) && n in w.senders && w.senders[n] == Idle(c.sendLead)
    ensures Reaches(c, w')
    ensures w' == w.(senders := w.senders[n :=
      Sender(true, true, 0, 0, true, false, 0, c.sendLead, w.now, w.now, {}, w.lastAck == 0, false)])
  {
    var v := Extend(c, w, Do(n, Offer(0)));
    w' := Extend(c, v, Do(n, Confirm(w.lastAck == 0)));
  }

  /** Within the first window the values go out one after the other. */
  lemma {:induction false} Streamed(c: Leads, w: World, n: NodeId, k: nat) returns (w': World)
    requires Sound(c) && Reaches(c, w) && n in w.senders && k <= c.sendLead + 1
    requires var s := w.senders[n];
      && Streams(s) && s.begin == 0 && s.next == 0 && s.checked && !s.waited
      && s.ack == 0 && s.lead == c.sendLead && s.lastSend == w.now
    ensures Reaches(c, w') && n in w'.senders
    ensures w' == w.(senders := w.senders[n := w.senders[n].(next := k)], sent := w'.sent)
    ensures forall x :: x in w'.sent <==> x in w.sent || (x.0 == n && x.1 < k)
  {
    if k == 0 {
      w' := w;
      assert w.senders[n := w.senders[n]] == w.senders;
    } else {
      var v := Streamed(c, w, n, k - 1);
      hide Reaches;
      var u := Extend(c, v, Do(n, SendOne));
      w' := Extend(c, u, Do(n, Pass));
      assert w.senders[n := v.senders[n]][n := u.senders[n]][n := w'.senders[n]] == w.senders[n := w'.senders[n]];
    }
  }

  lemma {:induction false} LearnedElsewhere(c: Leads, w: World, k: nat) returns (w': World)
    requires Reaches(c, w)
    ensures Reaches(c, w') && w' == w.(inst := w.inst + k)
  {
    if k == 0 {
      w' := w;
    } else {
      var v := LearnedElsewhere(c, w, k - 1);
      w' := Extend(c, v, LearnElsewhere);
    }
  }

  /** Values the receiver has left behind are delivered, down from `k`; it acknowledges nothing more. */
  lemma {:induction false} DeliveredStale(c: Leads, w: World, n: NodeId, k: nat) returns (w': World)
    requires Reaches(c, w) && k < w.inst < w.lastAck + c.ackLead
    requires forall i: nat :: i <= k ==> (n, i) in w.sent
    ensures Reaches(c, w') && w' == w.(heard := w'.heard) && w'.heard.Some? && w'.heard.value >= k
    ensures w.heard.Some? ==> w'.heard.value >= w.heard.value
    decreases k
  {
    w' := Extend(c, w, Deliver(n, k));
    if k > 0 {
      w' := DeliveredStale(c, w', n, k - 1);
    }
  }

  // ---------------------------------------------------------------- one sender that starves

  /** What it means that nothing more can help: all values processed, all acknowledgements in. */
  ghost predicate AllIn(w: World, n: NodeId) {
    && AcksArrived(w, n) && n in w.senders && LastHeard(w, w.senders[n])
    && forall x :: x in w.sent ==> x.1 < w.inst
  }

  /**
   * The only sender there is, after an earlier session whose late value made the receiver
   * acknowledge before the new session was confirmed: that acknowledgement is dropped, no
   * new one is due, and the sender waits although every message has arrived.
   */
  lemma EarlierSessionStarves(c: Leads, n: NodeId) returns (w: World)
    requires Sound(c)
    ensures Reaches(c, w) && w.senders.Keys == {n} && AllIn(w, n)
    ensures (forall x :: x in w.acks ==> x.0 == n) && Waits(w.senders[n]) && !w.senders[n].late
  {
    hide Reaches;
    w := Begin(c, {n});
    w := Opened(c, w, n);
    w := Streamed(c, w, n, 1);
    w := Extend(c, w, Do(n, Finish));
    w := LearnedElsewhere(c, w, c.sendLead + 2);
    w := Extend(c, w, Deliver(n, 0));
    w := Extend(c, w, Do(n, Arrive(c.sendLead + 2)));
    w := Opened(c, w, n);
    w := Streamed(c, w, n, c.sendLead + 1);
    w := Extend(c, w, Do(n, SendOne));
    w := DeliveredStale(c, w, n, c.sendLead + 1);
  }

  /**
   * The only sender there is, in its first session: the acknowledgement comes later than
   * the prepare timeout after the last send, is not counted, and the sender waits on, for
   * the rest of the acknowledgement timeout.
   */
  lemma LateAcknowledgementStarves(c: Leads, n: NodeId) returns (w: World)
    requires Sound(c)
    ensures Reaches(c, w) && w.senders.Keys == {n} && AllIn(w, n)
    ensures (forall x :: x in w.acks ==> x.0 == n) && Waits(w.senders[n]) && w.senders[n].clean
    ensures w.now == c.prepareTimeout && w.senders[n].lastAckTime == 0 && Deaf(c, w, n, w.senders[n])
  {
    hide Reaches;
    w := Begin(c, {n});
    w := Opened(c, w, n);
    w := Streamed(c, w, n, c.sendLead + 1);
    w := Extend(c, w, Do(n, SendOne));
    w := LearnedElsewhere(c, w, c.sendLead + 2);
    w := Extend(c, w, Deliver(n, c.sendLead + 1));
    w := DeliveredStale(c, w, n, c.sendLead + 1);
    w := Extend(c, w, Tick(c.prepareTimeout));
    w := Extend(c, w, Do(n, Arrive(c.sendLead + 2)));
  }

  // ---------------------------------------------------------------- two senders: one starves

  function Streaming(k: nat, ack: nat, counted: set<nat>, lead: nat): Sender {
    Sender(true, true, 0, k, true, false, ack, lead, 0, 0, counted, true, false)
  }

  /** Both senders have sent `k` values, alternately delivered; all acknowledgements went to `b`. */
  ghost predicate Alternated(c: Leads, w: World, a: NodeId, b: NodeId, k: nat) {
    && a in w.senders && b in w.senders && a != b && w.now == 0
    && w.senders[a] == Streaming(k, 0, {}, c.sendLead)
    && w.senders[b] == Streaming(k, w.lastAck, w.senders[b].counted, c.sendLead)
    && w.inst == k && w.lastAck <= k < w.lastAck + c.ackLead
    && (forall x :: x in w.acks ==> x.0 == b) && w.arrived == w.acks
    && (forall x :: x in w.sent ==> x.1 < k)
    && (w.heard.Some? ==> w.heard.value < k)
  }

  lemma AlternateStart(c: Leads, a: NodeId, b: NodeId) returns (w: World)
    requires Sound(c) && a != b
    ensures Reaches(c, w) && Alternated(c, w, a, b, 0)
  {
    hide Reaches;
    w := Begin(c, {a, b});
    w := Opened(c, w, a);
    w := Opened(c, w, b);
  }

  /** Both send their next value and it is delivered, that of `a` first. */
  lemma AlternateSend(c: Leads, w: World, a: NodeId, b: NodeId, k: nat) returns (w': World)
    requires Sound(c) && Reaches(c, w) && Alternated(c, w, a, b, k)
    ensures Reaches(c, w') && w'.senders.Keys == w.senders.Keys && w'.now == 0 && w'.arrived == w.arrived
    ensures w'.senders[a] == w.senders[a].(next := k + 1, checked := false)
    ensures w'.senders[b] == w.senders[b].(next := k + 1, checked := false)
    ensures w'.inst == k + 1 && w'.heard == Some(k) && (forall x :: x in w'.sent ==> x.1 <= k)
    ensures if k + 1 < w.lastAck + c.ackLead then w'.lastAck == w.lastAck && w'.acks == w.acks
            else w'.lastAck == k + 1 && w'.acks == w.acks + {(b, k + 1)}
  {
    hide Reaches;
    var w1 := Extend(c, w, Do(a, SendOne));
    var w2 := Extend(c, w1, Do(b, SendOne));
    assert w2.lastAck == w.lastAck && w2.inst == k && w2.acks == w.acks;
    assert (a, k) in w2.sent && (b, k) in w2.sent;
    var w3 := Extend(c, w2, Deliver(a, k));
    w' := Extend(c, w3, Deliver(b, k));
  }

  /** `b` counts its acknowledgement, if there is one, and the checks pass. */
  lemma AlternateRound(c: Leads, w: World, a: NodeId, b: NodeId, k: nat) returns (w': World)
    requires Sound(c) && Reaches(c, w) && Alternated(c, w, a, b, k) && k <= c.sendLead
    ensures Reaches(c, w') && Alternated(c, w', a, b, k + 1)
  {
    hide Reaches;
    w' := AlternateSend(c, w, a, b, k);
    w' := Extend(c, w', Do(a, Pass));
    w' := Extend(c, w', Do(b, Pass));
    if w'.lastAck == k + 1 {
      w' := Extend(c, w', Do(b, Arrive(k + 1)));
    }
  }

  lemma {:induction false} AlternateRounds(c: Leads, a: NodeId, b: NodeId, k: nat) returns (w: World)
    requires Sound(c) && a != b && k <= c.sendLead + 1
    ensures Reaches(c, w) && Alternated(c, w, a, b, k)
  {
    if k == 0 {
      w := AlternateStart(c, a, b);
    } else {
      var v := AlternateRounds(c, a, b, k - 1);
      w := AlternateRound(c, v, a, b, k - 1);
    }
  }

  /**
   * Two senders that stream the same instances to one receiver: every value and every
   * acknowledgement arrives in time, and still the first one waits, because the
   * receiver's one record of its last acknowledgement serves both.
   */
  lemma SecondSenderStarves(c: Leads, a: NodeId, b: NodeId) returns (w: World)
    requires Sound(c) && a != b
    ensures Reaches(c, w) && AllIn(w, a) && AllIn(w, b)
    ensures Waits(w.senders[a]) && w.senders[a].clean && !w.senders[a].late && !Waits(w.senders[b])
  {
    var k := c.sendLead + 1;
    var v := AlternateRounds(c, a, b, k);
    w := AlternateSend(c, v, a, b, k);
    hide Reaches;
    if w.lastAck == k + 1 {
      w := Extend(c, w, Do(b, Arrive(k + 1)));
    }
  }

  // ---------------------------------------------------------------- a session inside the world

  /**
   * What a confirmed sender does by itself, with acknowledgements it was sent, is a stretch
   * of a run, in which time passes between the acts.
   */
  lemma {:induction false} SessionIsRun(c: Leads, w: World, n: NodeId, es: seq<Timed>) returns (w': World)
    requires Reaches(c, w) && n in w.senders && ActAll(c, w.senders[n], w.now, es).Some?
    requires forall e :: e in es ==> !e.act.Offer? && !e.act.Confirm?
    requires forall e :: e in es && e.act.Arrive? ==> (n, e.act.a) in w.acks
    ensures Reaches(c, w') && w'.acks == w.acks && n in w'.senders && w'.now == Latest(w.now, es)
    ensures Some(w'.senders[n]) == ActAll(c, w.senders[n], w.now, es)
    ensures forall m :: m in w.senders && m != n ==> m in w'.senders && w'.senders[m] == w.senders[m]
    decreases |es|
  {
    if es == [] {
      w' := w;
    } else {
      var last := es[|es| - 1];
      var v := SessionIsRun(c, w, n, es[..|es| - 1]);
      assert last in es;
      hide Reaches, CanAct, Acted;
      var u := Extend(c, v, Tick(last.at - v.now));
      w' := Extend(c, u, Do(n, last.act));
    }
  }

  lemma TookOne(c: Leads, s: Sender, from: nat, es: seq<Timed>, u: Sender, at: nat, act: Act)
    requires Took(c, s, from, es, u, at) && CanAct(c, u, at, act)
    ensures Took(c, s, from, es + [Timed(at, act)], Acted(c, u, at, act), at)
  {
    assert (es + [Timed(at, act)])[..|es|] == es;
  }

  lemma {:induction false} TookMore(c: Leads, s: Sender, from: nat, es: seq<Timed>, u: Sender, at: nat,
                                    more: seq<Timed>, v: Sender, until: nat)
    requires Took(c, s, from, es, u, at) && Took(c, u, at, more, v, until)
    ensures Took(c, s, from, es + more, v, until)
    decreases |more|
  {
    hide CanAct, Acted;
    if more == [] {
      assert es + more == es;
    } else {
      var n := |more| - 1;
      var e := more[n];
      var t := ActAll(c, u, at, more[..n]).value;
      TookMore(c, s, from, es, u, at, more[..n], t, e.at);
      TookOne(c, s, from, es + more[..n], t, e.at, e.act);
      assert es + more == es + more[..n] + [Timed(e.at, e.act)];
    }
  }

  // ---------------------------------------------------------------- giving up, and the window after it

  /** An offer can be confirmed until the prepare timeout, and from then on, if it was not, replaced. */
  lemma OfferStands(c: Leads, s: Sender, t: nat, b: nat, u: nat, b': nat, clean: bool)
    requires CanAct(c, s, t, Offer(b)) && t <= u
    ensures var o := Acted(c, s, t, Offer(b));
      && (CanAct(c, o, u, Confirm(clean)) <==> u < t + c.prepareTimeout)
      && (CanAct(c, o, u, Offer(b')) <==> u >= t + c.prepareTimeout)
      && !CanAct(c, Acted(c, o, u, Confirm(clean)), u, Offer(b'))
  {
  }

  function Timeouts(es: seq<Timed>): nat {
    if es == [] then 0
    else Timeouts(es[..|es| - 1]) + if es[|es| - 1].act.AckTimeout? then 1 else 0
  }

  function CutTimes(c: Leads, lead: nat, j: nat): nat {
    if j == 0 then lead else CutLead(c, CutTimes(c, lead, j - 1))
  }

  /**
   * Each timeout takes exactly the acknowledgement interval off the window while more
   * than two intervals are left; after that it stays where it is.
   */
  lemma {:induction false} CutsNarrow(c: Leads, lead: nat, j: nat)
    requires Sound(c) && lead > c.ackLead
    ensures var w := CutTimes(c, lead, j);
      && c.ackLead < w <= lead
      && (w == lead - c.ackLead * j || w <= 2 * c.ackLead)
      && exists m: nat :: m <= j && w == lead - c.ackLead * m
  {
    if j == 0 {
      assert CutTimes(c, lead, j) == lead - c.ackLead * 0;
    } else {
      CutsNarrow(c, lead, j - 1);
      var w := CutTimes(c, lead, j - 1);
      var m: nat :| m <= j - 1 && w == lead - c.ackLead * m;
      assert c.ackLead * j == c.ackLead * (j - 1) + c.ackLead && c.ackLead * (m + 1) == c.ackLead * m + c.ackLead;
      assert CutTimes(c, lead, j) == lead - c.ackLead * (m + 1) || CutTimes(c, lead, j) == lead - c.ackLead * m;
    }
  }

  /** In the two settings in use: four timeouts and one bring the window down to where it stays. */
  lemma NarrowestWindows(j: nat)
    ensures CutTimes(NORMAL, NORMAL.sendLead, 4 + j) == 5
    ensures CutTimes(LARGE_BUFFERS, LARGE_BUFFERS.sendLead, 1 + j) == 3
  {
    if j == 0 {
      assert CutTimes(NORMAL, 21, 1) == 17 && CutTimes(NORMAL, 21, 2) == 13 && CutTimes(NORMAL, 21, 3) == 9;
    } else {
      NarrowestWindows(j - 1);
    }
  }

  lemma LastAct(c: Leads, s: Sender, from: nat, es: seq<Timed>)
    requires es != [] && ActAll(c, s, from, es).Some?
    ensures var e, before := es[|es| - 1], es[..|es| - 1];
      var u := ActAll(c, s, from, before);
      && u.Some? && Latest(from, before) <= e.at && ActAll(c, s, from, es) == Some(Acted(c, u.value, e.at, e.act))
  {
  }

  lemma LeadAct(c: Leads, s: Sender, now: nat, act: Act)
    ensures var u := Acted(c, s, now, act);
      u.lead == if act.AckTimeout? then CutLead(c, s.lead) else if act.CaughtUp? || act.Finish? then c.sendLead else s.lead
  {
  }

  /** Over any sessions: the window is cut once per timeout, and wide again after a session that ended well. */
  lemma {:induction false} LeadFollows(c: Leads, s: Sender, from: nat, es: seq<Timed>, u: Sender)
    requires ActAll(c, s, from, es) == Some(u)
    ensures (forall e :: e in es ==> !e.act.CaughtUp? && !e.act.Finish?) ==> u.lead == CutTimes(c, s.lead, Timeouts(es))
    ensures es != [] && (es[|es| - 1].act.CaughtUp? || es[|es| - 1].act.Finish?) ==> u.lead == c.sendLead
    decreases |es|
  {
    if es != [] {
      hide ActAll, Acted, CutLead;
      var before := es[..|es| - 1];
      var e := es[|es| - 1];
      LastAct(c, s, from, es);
      var v := ActAll(c, s, from, before).value;
      LeadFollows(c, s, from, before, v);
      LeadAct(c, v, e.at, e.act);
      assert forall x :: x in before ==> x in es;
      assert e in es;
    }
  }

  /** The `j`-th act is an acknowledgement that moves the sender's own on. */
  predicate MovesOn(c: Leads, s: Sender, from: nat, es: seq<Timed>, j: nat) {
    && j < |es| && es[j].act.Arrive?
    && var u := ActAll(c, s, from, es[..j]);
       u.Some? && Busy(c, u.value, es[j].at) && u.value.confirmed && es[j].act.a > u.value.ack
  }

  lemma KeepsHeard(c: Leads, s: Sender, now: nat, act: Act, t: nat)
    requires !act.Offer? && t <= now && (s.active ==> s.lastAckTime >= t)
    ensures var u := Acted(c, s, now, act); u.active ==> u.lastAckTime >= t
  {
  }

  lemma CountsNow(c: Leads, s: Sender, now: nat, act: Act)
    requires act.Arrive? && Busy(c, s, now) && s.confirmed && act.a > s.ack
    ensures Acted(c, s, now, act).lastAckTime == now
  {
  }

  lemma {:induction false} HeardSince(c: Leads, s: Sender, from: nat, es: seq<Timed>, u: Sender, j: nat)
    requires ActAll(c, s, from, es) == Some(u) && MovesOn(c, s, from, es, j)
    requires forall k :: j < k < |es| ==> !es[k].act.Offer?
    ensures es[j].at <= Latest(from, es) && (u.active ==> u.lastAckTime >= es[j].at)
    decreases |es|
  {
    hide ActAll, Acted, Busy;
    var before := es[..|es| - 1];
    var e := es[|es| - 1];
    LastAct(c, s, from, es);
    var v := ActAll(c, s, from, before).value;
    if j < |es| - 1 {
      assert before[..j] == es[..j];
      HeardSince(c, s, from, before, v, j);
      KeepsHeard(c, v, e.at, e.act, es[j].at);
    } else {
      CountsNow(c, v, e.at, e.act);
    }
  }

  /** A sender gives up only after hearing nothing new for the whole acknowledgement timeout. */
  lemma GivesUpAfterSilence(c: Leads, s: Sender, from: nat, es: seq<Timed>, j: nat)
    requires ActAll(c, s, from, es).Some? && es != [] && es[|es| - 1].act.AckTimeout? && j < |es| - 1
    requires MovesOn(c, s, from, es, j) && forall k :: j < k < |es| ==> !es[k].act.Offer?
    ensures es[|es| - 1].at >= es[j].at + c.ackTimeout
  {
    var before := es[..|es| - 1];
    assert before[..j] == es[..j];
    HeardSince(c, s, from, before, ActAll(c, s, from, before).value, j);
  }

  // ---------------------------------------------------------------- the sender object

  const NO_INSTANCE := 0xFFFF_FFFF_FFFF_FFFF
  const NULL_NODE := 0

  /**
   * One turn of the sending thread: the time it has come to, the acknowledgements with the
   * times they came in since the turn before, and the own instance id it reads.
   */
  datatype Turn = Turn(now: nat, came: seq<(nat, nat)>, mine: nat)

  predicate InOrder(from: nat, came: seq<(nat, nat)>, until: nat) {
    && from <= until && (forall k :: 0 <= k < |came| ==> from <= came[k].0 <= until)
    && forall j, k :: 0 <= j < k < |came| ==> came[j].0 <= came[k].0
  }

  /** Time goes on, without end, and instance ids are 64 bits wide. */
  ghost predicate Clocked(turns: nat -> Turn) {
    && (forall t: nat :: t <= turns(t).now && turns(t).mine <= NO_INSTANCE)
    && forall t: nat :: InOrder(turns(t).now, turns(t + 1).came, turns(t + 1).now)
  }

  lemma MineBounded(turns: nat -> Turn, t: nat)
    requires Clocked(turns)
    ensures turns(t).mine <= NO_INSTANCE
  {
  }

  lemma ClockAhead(turns: nat -> Turn, t: nat)
    requires Clocked(turns)
    ensures t <= turns(t).now
  {
  }

  /** How many values these acts send. */
  function Sends(es: seq<Timed>): nat {
    if es == [] then 0
    else Sends(es[..|es| - 1]) + if es[|es| - 1].act.SendOne? then 1 else 0
  }

  lemma SendsOne(es: seq<Timed>, e: Timed)
    ensures Sends(es + [e]) == Sends(es) + if e.act.SendOne? then 1 else 0
  {
    assert (es + [e])[..|es|] == es;
  }

  lemma {:induction false} SendsMore(es: seq<Timed>, more: seq<Timed>)
    ensures Sends(es + more) == Sends(es) + Sends(more)
    decreases |more|
  {
    if more == [] {
      assert es + more == es;
    } else {
      SendsMore(es, more[..|more| - 1]);
      SendsOne(es + more[..|more| - 1], more[|more| - 1]);
      assert es + more == es + more[..|more| - 1] + [more[|more| - 1]];
    }
  }

  lemma {:induction false} NoSends(es: seq<Timed>)
    requires forall e :: e in es ==> !e.act.SendOne?
    ensures Sends(es) == 0
  {
    if es != [] {
      NoSends(es[..|es| - 1]);
    }
  }

  /** Acts of the session, with the acknowledgements that came in and no others. */
  ghost predicate Hears(es: seq<Timed>, turns: nat -> Turn) {
    forall e :: e in es ==> !e.act.Offer? && !e.act.Confirm? && (e.act.Arrive? ==> Came(turns, e.at, e.act.a))
  }

  /** Between `from` and `until` the session has gone from `s` to `u` and sent `k` values. */
  ghost predicate Did(c: Leads, s: Sender, from: nat, es: seq<Timed>, u: Sender, until: nat, turns: nat -> Turn, k: nat) {
    Took(c, s, from, es, u, until) && Hears(es, turns) && Sends(es) == k
  }

  lemma DidNothing(c: Leads, s: Sender, from: nat, turns: nat -> Turn)
    ensures Did(c, s, from, [], s, from, turns, 0)
  {
  }

  lemma DidOne(c: Leads, s: Sender, from: nat, es: seq<Timed>, u: Sender, at: nat, turns: nat -> Turn, k: nat, act: Act)
    requires Did(c, s, from, es, u, at, turns, k) && CanAct(c, u, at, act)
    requires !act.Offer? && !act.Confirm? && !act.Arrive?
    ensures Did(c, s, from, es + [Timed(at, act)], Acted(c, u, at, act), at, turns, k + if act.SendOne? then 1 else 0)
  {
    TookOne(c, s, from, es, u, at, act);
    SendsOne(es, Timed(at, act));
    hide Took, CanAct, Acted, Sends;
  }

  lemma DidMore(c: Leads, s: Sender, from: nat, es: seq<Timed>, u: Sender, at: nat, turns: nat -> Turn, k: nat,
                more: seq<Timed>, v: Sender, until: nat, j: nat)
    requires Did(c, s, from, es, u, at, turns, k) && Did(c, u, at, more, v, until, turns, j)
    ensures Did(c, s, from, es + more, v, until, turns, k + j)
  {
    TookMore(c, s, from, es, u, at, more, v, until);
    SendsMore(es, more);
    hide Took, Sends;
  }

  ghost predicate Came(turns: nat -> Turn, at: nat, a: nat) {
    exists t :: (at, a) in turns(t).came
  }

  /** Only acknowledgements have come in between. */
  predicate Arrived(s: Sender, u: Sender) {
    u == s.(ack := u.ack, lastAckTime := u.lastAckTime, counted := u.counted, late := u.late)
  }

  /** Values up to `i` have been sent and checked. */
  predicate Between(s: Sender, i: nat) {
    Streams(s) && s.checked && !s.waited && s.next == i
  }

  /** The last check has ended the session. */
  predicate GivenUp(es: seq<Timed>) {
    es != [] && (es[|es| - 1].act.CaughtUp? || es[|es| - 1].act.AckTimeout?)
  }

  /** Why a session ends after the values up to `next`. */
  predicate Ended(es: seq<Timed>, next: nat, readable: nat -> bool, mine: nat) {
    || GivenUp(es)
    || (es != [] && es[|es| - 1].act.Finish? && next >= mine)
    || (es != [] && es[|es| - 1].act.Fail? && next < mine && !readable(next))
  }

  /** The same session, with as many values sent. */
  predicate SameValues(s: Sender, u: Sender) {
    Streams(u) && u.begin == s.begin && u.next == s.next && u.lead == s.lead
  }

  class LearnerSender {
    const leads: Leads
    var active: bool
    var confirmed: bool
    var begin: nat
    var to: NodeId
    var ack: nat
    var lastSend: nat
    var lastAckTime: nat
    var lead: nat
    /** The session as the flow sees it. */
    ghost var session: Sender

    /** The fields are those of the session, while there is one. */
    ghost predicate Tied()
      reads this
    {
      && lead == session.lead
      && (if session.active then
            && active && confirmed == session.confirmed && begin == session.begin && ack == session.ack
            && lastSend == session.lastSend && lastAckTime == session.lastAckTime
          else session == Idle(lead))
    }

    ghost predicate Valid()
      reads this
    {
      Tied() && active == session.active && (!active ==> !confirmed)
    }

    constructor (leads: Leads)
      ensures Valid() && this.leads == leads && session == Idle(leads.sendLead)
    {
      this.leads, lead := leads, leads.sendLead;
      active, confirmed, begin, to, ack, lastSend, lastAckTime := false, false, NO_INSTANCE, NULL_NODE, 0, 0, 0;
      session := Idle(leads.sendLead);
    }

    function IsIMSending(now: nat): (r: bool)
      requires Valid()
      reads this
      ensures r == Busy(leads, session, now)
    {
      active && (if now > lastSend then now - lastSend else 0) < leads.prepareTimeout
    }

    /** One node at a time is served; an unconfirmed offer lapses. */
    method Prepare(b: nat, n: NodeId, now: nat) returns (ok: bool)
      requires Valid()
      modifies this
      ensures Valid() && ok == CanAct(leads, old(session), now, Offer(b))
      ensures session == (if ok then Acted(leads, old(session), now, Offer(b)) else old(session))
      ensures to == if ok then n else old(to)
    {
      ok := false;
      if !IsIMSending(now) && !confirmed {
        ok := true;
        session := Acted(leads, session, now, Offer(b));
        active, lastSend, lastAckTime := true, now, now;
        begin, ack := b, b;
        to := n;
      }
    }

    /** `clean`: the receiver has acknowledged nothing beyond `b` yet. */
    method Confirm(b: nat, n: NodeId, now: nat, ghost clean: bool) returns (ok: bool)
      requires Valid()
      modifies this
      ensures Valid() && ok == (CanAct(leads, old(session), now, Act.Confirm(clean)) && old(session.begin) == b && to == n)
      ensures session == (if ok then Acted(leads, old(session), now, Act.Confirm(clean)) else old(session)) && to == old(to)
    {
      ok := false;
      if IsIMSending(now) && !confirmed {
        if begin == b && to == n {
          ok := true;
          session := Acted(leads, session, now, Act.Confirm(clean));
          confirmed := true;
        }
      }
    }

    /** An acknowledgement of the node served arrives; any other node's changes nothing. */
    method Ack(a: nat, from: NodeId, now: nat)
      requires Valid()
      modifies this
      ensures Valid() && session == if from == old(to) then Acted(leads, old(session), now, Arrive(a)) else old(session)
      ensures to == old(to) && ack >= old(ack) && (ack == old(ack) ==> lastAckTime == old(lastAckTime))
    {
      if IsIMSending(now) && confirmed {
        if to == from {
          if a > ack {
            ack := a;
            lastAckTime := now;
          }
        }
      }
      if to == from {
        session := Acted(leads, session, now, Arrive(a));
      }
    }

    /** The acknowledgements that have come in since the last turn. */
    method Collect(from: nat, came: seq<(nat, nat)>, until: nat) returns (ghost es: seq<Timed>)
      requires Valid() && Streams(session) && InOrder(from, came, until)
      modifies this
      ensures Valid() && Took(leads, old(session), from, es, session, until)
      ensures Arrived(old(session), session)
      ensures forall e :: e in es ==> e.act.Arrive? && (e.at, e.act.a) in came
      ensures to == old(to) && ack >= old(ack) && (ack == old(ack) ==> lastAckTime == old(lastAckTime))
    {
      es := [];
      for k := 0 to |came|
        invariant Valid() && Streams(session) && to == old(to)
        invariant Took(leads, old(session), from, es, session, if k < |came| then came[k].0 else until)
        invariant Arrived(old(session), session)
        invariant forall e :: e in es ==> e.act.Arrive? && (e.at, e.act.a) in came
        invariant ack >= old(ack) && (ack == old(ack) ==> lastAckTime == old(lastAckTime))
      {
        hide ActAll;
        TookOne(leads, old(session), from, es, session, came[k].0, Arrive(came[k].1));
        Ack(came[k].1, to, came[k].0);
        assert (came[k].0, came[k].1) == came[k];
        es := es + [Timed(came[k].0, Arrive(came[k].1))];
      }
    }

    method CutAckLead()
      modifies this`lead
      ensures lead == CutLead(leads, old(lead))
    {
      if lead - leads.ackLead > leads.ackLead {
        lead := lead - leads.ackLead;
      }
    }

    /** The acknowledgements up to the next turn. */
    method NextTurn(turns: nat -> Turn, t: nat) returns (ghost es: seq<Timed>)
      requires Valid() && Streams(session) && Clocked(turns)
      modifies this
      ensures Valid() && Did(leads, old(session), turns(t).now, es, session, turns(t + 1).now, turns, 0)
      ensures Arrived(old(session), session)
      ensures to == old(to) && ack >= old(ack) && (ack == old(ack) ==> lastAckTime == old(lastAckTime))
    {
      assert InOrder(turns(t).now, turns(t + 1).came, turns(t + 1).now);
      hide ActAll, Took;
      es := Collect(turns(t).now, turns(t + 1).came, turns(t + 1).now);
      NoSends(es);
    }

    /** The receiver is ahead: the window is as wide as at first again. */
    method CatchUp(turns: nat -> Turn, t: nat) returns (ghost es: seq<Timed>)
      requires Valid() && CanAct(leads, session, turns(t).now, CaughtUp)
      modifies this
      ensures Tied() && session == Idle(leads.sendLead) && to == old(to) && GivenUp(es)
      ensures Did(leads, old(session), turns(t).now, es, session, turns(t).now, turns, 0)
    {
      DidNothing(leads, session, turns(t).now, turns);
      hide Did;
      DidOne(leads, session, turns(t).now, [], session, turns(t).now, turns, 0, CaughtUp);
      es := [] + [Timed(turns(t).now, CaughtUp)];
      session := Idle(leads.sendLead);
      lead := leads.sendLead;
    }

    /** No acknowledgement for too long: the window is cut. */
    method GiveUp(turns: nat -> Turn, t: nat) returns (ghost es: seq<Timed>)
      requires Valid() && CanAct(leads, session, turns(t).now, AckTimeout)
      modifies this
      ensures Tied() && session == Idle(CutLead(leads, old(lead))) && to == old(to) && GivenUp(es)
      ensures Did(leads, old(session), turns(t).now, es, session, turns(t).now, turns, 0)
    {
      DidNothing(leads, session, turns(t).now, turns);
      hide Did;
      DidOne(leads, session, turns(t).now, [], session, turns(t).now, turns, 0, AckTimeout);
      es := [] + [Timed(turns(t).now, AckTimeout)];
      session := Idle(CutLead(leads, session.lead));
      CutAckLead();
    }

    /** The lock is given up until the next turn. */
    method WaitTurn(turns: nat -> Turn, t: nat) returns (ghost es: seq<Timed>)
      requires Valid() && Waits(session) && Clocked(turns)
      modifies this
      ensures Valid() && SameValues(old(session), session) && !session.checked && session.waited
      ensures Did(leads, old(session), turns(t).now, es, session, turns(t + 1).now, turns, 0)
      ensures to == old(to) && ack >= old(ack) && (ack == old(ack) ==> lastAckTime == old(lastAckTime))
    {
      ghost var from := turns(t).now;
      DidNothing(leads, session, from, turns);
      hide Did, Clocked;
      DidOne(leads, session, from, [], session, from, turns, 0, Wait);
      session := session.(waited := true);
      ghost var before := session;
      es := NextTurn(turns, t);
      DidMore(leads, old(session), from, [] + [Timed(from, Wait)], before, from, turns, 0, es, session, turns(t + 1).now, 0);
      es := [] + [Timed(from, Wait)] + es;
    }

    /**
     * Waits, turn after turn, while value `i` is beyond the window; acknowledgements come
     * in meanwhile.
     */
    method CheckAck(i: nat, turns: nat -> Turn, t0: nat) returns (pass: bool, t: nat, ghost es: seq<Timed>)
      requires Valid() && Streams(session) && !session.checked && !session.waited && session.next == i + 1
      requires Clocked(turns)
      modifies this
      ensures t0 <= t && to == old(to)
      ensures Did(leads, old(session), turns(t0).now, es, session, turns(t).now, turns, 0)
      ensures if pass
              then Valid() && CanAct(leads, session, turns(t).now, Pass) && SameValues(old(session), session)
              else Tied() && !session.active && GivenUp(es)
    {
      t, es := t0, [];
      DidNothing(leads, session, turns(t).now, turns);
      hide Did, Clocked, CutLead;
      if i < ack {
        es := CatchUp(turns, t);
        return false, t, es;
      }
      while i > ack + lead
        invariant Valid() && to == old(to) && t0 <= t && SameValues(old(session), session) && !session.checked
        invariant session.waited || ack <= i
        invariant Did(leads, old(session), turns(t0).now, es, session, turns(t).now, turns, 0)
        decreases i - ack, lastAckTime + leads.ackTimeout - t
      {
        if Since(lastAckTime, turns(t).now) >= leads.ackTimeout {
          ghost var before := session;
          ghost var more := GiveUp(turns, t);
          DidMore(leads, old(session), turns(t0).now, es, before, turns(t).now, turns, 0,
                  more, session, turns(t).now, 0);
          es := es + more;
          return false, t, es;
        }
        ClockAhead(turns, t);
        ghost var before := session;
        ghost var more := WaitTurn(turns, t);
        DidMore(leads, old(session), turns(t0).now, es, before, turns(t).now, turns, 0,
                more, session, turns(t + 1).now, 0);
        es := es + more;
        t := t + 1;
      }
      pass := true;
    }

    /** Value `i` goes out at turn `t0`, and its window is checked from the next turn on. */
    method SendAndCheck(i: nat, turns: nat -> Turn, t0: nat) returns (pass: bool, t: nat, ghost es: seq<Timed>)
      requires Valid() && Between(session, i) && Clocked(turns)
      modifies this
      ensures t0 < t && to == old(to)
      ensures Did(leads, old(session), turns(t0).now, es, session, turns(t).now, turns, 1)
      ensures if pass then Valid() && Between(session, i + 1) && session.begin == old(session.begin)
              else Tied() && !session.active && GivenUp(es)
    {
      hide Clocked;
      ghost var from := turns(t0).now;
      DidNothing(leads, session, from, turns);
      hide Did;
      DidOne(leads, session, from, [], session, from, turns, 0, SendOne);
      es := [] + [Timed(from, SendOne)];
      session := session.(next := session.next + 1, checked := false);
      ghost var before := session;
      ghost var more := NextTurn(turns, t0);
      DidMore(leads, old(session), from, es, before, from, turns, 1, more, session, turns(t0 + 1).now, 0);
      es := es + more;
      before := session;
      pass, t, more := CheckAck(i, turns, t0 + 1);
      DidMore(leads, old(session), from, es, before, turns(t0 + 1).now, turns, 1, more, session, turns(t).now, 0);
      es := es + more;
      if pass {
        DidOne(leads, old(session), from, es, session, turns(t).now, turns, 1, Pass);
        es := es + [Timed(turns(t).now, Pass)];
        session := session.(checked := true, waited := false, lastSend := turns(t).now);
        lastSend := turns(t).now;
      }
    }

    /**
     * Values in order from `b` up to the own instance of the moment, until one cannot be
     * read.  The call is one session of the flow, act by act.
     */
    method SendLearnedValue(b: nat, readable: nat -> bool, turns: nat -> Turn)
      returns (sent: seq<nat>, t: nat, ghost es: seq<Timed>)
      requires Valid() && Between(session, b) && session.begin == b && Clocked(turns)
      modifies this
      ensures Tied() && !session.active
      ensures Did(leads, old(session), turns(0).now, es, session, turns(t).now, turns, |sent|)
      ensures forall k :: 0 <= k < |sent| ==> sent[k] == b + k && readable(sent[k])
      ensures Ended(es, b + |sent|, readable, turns(t).mine)
    {
      sent, t, es := [], 0, [];
      var i := b;
      DidNothing(leads, session, turns(0).now, turns);
      hide Did, Clocked;
      while i < turns(t).mine
        invariant Valid() && Between(session, i) && session.begin == b && |sent| == i - b
        invariant Did(leads, old(session), turns(0).now, es, session, turns(t).now, turns, |sent|)
        invariant forall k :: 0 <= k < |sent| ==> sent[k] == b + k && readable(sent[k])
        decreases NO_INSTANCE - i
      {
        MineBounded(turns, t);
        if !readable(i) {
          DidOne(leads, old(session), turns(0).now, es, session, turns(t).now, turns, |sent|, Fail);
          es := es + [Timed(turns(t).now, Fail)];
          session := Idle(session.lead);
          return;
        }
        ghost var before, t0 := session, t;
        sent := sent + [i];
        var pass;
        ghost var more;
        pass, t, more := SendAndCheck(i, turns, t);
        DidMore(leads, old(session), turns(0).now, es, before, turns(t0).now, turns, |sent| - 1,
                more, session, turns(t).now, 1);
        es := es + more;
        if !pass {
          return;
        }
        i := i + 1;
      }
      DidOne(leads, old(session), turns(0).now, es, session, turns(t).now, turns, |sent|, Finish);
      es := es + [Timed(turns(t).now, Finish)];
      session := Idle(leads.sendLead);
      lead := leads.sendLead;
    }

    method SendDone()
      requires Tied() && !session.active
      modifies this
      ensures Valid() && session == old(session)
    {
      active, confirmed, begin, to, ack, lastSend, lastAckTime := false, false, NO_INSTANCE, NULL_NODE, 0, 0, 0;
    }

    /** A confirmed session from its beginning to its end. */
    method Serve(readable: nat -> bool, turns: nat -> Turn) returns (sent: seq<nat>, ghost es: seq<Timed>)
      requires Valid() && Between(session, session.begin) && Clocked(turns)
      modifies this
      ensures Valid() && !session.active
      ensures exists t :: Did(leads, old(session), turns(0).now, es, session, turns(t).now, turns, |sent|)
      ensures forall k :: 0 <= k < |sent| ==> sent[k] == old(session.begin) + k && readable(sent[k])
    {
      hide Did, Clocked;
      var t;
      sent, t, es := SendLearnedValue(begin, readable, turns);
      SendDone();
    }
  }
}
