/** What a receiver makes of any messages the network brings it, in any order and any number. */
module CheckpointRuns {
  import opened PaxosTypes
  import opened CheckpointTransfer

  datatype CpMsg =
    | Begin(node: NodeId, uuid: nat, seqNo: nat)
    | Ing(node: NodeId, uuid: nat, seqNo: nat, block: Block)
    | End(node: NodeId, uuid: nat, seqNo: nat)

  // ---------------------------------------------------------------- one message at the receiver

  const NULL_NODE: NodeId := 0

  datatype Receiver = Receiver(sender: NodeId, uuid: nat, seqNo: nat, files: Store)

  function Reset(r: Receiver): Receiver {
    r.(sender := NULL_NODE, uuid := 0, seqNo := 0)
  }

  /**
   * What the disk does: clearing may fail and leave `left` of the files, a write may
   * stop after `written` bytes.
   */
  datatype Disk = Disk(clearFails: bool, left: set<Path>, opens: bool, written: nat)

  datatype Result = Result(r: Receiver, ret: int)

  function NewReceiver(r: Receiver, node: NodeId, uuid: nat, d: Disk): Result {
    if d.clearFails then Result(r.(files := map p | p in r.files && p in d.left :: r.files[p]), -1)
    else Result(Receiver(node, uuid, 0, map[]), 0)
  }

  function ReceiveBlock(c: Layout, r: Receiver, node: NodeId, uuid: nat, s: nat, b: Block, d: Disk): Result {
    var p := c.target(b.smid, b.name);
    if node != r.sender || uuid != r.uuid then Result(r, -2)
    else if s == r.seqNo then Result(r, 0)
    else if s != r.seqNo + 1 then Result(r, -2)
    else if !d.opens then Result(r, -1)
    else
      var touched := AppendTo(r.files, p, []);
      if Size(r.files, p) != b.offset then Result(r.(files := touched), -2)
      else if d.written < |b.data| then Result(r.(files := AppendTo(touched, p, b.data[..d.written])), -1)
      else Result(r.(files := AppendTo(touched, p, b.data), seqNo := r.seqNo + 1), 0)
  }

  predicate IsReceiverFinish(r: Receiver, node: NodeId, uuid: nat, s: nat) {
    node == r.sender && uuid == r.uuid && s == r.seqNo + 1
  }

  /** A failure of any kind resets the receiver, but leaves its files. */
  function Receive(c: Layout, r: Receiver, m: CpMsg, d: Disk): Result {
    var x :=
      match m
      case Begin(node, uuid, _) => NewReceiver(r, node, uuid, d)
      case Ing(node, uuid, s, b) => ReceiveBlock(c, r, node, uuid, s, b, d)
      case End(node, uuid, s) => if IsReceiverFinish(r, node, uuid, s) then Result(r, 0) else Result(r, -1);
    if x.ret != 0 then Result(Reset(x.r), x.ret) else x
  }

  // ---------------------------------------------------------------- any network, any run

  datatype Session = Session(node: NodeId, files: seq<Src>)

  type Sessions = map<nat, Session>

  predicate SessionsOk(c: Layout, ss: Sessions) {
    && c.size > 0
    && forall u :: u in ss ==> u != 0 && ss[u].node != NULL_NODE && Distinct(c, ss[u].files)
  }

  /** Everything session `m.uuid` ever sends. */
  predicate Sent(c: Layout, ss: Sessions, m: CpMsg)
    requires c.size > 0
  {
    m.uuid in ss && m.node == ss[m.uuid].node
    && var bs := Blocks(c, ss[m.uuid].files, {});
       match m
       case Begin(_, _, s) => s == 0
       case Ing(_, _, s, b) => 1 <= s <= |bs| && b == bs[s - 1]
       case End(_, _, s) => s == |bs| + 1
  }

  datatype Delivery = Delivery(msg: CpMsg, disk: Disk)

  function Run(c: Layout, r: Receiver, ds: seq<Delivery>): Receiver {
    if ds == [] then r
    else Receive(c, Run(c, r, ds[..|ds| - 1]), ds[|ds| - 1].msg, ds[|ds| - 1].disk).r
  }

  predicate FromSessions(c: Layout, ss: Sessions, ds: seq<Delivery>)
    requires c.size > 0
  {
    forall k :: 0 <= k < |ds| ==> Sent(c, ss, ds[k].msg)
  }

  /** The files are exactly the sender's blocks up to the sequence number. */
  predicate Exact(c: Layout, ss: Sessions, r: Receiver)
    requires c.size > 0
  {
    r.uuid in ss && r.sender == ss[r.uuid].node
    && var bs := Blocks(c, ss[r.uuid].files, {});
       r.seqNo <= |bs| && r.files == Built(c, bs[..r.seqNo])
  }

  predicate Idle(r: Receiver) {
    r.sender == NULL_NODE && r.uuid == 0 && r.seqNo == 0
  }

  lemma AppendTwice(files: Store, p: Path, data: Value)
    ensures AppendTo(AppendTo(files, p, []), p, data) == AppendTo(files, p, data)
  {
    assert [] + data == data;
    if p in files {
      assert files[p] + [] == files[p];
    }
  }

  lemma BeginExact(c: Layout, ss: Sessions, m: CpMsg)
    requires SessionsOk(c, ss) && Sent(c, ss, m) && m.Begin?
    ensures Exact(c, ss, Receiver(m.node, m.uuid, 0, map[]))
  {
    var bs := Blocks(c, ss[m.uuid].files, {});
    assert bs[..0] == [];
  }

  lemma BlockExact(c: Layout, ss: Sessions, r: Receiver, m: CpMsg)
    requires SessionsOk(c, ss) && Sent(c, ss, m) && m.Ing? && Exact(c, ss, r)
    requires m.uuid == r.uuid && m.seqNo == r.seqNo + 1
    ensures var p := c.target(m.block.smid, m.block.name);
      Exact(c, ss, r.(seqNo := r.seqNo + 1, files := AppendTo(r.files, p, m.block.data)))
  {
    var bs := Blocks(c, ss[m.uuid].files, {});
    assert bs[..m.seqNo] == bs[..r.seqNo] + [m.block];
    BuiltJoin(c, bs[..r.seqNo], m.block);
  }

  lemma ReceiveExact(c: Layout, ss: Sessions, r: Receiver, m: CpMsg, d: Disk)
    requires SessionsOk(c, ss) && (Idle(r) || Exact(c, ss, r)) && Sent(c, ss, m)
    ensures var r' := Receive(c, r, m, d).r; Idle(r') || Exact(c, ss, r')
  {
    hide Built, Blocks, Distinct, AppendTo;
    if m.Begin? {
      BeginExact(c, ss, m);
    } else if m.Ing? {
      var p := c.target(m.block.smid, m.block.name);
      AppendTwice(r.files, p, m.block.data);
      if Exact(c, ss, r) && m.uuid == r.uuid && m.seqNo == r.seqNo + 1 {
        BlockExact(c, ss, r, m);
      }
    }
  }

  /**
   * Under loss, duplicates, reordering, late or repeated BEGINs and failing writes: the
   * receiver is idle, or holds exactly the first `seqNo` blocks of one session.
   */
  lemma {:induction false} AlwaysExact(c: Layout, ss: Sessions, r: Receiver, ds: seq<Delivery>)
    requires SessionsOk(c, ss) && Idle(r) && FromSessions(c, ss, ds)
    ensures var r' := Run(c, r, ds); Idle(r') || Exact(c, ss, r')
    decreases |ds|
  {
    if ds != [] {
      AlwaysExact(c, ss, r, ds[..|ds| - 1]);
      ReceiveExact(c, ss, Run(c, r, ds[..|ds| - 1]), ds[|ds| - 1].msg, ds[|ds| - 1].disk);
    }
  }

  /** When an END is accepted, every non-empty source file is there, byte for byte, and nothing else. */
  lemma FinishedIsComplete(c: Layout, ss: Sessions, r: Receiver, ds: seq<Delivery>, m: CpMsg)
    requires SessionsOk(c, ss) && Idle(r) && FromSessions(c, ss, ds)
    requires m.End? && Sent(c, ss, m) && IsReceiverFinish(Run(c, r, ds), m.node, m.uuid, m.seqNo)
    ensures Run(c, r, ds).files == Whole(c, ss[m.uuid].files)
  {
    AlwaysExact(c, ss, r, ds);
    var bs := Blocks(c, ss[m.uuid].files, {});
    assert bs[..|bs|] == bs;
    AllBlocksBuildWhole(c, ss[m.uuid].files);
  }

  // ---------------------------------------------------------------- an undisturbed transfer

  /** The next block of the session, written in full, is always accepted: the offset check cannot fail. */
  lemma NextBlockAccepted(c: Layout, ss: Sessions, r: Receiver, d: Disk)
    requires SessionsOk(c, ss) && Exact(c, ss, r) && r.seqNo < |Blocks(c, ss[r.uuid].files, {})|
    requires var b := Blocks(c, ss[r.uuid].files, {})[r.seqNo]; d.opens && d.written >= |b.data|
    ensures var b := Blocks(c, ss[r.uuid].files, {})[r.seqNo];
      var x := Receive(c, r, Ing(r.sender, r.uuid, r.seqNo + 1, b), d);
      x.ret == 0 && x.r.seqNo == r.seqNo + 1 && Exact(c, ss, x.r)
  {
    var fs := ss[r.uuid].files;
    var bs := Blocks(c, fs, {});
    var b := bs[r.seqNo];
    OffsetsFit(c, [], fs, {}, r.seqNo);
    assert [] + bs[..r.seqNo] == bs[..r.seqNo];
    ReceiveExact(c, ss, r, Ing(r.sender, r.uuid, r.seqNo + 1, b), d);
  }

  /** Whatever the receiver and the message: a block that is accepted lies at exactly its offset. */
  lemma AcceptedLiesAtOffset(c: Layout, r: Receiver, m: CpMsg, d: Disk)
    requires m.Ing?
    ensures var x := Receive(c, r, m, d);
      var p := c.target(m.block.smid, m.block.name);
      x.ret == 0 && x.r != r ==>
        && x.r.seqNo == m.seqNo == r.seqNo + 1
        && p in x.r.files && m.block.offset <= |x.r.files[p]| && x.r.files[p][m.block.offset..] == m.block.data
        && x.r.files[p][..m.block.offset] == (if p in r.files then r.files[p] else [])
        && forall q :: q != p ==> (q in x.r.files <==> q in r.files) && (q in r.files ==> x.r.files[q] == r.files[q])
  {
    AppendTwice(r.files, c.target(m.block.smid, m.block.name), m.block.data);
  }

  /** The disk opens the file and takes whatever it is given. */
  predicate Steady(d: Disk, m: CpMsg) {
    !d.clearFails && d.opens && (m.Ing? ==> d.written >= |m.block.data|)
  }

  /** The message accepted last, delivered again, is acknowledged and changes nothing, whatever the disk does. */
  lemma RepeatIsHarmless(c: Layout, ss: Sessions, r: Receiver, m: CpMsg, d: Disk)
    requires SessionsOk(c, ss) && Exact(c, ss, r) && Sent(c, ss, m) && m.uuid == r.uuid
    requires m.Ing? && m.seqNo == r.seqNo
    ensures Receive(c, r, m, d) == Result(r, 0)
  {
  }

  /** Where in its session a message stands: the BEGIN, the blocks, and the END behind them. */
  function Place(m: CpMsg): nat {
    if m.Begin? then 0 else m.seqNo
  }

  /** One session in order, each message any number of times before the next one, on a disk that does not fail. */
  predicate InOrder(c: Layout, ss: Sessions, u: nat, ds: seq<Delivery>)
    requires c.size > 0
  {
    && FromSessions(c, ss, ds)
    && (forall k :: 0 <= k < |ds| ==> ds[k].msg.uuid == u && Steady(ds[k].disk, ds[k].msg))
    && (|ds| > 0 ==> Place(ds[0].msg) == 0)
    && forall k :: 0 < k < |ds| ==> Place(ds[k - 1].msg) <= Place(ds[k].msg) <= Place(ds[k - 1].msg) + 1
  }

  /** Of session `u` everything up to place `p` has been taken. */
  predicate Taken(c: Layout, ss: Sessions, u: nat, r: Receiver, p: nat)
    requires c.size > 0
  {
    && Exact(c, ss, r) && r.uuid == u
    && var n := |Blocks(c, ss[u].files, {})|; r.seqNo == if p <= n then p else n
  }

  lemma TakenNext(c: Layout, ss: Sessions, u: nat, r: Receiver, p: nat, m: CpMsg, d: Disk)
    requires SessionsOk(c, ss) && Sent(c, ss, m) && m.uuid == u && Steady(d, m)
    requires if Place(m) == 0 then p == 0 && (m.Begin? || Taken(c, ss, u, r, 0))
             else Taken(c, ss, u, r, p) && p <= Place(m) <= p + 1
    ensures var x := Receive(c, r, m, d); x.ret == 0 && Taken(c, ss, u, x.r, Place(m))
  {
    hide Built, Blocks, Distinct, AppendTo, Whole;
    match m
    case Begin(_, _, _) =>
      BeginExact(c, ss, m);
    case Ing(_, _, s, b) =>
      if s == r.seqNo {
        RepeatIsHarmless(c, ss, r, m, d);
      } else {
        NextBlockAccepted(c, ss, r, d);
      }
    case End(_, _, _) =>
  }

  /**
   * A session that arrives in order, with any repetitions, is accepted message by message
   * by any receiver; the END, too, and then the files are the source files.
   */
  lemma {:induction false} InOrderAccepted(c: Layout, ss: Sessions, u: nat, r: Receiver, ds: seq<Delivery>, k: nat)
    requires SessionsOk(c, ss) && InOrder(c, ss, u, ds) && k < |ds|
    ensures Receive(c, Run(c, r, ds[..k]), ds[k].msg, ds[k].disk).ret == 0
    ensures Taken(c, ss, u, Run(c, r, ds[..k + 1]), Place(ds[k].msg))
    ensures ds[k].msg.End? ==> Run(c, r, ds[..k + 1]).files == Whole(c, ss[u].files)
    decreases k
  {
    var before := Run(c, r, ds[..k]);
    assert ds[..k + 1][..k] == ds[..k];
    if k > 0 {
      InOrderAccepted(c, ss, u, r, ds, k - 1);
    }
    TakenNext(c, ss, u, before, if k > 0 then Place(ds[k - 1].msg) else 0, ds[k].msg, ds[k].disk);
    if ds[k].msg.End? {
      var bs := Blocks(c, ss[u].files, {});
      assert bs[..|bs|] == bs;
      AllBlocksBuildWhole(c, ss[u].files);
    }
  }
}
