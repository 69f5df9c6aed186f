/** The sender that cuts files into messages, and the receiver that appends them. */
module CheckpointObjects {
  import opened PaxosTypes
  import opened CheckpointTransfer
  import opened CheckpointRuns

  /** How many blocks may be under way without an acknowledgement. */
  const ACK_LEAD := 10

  class CheckpointReceiver {
    const layout: Layout
    var senderNode: NodeId
    var uuid: nat
    var sequence: nat
    var files: Store

    constructor (layout: Layout, files: Store)
      ensures this.layout == layout && View() == Receiver(NULL_NODE, 0, 0, files)
    {
      this.layout := layout;
      this.files := files;
      senderNode, uuid, sequence := NULL_NODE, 0, 0;
    }

    ghost function View(): Receiver
      reads this
    {
      Receiver(senderNode, uuid, sequence, files)
    }

    method Reset()
      modifies this
      ensures View() == CheckpointRuns.Reset(old(View()))
    {
      senderNode, uuid, sequence := NULL_NODE, 0, 0;
    }

    method NewReceiver(node: NodeId, id: nat, d: Disk) returns (ret: int)
      modifies this
      ensures Result(View(), ret) == CheckpointRuns.NewReceiver(old(View()), node, id, d)
    {
      if d.clearFails {
        files := map p | p in files && p in d.left :: files[p];
        return -1;
      }
      files := map[];
      senderNode, uuid, sequence := node, id, 0;
      ret := 0;
    }

    method ReceiveCheckpoint(node: NodeId, id: nat, s: nat, b: Block, d: Disk) returns (ret: int)
      modifies this
      ensures Result(View(), ret) == ReceiveBlock(layout, old(View()), node, id, s, b, d)
    {
      if node != senderNode || id != uuid {
        return -2;
      }
      if s == sequence {
        return 0;
      }
      if s != sequence + 1 {
        return -2;
      }
      var p := layout.target(b.smid, b.name);
      if !d.opens {
        return -1;
      }
      var offset := if p in files then |files[p]| else 0;
      files := files[p := (if p in files then files[p] else []) + []];
      if offset != b.offset {
        return -2;
      }
      if d.written < |b.data| {
        files := files[p := files[p] + b.data[..d.written]];
        return -1;
      }
      files := files[p := files[p] + b.data];
      sequence := sequence + 1;
      ret := 0;
    }

    /** Any failure resets the receiver; `ret` also decides which acknowledgement goes back. */
    method OnSendCheckpoint(m: CpMsg, d: Disk) returns (ret: int)
      modifies this
      ensures Result(View(), ret) == Receive(layout, old(View()), m, d)
    {
      match m {
        case Begin(node, id, _) =>
          ret := NewReceiver(node, id, d);
        case Ing(node, id, s, b) =>
          ret := ReceiveCheckpoint(node, id, s, b, d);
        case End(node, id, s) =>
          ret := if node == senderNode && id == uuid && s == sequence + 1 then 0 else -1;
      }
      if ret != 0 {
        Reset();
      }
    }
  }

  /** The messages of consecutive blocks. */
  function Messages(node: NodeId, uuid: nat, first: nat, bs: seq<Block>): (ms: seq<CpMsg>)
    ensures |ms| == |bs|
  {
    seq(|bs|, i requires 0 <= i < |bs| => Ing(node, uuid, first + i, bs[i]))
  }

  lemma MessagesJoin(node: NodeId, uuid: nat, first: nat, a: seq<Block>, b: seq<Block>)
    ensures Messages(node, uuid, first, a + b) ==
      Messages(node, uuid, first, a) + Messages(node, uuid, first + |a|, b)
  {
  }

  lemma MessagesStep(node: NodeId, uuid: nat, first: nat, a: seq<Block>, b: Block)
    ensures Messages(node, uuid, first, a + [b]) ==
      Messages(node, uuid, first, a) + [Ing(node, uuid, first + |a|, b)]
  {
  }

  /** One turn of the read loop: the next block and what is left. */
  lemma ReadStep(c: Layout, f: Src, offset: nat, sent: seq<Block>, all: seq<Block>)
    requires c.size > 0 && offset < |f.data| && sent + Cut(c, f, offset) == all
    ensures var next := PieceEnd(c, f, offset);
      sent + [Piece(c, f, offset)] + Cut(c, f, next) == all
  {
    CutStep(c, f, offset);
    var next := PieceEnd(c, f, offset);
    assert sent + ([Piece(c, f, offset)] + Cut(c, f, next)) == sent + [Piece(c, f, offset)] + Cut(c, f, next);
  }

  predicate IsPrefix<T(==)>(a: seq<T>, b: seq<T>) {
    |a| <= |b| && a == b[..|a|]
  }

  /** The file up to `offset` is `sent`, and the messages of these blocks have gone out. */
  ghost predicate Going(c: Layout, f: Src, offset: nat, sent: seq<Block>, out0: seq<CpMsg>, out: seq<CpMsg>,
                        me: NodeId, uuid: nat, first: nat)
    requires c.size > 0 && offset <= |f.data|
  {
    sent + Cut(c, f, offset) == Cut(c, f, 0) && out == out0 + Messages(me, uuid, first, sent)
  }

  lemma NothingOut(c: Layout, f: Src, out: seq<CpMsg>, me: NodeId, uuid: nat, first: nat)
    requires c.size > 0
    ensures Going(c, f, 0, [], out, out, me, uuid, first)
  {
    assert [] + Cut(c, f, 0) == Cut(c, f, 0);
    assert out + [] == out;
  }

  lemma GoingPrefix(c: Layout, f: Src, offset: nat, sent: seq<Block>, out0: seq<CpMsg>, out: seq<CpMsg>,
                    me: NodeId, uuid: nat, first: nat)
    requires c.size > 0 && offset <= |f.data| && Going(c, f, offset, sent, out0, out, me, uuid, first)
    ensures IsPrefix(sent, Cut(c, f, 0)) && out == out0 + Messages(me, uuid, first, sent)
    ensures offset == |f.data| ==> sent == Cut(c, f, 0)
  {
    if offset == |f.data| {
      assert Cut(c, f, offset) == [];
    }
  }

  lemma GoingStep(c: Layout, f: Src, offset: nat, sent: seq<Block>, out0: seq<CpMsg>, out: seq<CpMsg>,
                  me: NodeId, uuid: nat, first: nat)
    requires c.size > 0 && offset < |f.data| && Going(c, f, offset, sent, out0, out, me, uuid, first)
    ensures var b := Piece(c, f, offset);
      && b == Block(f.smid, f.name, offset, f.data[offset..PieceEnd(c, f, offset)])
      && Going(c, f, PieceEnd(c, f, offset), sent + [b], out0, out + [Ing(me, uuid, first + |sent|, b)], me, uuid, first)
  {
    var b := Piece(c, f, offset);
    ReadStep(c, f, offset, sent, Cut(c, f, 0));
    MessagesStep(me, uuid, first, sent, b);
    hide Cut, Messages;
    assert out0 + (Messages(me, uuid, first, sent) + [Ing(me, uuid, first + |sent|, b)]) ==
      out0 + Messages(me, uuid, first, sent) + [Ing(me, uuid, first + |sent|, b)];
  }

  // ---------------------------------------------------------------- the sender's window

  /** What a sender did and heard, in this order. */
  datatype Mark = Put(m: CpMsg) | Heard(from: NodeId, id: nat, s: nat)

  function Puts(trace: seq<Mark>): seq<CpMsg> {
    if trace == [] then []
    else
      var last := trace[|trace| - 1];
      Puts(trace[..|trace| - 1]) + if last.Put? then [last.m] else []
  }

  /** How many acknowledgements have come in order, from node `to`, for session `id`. */
  function Acked(to: NodeId, id: nat, trace: seq<Mark>): nat {
    if trace == [] then 0
    else
      var before := Acked(to, id, trace[..|trace| - 1]);
      if trace[|trace| - 1] == Heard(to, id, before) then before + 1 else before
  }

  /** Every block went out inside the window of the acknowledgements received by then. */
  ghost predicate Windowed(to: NodeId, id: nat, trace: seq<Mark>) {
    forall k :: 0 <= k < |trace| && trace[k].Put? && trace[k].m.Ing? ==>
      trace[k].m.seqNo <= Acked(to, id, trace[..k]) + ACK_LEAD
  }

  lemma MarkMore(to: NodeId, id: nat, trace: seq<Mark>, x: Mark)
    ensures Puts(trace + [x]) == Puts(trace) + if x.Put? then [x.m] else []
    ensures Acked(to, id, trace + [x]) ==
      Acked(to, id, trace) + if x == Heard(to, id, Acked(to, id, trace)) then 1 else 0
    ensures Windowed(to, id, trace) && (x.Put? && x.m.Ing? ==> x.m.seqNo <= Acked(to, id, trace) + ACK_LEAD)
      ==> Windowed(to, id, trace + [x])
  {
    var t := trace + [x];
    assert t[..|trace|] == trace;
    assert forall k :: 0 <= k < |trace| ==> t[..k] == trace[..k];
  }

  /** Acknowledgement `j` has been received before position `k`. */
  ghost predicate HeardBefore(to: NodeId, id: nat, trace: seq<Mark>, k: nat, j: nat) {
    exists i :: 0 <= i < k <= |trace| && trace[i] == Heard(to, id, j)
  }

  lemma {:induction false} AckedHeard(to: NodeId, id: nat, trace: seq<Mark>, k: nat, j: nat)
    requires k <= |trace| && j < Acked(to, id, trace[..k])
    ensures HeardBefore(to, id, trace, k, j)
    decreases k
  {
    var t := trace[..k];
    assert t[..k - 1] == trace[..k - 1];
    if j < Acked(to, id, trace[..k - 1]) {
      AckedHeard(to, id, trace, k - 1, j);
      var i :| 0 <= i < k - 1 <= |trace| && trace[i] == Heard(to, id, j);
      assert trace[i] == Heard(to, id, j) && i < k;
    } else {
      assert trace[k - 1] == Heard(to, id, j);
    }
  }

  /**
   * Before a block went out, the receiver's acknowledgement of every message more than
   * the window behind it had come in.
   */
  lemma BlockAfterAcks(to: NodeId, id: nat, trace: seq<Mark>, k: nat, j: nat)
    requires Windowed(to, id, trace) && k < |trace| && trace[k].Put? && trace[k].m.Ing?
    requires j + 10 < trace[k].m.seqNo
    ensures HeardBefore(to, id, trace, k, j)
  {
    AckedHeard(to, id, trace, k, j);
  }

  // ---------------------------------------------------------------- the sender

  /** An acknowledgement and the time it comes in. */
  datatype Reply = Reply(at: nat, from: NodeId, id: nat, s: nat)

  /** One turn of the sending thread: what has come in since the last one, and whether it is to end. */
  datatype Turn = Turn(now: nat, came: seq<Reply>, ends: bool)

  /** How long the sender waits for an acknowledgement, in milliseconds. */
  const ACK_TIMEOUT := 120000

  class CheckpointSender {
    const layout: Layout
    const me: NodeId
    const to: NodeId
    const uuid: nat
    const turns: nat -> Turn
    var turn: nat
    var sequence: nat
    var ackSequence: nat
    var lastAckTime: nat
    var alreadySent: set<Path>
    var out: seq<CpMsg>
    ghost var trace: seq<Mark>

    constructor (layout: Layout, me: NodeId, to: NodeId, uuid: nat, turns: nat -> Turn)
      ensures this.layout == layout && this.me == me && this.to == to && this.uuid == uuid && this.turns == turns
      ensures Valid() && sequence == 0 && ackSequence == 0 && alreadySent == {} && out == []
    {
      this.layout, this.me, this.to, this.uuid, this.turns := layout, me, to, uuid, turns;
      turn, sequence, ackSequence, alreadySent, out := 0, 0, 0, {}, [];
      lastAckTime := turns(0).now;
      trace := [];
    }

    /** What the object has is what came in and went out, and the window was kept. */
    ghost predicate Valid()
      reads this
    {
      out == Puts(trace) && ackSequence == Acked(to, uuid, trace) && Windowed(to, uuid, trace)
    }

    /** Time goes on without end. */
    ghost predicate Clocked() {
      forall t: nat :: t <= turns(t).now
    }

    /** Acknowledgements count only in order, and only the own ones. */
    method Ack(from: NodeId, id: nat, s: nat, now: nat)
      requires Valid()
      modifies this`ackSequence, this`lastAckTime, this`trace
      ensures Valid() && trace == old(trace) + [Heard(from, id, s)]
      ensures ackSequence ==
        if from == to && id == uuid && s == old(ackSequence) then old(ackSequence) + 1 else old(ackSequence)
      ensures lastAckTime == if ackSequence == old(ackSequence) then old(lastAckTime) else now
    {
      hide Windowed, Puts, Acked;
      MarkMore(to, uuid, trace, Heard(from, id, s));
      trace := trace + [Heard(from, id, s)];
      if from != to {
        return;
      }
      if id != uuid {
        return;
      }
      if s != ackSequence {
        return;
      }
      ackSequence := ackSequence + 1;
      lastAckTime := now;
    }

    /** The acknowledgements of the next turn come in. */
    method NextTurn()
      requires Valid()
      modifies this`turn, this`ackSequence, this`lastAckTime, this`trace
      ensures Valid() && turn == old(turn) + 1 && ackSequence >= old(ackSequence)
      ensures ackSequence == old(ackSequence) ==> lastAckTime == old(lastAckTime)
    {
      turn := turn + 1;
      var came := turns(turn).came;
      for i := 0 to |came|
        invariant Valid() && turn == old(turn) + 1 && ackSequence >= old(ackSequence)
        invariant ackSequence == old(ackSequence) ==> lastAckTime == old(lastAckTime)
      {
        hide Windowed, Puts, Acked;
        Ack(came[i].from, came[i].id, came[i].s, came[i].at);
      }
    }

    function Overdue(): bool
      reads this
    {
      (if turns(turn).now > lastAckTime then turns(turn).now - lastAckTime else 0) >= ACK_TIMEOUT
    }

    /** Waits while `s` is beyond the window, up to the timeout or the end of the sender. */
    method CheckAck(s: nat) returns (pass: bool)
      requires Valid() && Clocked()
      modifies this`turn, this`ackSequence, this`lastAckTime, this`trace
      ensures Valid() && pass == (s <= ackSequence + ACK_LEAD)
      ensures !pass ==> turns(turn).ends || Overdue()
    {
      while s > ackSequence + ACK_LEAD
        invariant Valid()
        decreases s - ackSequence, lastAckTime + ACK_TIMEOUT - turn
      {
        hide Windowed, Puts, Acked;
        if turns(turn).ends {
          return false;
        }
        if Overdue() {
          return false;
        }
        NextTurn();
      }
      pass := true;
    }

    /** One block goes out inside the window, unless the sender is to end or has waited too long. */
    method SendBuffer(b: Block) returns (ret: int)
      requires Valid() && Clocked()
      modifies this`turn, this`ackSequence, this`lastAckTime, this`trace, this`sequence, this`out
      ensures Valid()
      ensures ret == 0 ==> old(sequence) <= ackSequence + ACK_LEAD
      ensures ret != 0 ==> ret == -1 && (turns(turn).ends || (old(sequence) > ackSequence + ACK_LEAD && Overdue()))
      ensures sequence == old(sequence) + (if ret == 0 then 1 else 0)
      ensures out == old(out) + (if ret == 0 then [Ing(me, uuid, old(sequence), b)] else [])
    {
      hide Windowed, Puts, Acked;
      NextTurn();
      if turns(turn).ends {
        return -1;
      }
      var pass := CheckAck(sequence);
      if !pass {
        return -1;
      }
      var m := Ing(me, uuid, sequence, b);
      MarkMore(to, uuid, trace, Put(m));
      trace := trace + [Put(m)];
      out := out + [m];
      sequence := sequence + 1;
      ret := 0;
    }

    /** The blocks of `f`, in order; a prefix of them when sending stops early. */
    method SendFile(f: Src) returns (ret: int, ghost sent: seq<Block>)
      requires layout.size > 0 && Valid() && Clocked()
      modifies this
      ensures var bs := if f.source in old(alreadySent) then [] else Cut(layout, f, 0);
        IsPrefix(sent, bs) && (ret == 0 ==> sent == bs)
      ensures out == old(out) + Messages(me, uuid, old(sequence), sent) && sequence == old(sequence) + |sent|
      ensures ret == 0 ==> alreadySent == old(alreadySent) + {f.source}
      ensures Valid()
    {
      sent := [];
      if f.source in alreadySent {
        return 0, sent;
      }
      ret, sent := SendBlocks(f);
      if ret == 0 {
        alreadySent := alreadySent + {f.source};
      }
    }

    /** The next `read` bytes of the file go out as one block. */
    method SendPiece(f: Src, offset: nat, read: nat, ghost sent: seq<Block>, ghost out0: seq<CpMsg>, ghost first: nat)
      returns (ret: int)
      requires layout.size > 0 && Valid() && Clocked()
      requires offset < |f.data| && read == if offset + layout.size > |f.data| then |f.data| - offset else layout.size
      requires Going(layout, f, offset, sent, out0, out, me, uuid, first) && sequence == first + |sent|
      modifies this`turn, this`ackSequence, this`lastAckTime, this`trace, this`sequence, this`out
      ensures Valid() && sequence == old(sequence) + (if ret == 0 then 1 else 0) && (ret != 0 ==> out == old(out))
      ensures ret == 0 ==>
        Going(layout, f, offset + read, sent + [Piece(layout, f, offset)], out0, out, me, uuid, first)
    {
      hide Valid, Clocked, Going;
      GoingStep(layout, f, offset, sent, out0, out, me, uuid, first);
      ret := SendBuffer(Block(f.smid, f.name, offset, f.data[offset..offset + read]));
    }

    method SendBlocks(f: Src) returns (ret: int, ghost sent: seq<Block>)
      requires layout.size > 0 && Valid() && Clocked()
      modifies this`turn, this`ackSequence, this`lastAckTime, this`trace, this`sequence, this`out
      ensures IsPrefix(sent, Cut(layout, f, 0)) && (ret == 0 ==> sent == Cut(layout, f, 0))
      ensures out == old(out) + Messages(me, uuid, old(sequence), sent) && sequence == old(sequence) + |sent|
      ensures Valid()
    {
      sent := [];
      var offset := 0;
      ret := 0;
      NothingOut(layout, f, out, me, uuid, sequence);
      hide *;
      while true
        invariant offset <= |f.data| && ret == 0
        invariant Going(layout, f, offset, sent, old(out), out, me, uuid, old(sequence))
        invariant Valid() && sequence == old(sequence) + |sent|
        decreases |f.data| - offset
      {
        GoingPrefix(layout, f, offset, sent, old(out), out, me, uuid, old(sequence));
        var read := if offset + layout.size > |f.data| then |f.data| - offset else layout.size;
        if read == 0 {
          break;
        }
        ret := SendPiece(f, offset, read, sent, old(out), old(sequence));
        if ret != 0 {
          return;
        }
        sent := sent + [Piece(layout, f, offset)];
        offset := offset + read;
        if read < layout.size {
          break;
        }
      }
      GoingPrefix(layout, f, offset, sent, old(out), out, me, uuid, old(sequence));
    }

    /** BEGIN twice, the blocks of all files, END; or a part of that when sending stops early. */
    method SendCheckpoint(fs: seq<Src>) returns (ret: int, ghost sent: seq<Block>)
      requires layout.size > 0 && Valid() && Clocked() && sequence == 0 && out == [] && alreadySent == {}
      modifies this
      ensures IsPrefix(sent, Blocks(layout, fs, {})) && (ret == 0 ==> sent == Blocks(layout, fs, {}))
      ensures out == [Begin(me, uuid, 0), Begin(me, uuid, 0)] + Messages(me, uuid, 1, sent)
        + (if ret == 0 then [End(me, uuid, |sent| + 1)] else [])
      ensures Valid()
    {
      for i := 0 to 2
        invariant out == if i == 0 then [] else if i == 1 then [Begin(me, uuid, 0)] else [Begin(me, uuid, 0), Begin(me, uuid, 0)]
        invariant Valid() && sequence == 0 && alreadySent == {}
      {
        SendMessage(Begin(me, uuid, sequence));
      }
      sequence := sequence + 1;
      ret, sent := SendFiles(fs);
      if ret != 0 {
        return;
      }
      SendMessage(End(me, uuid, sequence));
    }

    /** A message that needs no place in the window. */
    method SendMessage(m: CpMsg)
      requires Valid() && !m.Ing?
      modifies this`out, this`trace
      ensures Valid() && out == old(out) + [m]
    {
      hide Windowed, Puts, Acked;
      MarkMore(to, uuid, trace, Put(m));
      trace := trace + [Put(m)];
      out := out + [m];
    }

    method SendFiles(fs: seq<Src>) returns (ret: int, ghost sent: seq<Block>)
      requires layout.size > 0 && Valid() && Clocked() && alreadySent == {}
      modifies this
      ensures ret != 0 ==> IsPrefix(sent, Blocks(layout, fs, {}))
      ensures ret == 0 ==> sent == Blocks(layout, fs, {})
      ensures out == old(out) + Messages(me, uuid, old(sequence), sent) && sequence == old(sequence) + |sent|
      ensures Valid()
    {
      hide Blocks, Cut, Messages, IsPrefix, Windowed, Puts, Acked;
      sent, ret := [], 0;
      assert Messages(me, uuid, sequence, []) == [];
      assert fs[0..] == fs;
      for i := 0 to |fs|
        invariant sequence == old(sequence) + |sent|
        invariant out == old(out) + Messages(me, uuid, old(sequence), sent)
        invariant sent + Blocks(layout, fs[i..], alreadySent) == Blocks(layout, fs, {})
        invariant Valid()
      {
        ghost var done := alreadySent;
        ghost var part;
        ret, part := SendFile(fs[i]);
        MessagesJoin(me, uuid, old(sequence), sent, part);
        PrefixOfAll(layout, sent, part, if fs[i].source in done then [] else Cut(layout, fs[i], 0), fs, i, done);
        sent := sent + part;
        if ret != 0 {
          return;
        }
      }
      ret := 0;
      NoBlocks(layout, fs[|fs|..], alreadySent);
    }
  }

  lemma NoBlocks(c: Layout, fs: seq<Src>, done: set<Path>)
    requires c.size > 0 && fs == []
    ensures Blocks(c, fs, done) == []
  {
  }

  /** The blocks of the first file, and those of the rest. */
  lemma FirstBlocks(c: Layout, fs: seq<Src>, i: nat, done: set<Path>)
    requires c.size > 0 && i < |fs|
    ensures Blocks(c, fs[i..], done) ==
      (if fs[i].source in done then [] else Cut(c, fs[i], 0)) + Blocks(c, fs[i + 1..], done + {fs[i].source})
  {
    assert fs[i..][1..] == fs[i + 1..];
    hide Cut;
    if fs[i].source in done {
      assert done + {fs[i].source} == done;
    }
  }

  lemma JoinedPrefix(sent: seq<Block>, part: seq<Block>, bs: seq<Block>, rest: seq<Block>, all: seq<Block>)
    requires sent + (bs + rest) == all && IsPrefix(part, bs)
    ensures IsPrefix(sent + part, all) && (part == bs ==> sent + part + rest == all)
  {
    assert all == sent + bs + rest;
    assert all[..|sent| + |part|] == sent + bs[..|part|];
  }

  lemma PrefixOfAll(c: Layout, sent: seq<Block>, part: seq<Block>, bs: seq<Block>, fs: seq<Src>, i: nat, done: set<Path>)
    requires c.size > 0 && i < |fs| && IsPrefix(part, bs)
    requires bs == if fs[i].source in done then [] else Cut(c, fs[i], 0)
    requires sent + Blocks(c, fs[i..], done) == Blocks(c, fs, {})
    ensures IsPrefix(sent + part, Blocks(c, fs, {}))
    ensures part == bs ==> sent + part + Blocks(c, fs[i + 1..], done + {fs[i].source}) == Blocks(c, fs, {})
  {
    hide *;
    FirstBlocks(c, fs, i, done);
    JoinedPrefix(sent, part, bs, Blocks(c, fs[i + 1..], done + {fs[i].source}), Blocks(c, fs, {}));
  }

  /** What the sender object puts out is what the receiver may be handed. */
  lemma SenderSendsItsSession(c: Layout, ss: Sessions, uuid: nat, sent: seq<Block>, ended: bool, m: CpMsg)
    requires SessionsOk(c, ss) && uuid in ss
    requires var bs := Blocks(c, ss[uuid].files, {}); IsPrefix(sent, bs) && (ended ==> sent == bs)
    requires var me := ss[uuid].node;
      m in [Begin(me, uuid, 0), Begin(me, uuid, 0)] + Messages(me, uuid, 1, sent)
        + (if ended then [End(me, uuid, |sent| + 1)] else [])
    ensures Sent(c, ss, m)
  {
    var me := ss[uuid].node;
    if m in Messages(me, uuid, 1, sent) {
      var i :| 0 <= i < |sent| && m == Messages(me, uuid, 1, sent)[i];
      assert sent[i] == Blocks(c, ss[uuid].files, {})[i];
    }
  }
}
