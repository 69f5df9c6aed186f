/** How records lie in a value file, and what a scan of the bytes finds. */
module LogFormat {

  type Byte = b: nat | b < 256

  type Bytes = seq<Byte>

  /** A stored value of one instance. */
  datatype Rec = Rec(inst: nat, buf: Bytes)

  /** Where a record lies: file, offset, checksum of its body. */
  datatype FileId = FileId(file: nat, offset: nat, chk: nat)

  /** The checksum and the "is an acceptor state" test, as arbitrary functions of the bytes. */
  datatype Codec = Codec(crc: Bytes -> nat, parses: Bytes -> bool)

  // ---------------------------------------------------------------- numbers

  function Pow256(k: nat): (p: nat)
    ensures p > 0
  {
    if k == 0 then 1 else 256 * Pow256(k - 1)
  }

  function Le(n: nat, k: nat): (s: Bytes)
    ensures |s| == k
  {
    if k == 0 then [] else [n % 256] + Le(n / 256, k - 1)
  }

  function Num(s: Bytes): nat {
    if s == [] then 0 else s[0] + 256 * Num(s[1..])
  }

  lemma {:induction false} NumLe(n: nat, k: nat)
    requires n < Pow256(k)
    ensures Num(Le(n, k)) == n
  {
    if k > 0 {
      NumLe(n / 256, k - 1);
      assert Le(n, k)[1..] == Le(n / 256, k - 1);
    }
  }

  /** Four bytes as a signed 32-bit number. */
  function Int32(s: Bytes): int {
    if Num(s) >= 0x8000_0000 then Num(s) - 0x1_0000_0000 else Num(s)
  }

  lemma {:induction false} NumZeros(s: Bytes)
    requires forall i :: 0 <= i < |s| ==> s[i] == 0
    ensures Num(s) == 0
  {
    if s != [] {
      NumZeros(s[1..]);
    }
  }

  // ---------------------------------------------------------------- records

  /** A record fits the 32-bit length field and the 64-bit instance field. */
  predicate Fits(r: Rec) {
    r.inst < Pow256(8) && 8 + |r.buf| < 0x8000_0000
  }

  function Body(r: Rec): Bytes {
    Le(r.inst, 8) + r.buf
  }

  function Encode(r: Rec): (s: Bytes)
    ensures |s| == 12 + |r.buf|
  {
    Le(8 + |r.buf|, 4) + Body(r)
  }

  function EncodeAll(rs: seq<Rec>): Bytes {
    if rs == [] then [] else EncodeAll(rs[..|rs| - 1]) + Encode(rs[|rs| - 1])
  }

  function Zeros(n: nat): (s: Bytes)
    ensures |s| == n && forall i :: 0 <= i < n ==> s[i] == 0
  {
    seq(n, _ => 0)
  }

  /** The bytes of a value file: its records, then zeros up to the expanded size. */
  function Content(rs: seq<Rec>, tail: nat): Bytes {
    EncodeAll(rs) + Zeros(tail)
  }

  function Offset(rs: seq<Rec>, k: nat): nat
    requires k <= |rs|
  {
    |EncodeAll(rs[..k])|
  }

  lemma OffsetStep(rs: seq<Rec>, k: nat)
    requires k < |rs|
    ensures Offset(rs, k + 1) == Offset(rs, k) + 12 + |rs[k].buf|
  {
    assert rs[..k + 1][..k] == rs[..k];
  }

  lemma OffsetEnd(rs: seq<Rec>)
    ensures Offset(rs, |rs|) == |EncodeAll(rs)|
  {
    assert rs[..|rs|] == rs;
  }

  /** The k-th record's bytes are found at its offset. */
  lemma {:induction false} RecordAt(rs: seq<Rec>, k: nat)
    requires k < |rs|
    ensures Offset(rs, k) + 12 + |rs[k].buf| <= |EncodeAll(rs)|
    ensures EncodeAll(rs)[Offset(rs, k)..Offset(rs, k) + 12 + |rs[k].buf|] == Encode(rs[k])
  {
    var n := |rs| - 1;
    var init := rs[..n];
    if k == n {
      assert rs[..k] == init;
    } else {
      RecordAt(init, k);
      assert init[..k] == rs[..k];
    }
  }

  // ---------------------------------------------------------------- reading one record

  datatype Read =
    | End
    | Partial
    | Bad
    | Found(inst: nat, buf: Bytes, next: nat)

  /** What the scan loop sees at offset `o`. */
  function ReadAt(c: Bytes, o: nat): (r: Read)
    ensures r.Found? ==> o < r.next <= |c|
  {
    if o >= |c| then End
    else if |c| - o < 4 then Partial
    else
      var len := Int32(c[o..o + 4]);
      if len == 0 then End
      else if len > |c| || len < 8 then Bad
      else if o + 4 + len > |c| then Partial
      else Found(Num(c[o + 4..o + 12]), c[o + 12..o + 4 + len], o + 4 + len)
  }

  lemma Slice(c: Bytes, o: nat, e: Bytes, a: nat, b: nat)
    requires o + |e| <= |c| && c[o..o + |e|] == e && a <= b <= |e|
    ensures c[o + a..o + b] == e[a..b]
  {
    var s, s' := c[o + a..o + b], e[a..b];
    assert |s| == |s'| == b - a;
    forall i | 0 <= i < b - a
      ensures s[i] == s'[i]
    {
      assert e[a + i] == c[o..o + |e|][a + i];
    }
  }

  lemma EncodedParts(r: Rec)
    ensures var e := Encode(r);
      e[0..4] == Le(8 + |r.buf|, 4) && e[4..12] == Le(r.inst, 8) && e[12..|e|] == r.buf && e[4..|e|] == Body(r)
  {
  }

  lemma FitsNumbers(r: Rec)
    requires Fits(r)
    ensures Int32(Le(8 + |r.buf|, 4)) == 8 + |r.buf| && Num(Le(r.inst, 8)) == r.inst
  {
    assert Pow256(4) == 0x1_0000_0000 by {
      assert Pow256(2) == 65536;
      assert Pow256(3) == 16777216;
    }
    NumLe(8 + |r.buf|, 4);
    NumLe(r.inst, 8);
  }

  lemma ReadEncoded(c: Bytes, o: nat, r: Rec)
    requires Fits(r) && o + 12 + |r.buf| <= |c| && c[o..o + 12 + |r.buf|] == Encode(r)
    ensures ReadAt(c, o) == Found(r.inst, r.buf, o + 12 + |r.buf|)
    ensures c[o + 4..o + 12 + |r.buf|] == Body(r)
  {
    hide Encode, Le, Num, Int32, Pow256, Fits, Body;
    var e := Encode(r);
    EncodedParts(r);
    FitsNumbers(r);
    Slice(c, o, e, 0, 4);
    Slice(c, o, e, 4, 12);
    Slice(c, o, e, 12, |e|);
    Slice(c, o, e, 4, |e|);
  }

  lemma ReadRecord(rs: seq<Rec>, tail: nat, k: nat)
    requires k < |rs| && Fits(rs[k])
    ensures ReadAt(Content(rs, tail), Offset(rs, k)) == Found(rs[k].inst, rs[k].buf, Offset(rs, k + 1))
    ensures Offset(rs, k) + 4 <= Offset(rs, k + 1) <= |EncodeAll(rs)|
    ensures Content(rs, tail)[Offset(rs, k) + 4..Offset(rs, k + 1)] == Body(rs[k])
  {
    hide Encode, EncodeAll, Body, ReadAt, Fits, Offset;
    ReadBefore(rs, Zeros(tail), k);
  }

  /** A record is found at its offset whatever follows the records. */
  lemma ReadBefore(rs: seq<Rec>, rest: Bytes, k: nat)
    requires k < |rs| && Fits(rs[k])
    ensures ReadAt(EncodeAll(rs) + rest, Offset(rs, k)) == Found(rs[k].inst, rs[k].buf, Offset(rs, k + 1))
    ensures Offset(rs, k) + 4 <= Offset(rs, k + 1) <= |EncodeAll(rs)|
    ensures (EncodeAll(rs) + rest)[Offset(rs, k) + 4..Offset(rs, k + 1)] == Body(rs[k])
  {
    hide Encode, EncodeAll, Body, ReadAt, Fits, Offset;
    var c := EncodeAll(rs) + rest;
    var o := Offset(rs, k);
    RecordAt(rs, k);
    OffsetStep(rs, k);
    assert c[..|EncodeAll(rs)|] == EncodeAll(rs);
    Slice(c, 0, EncodeAll(rs), o, o + 12 + |rs[k].buf|);
    ReadEncoded(c, o, rs[k]);
  }

  /** A record of which only the first `m` bytes have been written. */
  lemma ReadTorn(rs: seq<Rec>, r: Rec, m: nat)
    requires Fits(r) && 0 < m < |Encode(r)|
    ensures var c := EncodeAll(rs) + Encode(r)[..m];
      ReadAt(c, |EncodeAll(rs)|) == if m >= 4 && 8 + |r.buf| > |c| then Bad else Partial
  {
    hide Encode, EncodeAll, Le, Num, Int32, Pow256, Fits, Body;
    var c := EncodeAll(rs) + Encode(r)[..m];
    var o := |EncodeAll(rs)|;
    if m >= 4 {
      EncodedParts(r);
      FitsNumbers(r);
      assert c[o..o + 4] == Encode(r)[..m][0..4] == Encode(r)[0..4];
    }
  }

  /** Behind the last record: one to three bytes left look like a torn length field. */
  lemma ReadTail(rs: seq<Rec>, tail: nat)
    ensures ReadAt(Content(rs, tail), |EncodeAll(rs)|) == if 1 <= tail <= 3 then Partial else End
  {
    var c := Content(rs, tail);
    var o := |EncodeAll(rs)|;
    if tail >= 4 {
      assert c[o..o + 4] == Zeros(tail)[..4];
      NumZeros(c[o..o + 4]);
    }
  }
}
