/** The index as a fold over the puts, and its rebuild from the value files. */
module LogIndex {
  import opened PaxosTypes
  import opened LogFormat

  type Index = map<nat, FileId>

  datatype Entry = Entry(inst: nat, id: FileId)

  // ---------------------------------------------------------------- the index as a fold

  function PutAll(m: Index, es: seq<Entry>): Index
    decreases |es|
  {
    if es == [] then m else PutAll(m[es[0].inst := es[0].id], es[1..])
  }

  lemma {:induction false} PutAllJoin(m: Index, a: seq<Entry>, b: seq<Entry>)
    ensures PutAll(m, a + b) == PutAll(PutAll(m, a), b)
    decreases |a|
  {
    if a == [] {
      assert a + b == b;
    } else {
      assert (a + b)[1..] == a[1..] + b;
      PutAllJoin(m[a[0].inst := a[0].id], a[1..], b);
    }
  }

  lemma PutLast(m: Index, es: seq<Entry>, e: Entry)
    ensures PutAll(m, es + [e]) == PutAll(m, es)[e.inst := e.id]
  {
    PutAllJoin(m, es, [e]);
    assert [e][1..] == [];
  }

  predicate Sorted(es: seq<Entry>) {
    forall i, j :: 0 <= i < j < |es| ==> es[i].inst <= es[j].inst
  }

  predicate IsMax(m: Index, k: nat) {
    k in m && forall j :: j in m ==> j <= k
  }

  /** After puts in ascending order, the largest key is the last put, at its latest place. */
  lemma {:induction false} LastIsMax(es: seq<Entry>)
    requires Sorted(es) && es != []
    ensures var m := PutAll(map[], es);
      var e := es[|es| - 1];
      IsMax(m, e.inst) && m[e.inst] == e.id
  {
    var n := |es| - 1;
    assert es == es[..n] + [es[n]];
    PutLast(map[], es[..n], es[n]);
    if n > 0 {
      LastIsMax(es[..n]);
      assert es[n - 1].inst <= es[n].inst;
    } else {
      assert es[..n] == [];
    }
  }

  /** What is left once the instances below `d` are deleted. */
  function Above(m: Index, d: nat): Index {
    map k | k in m && k >= d :: m[k]
  }

  lemma {:induction false} PutAllAbove(m: Index, es: seq<Entry>, d: nat)
    requires forall e :: e in es ==> e.inst >= d
    ensures PutAll(Above(m, d), es) == Above(PutAll(m, es), d)
    decreases |es|
  {
    if es != [] {
      var e := es[0];
      assert e in es;
      assert Above(m, d)[e.inst := e.id] == Above(m[e.inst := e.id], d);
      PutAllAbove(m[e.inst := e.id], es[1..], d);
    }
  }

  // ---------------------------------------------------------------- the puts behind the files

  function IdOf(cd: Codec, f: nat, rs: seq<Rec>, k: nat): FileId
    requires k < |rs|
  {
    FileId(f, Offset(rs, k), cd.crc(Body(rs[k])))
  }

  function Puts(cd: Codec, f: nat, rs: seq<Rec>): (es: seq<Entry>)
    ensures |es| == |rs|
  {
    seq(|rs|, k requires 0 <= k < |rs| => Entry(rs[k].inst, IdOf(cd, f, rs, k)))
  }

  /** `recs[f]` are the records ever written to file `f`. */
  function PutsFrom(cd: Codec, recs: seq<seq<Rec>>, f: nat): seq<Entry>
    decreases |recs| - f
  {
    if f >= |recs| then [] else Puts(cd, f, recs[f]) + PutsFrom(cd, recs, f + 1)
  }

  function History(cd: Codec, recs: seq<seq<Rec>>): seq<Entry> {
    PutsFrom(cd, recs, 0)
  }

  function Suffix(cd: Codec, recs: seq<seq<Rec>>, f: nat, k: nat): seq<Entry>
    requires f < |recs| && k <= |recs[f]|
  {
    Puts(cd, f, recs[f])[k..] + PutsFrom(cd, recs, f + 1)
  }

  /** Every put of the history is some record of some file. */
  lemma {:induction false} Locate(cd: Codec, recs: seq<seq<Rec>>, g: nat, q: nat) returns (f: nat, k: nat)
    requires q < |PutsFrom(cd, recs, g)|
    ensures g <= f < |recs| && k < |recs[f]|
    ensures PutsFrom(cd, recs, g)[q..] == Suffix(cd, recs, f, k)
    ensures PutsFrom(cd, recs, g)[q] == Entry(recs[f][k].inst, IdOf(cd, f, recs[f], k))
    decreases |recs| - g
  {
    var ps, rest := Puts(cd, g, recs[g]), PutsFrom(cd, recs, g + 1);
    if q < |ps| {
      f, k := g, q;
      assert (ps + rest)[q..] == ps[q..] + rest;
    } else {
      f, k := Locate(cd, recs, g + 1, q - |ps|);
      assert (ps + rest)[q..] == rest[q - |ps|..];
    }
  }

  // ---------------------------------------------------------------- scanning one file

  /** `writeAt`: where the scan says the next write goes; `cut`: where it truncates the file. */
  datatype Scan = Scan(ret: int, index: Index, now: nat, writeAt: Option<nat>, cut: Option<nat>)

  function ScanFile(cd: Codec, f: nat, c: Bytes, o: nat, now: nat, index: Index): (s: Scan)
    ensures s.ret == 0 || s.ret == -1
    decreases if o <= |c| then |c| - o else 0
  {
    match ReadAt(c, o)
    case End => Scan(0, index, now, Some(o), None)
    case Partial => Scan(0, index, now, None, Some(o))
    case Bad => Scan(-1, index, now, None, None)
    case Found(inst, buf, next) =>
      if inst < now then Scan(-1, index, now, None, None)
      else if !cd.parses(buf) then Scan(0, index, inst, Some(o), Some(o))
      else ScanFile(cd, f, c, next, inst, index[inst := FileId(f, o, cd.crc(c[o + 4..next]))])
  }

  predicate GoodRec(cd: Codec, r: Rec) {
    Fits(r) && cd.parses(r.buf)
  }

  predicate GoodFile(cd: Codec, rs: seq<Rec>) {
    forall k :: 0 <= k < |rs| ==> GoodRec(cd, rs[k])
  }

  predicate BadTail(tail: nat) {
    1 <= tail <= 3
  }

  lemma ScanEnd(cd: Codec, f: nat, rs: seq<Rec>, tail: nat, now: nat, index: Index)
    ensures ScanFile(cd, f, Content(rs, tail), Offset(rs, |rs|), now, index) ==
      Scan(0, index, now, if BadTail(tail) then None else Some(|EncodeAll(rs)|),
           if BadTail(tail) then Some(|EncodeAll(rs)|) else None)
  {
    OffsetEnd(rs);
    ReadTail(rs, tail);
  }

  /** One turn of the scan: the `k`-th record is found and put. */
  lemma ScanStep(cd: Codec, f: nat, rs: seq<Rec>, tail: nat, k: nat, now: nat, index: Index)
    requires k < |rs| && GoodRec(cd, rs[k]) && now <= rs[k].inst
    ensures ScanFile(cd, f, Content(rs, tail), Offset(rs, k), now, index) ==
      ScanFile(cd, f, Content(rs, tail), Offset(rs, k + 1), rs[k].inst, index[rs[k].inst := IdOf(cd, f, rs, k)])
  {
    hide EncodeAll, Content, Offset, Body, ReadAt;
    ReadRecord(rs, tail, k);
  }

  lemma PutStep(index: Index, es: seq<Entry>, k: nat)
    requires k < |es|
    ensures PutAll(index, es[k..]) == PutAll(index[es[k].inst := es[k].id], es[k + 1..])
  {
    assert es[k..][1..] == es[k + 1..];
  }

  lemma SortedStep(cd: Codec, f: nat, rs: seq<Rec>, k: nat)
    requires GoodFile(cd, rs) && Sorted(Puts(cd, f, rs)) && k < |rs|
    ensures GoodRec(cd, rs[k]) && (k + 1 < |rs| ==> rs[k].inst <= rs[k + 1].inst)
    ensures Puts(cd, f, rs)[k] == Entry(rs[k].inst, IdOf(cd, f, rs, k))
  {
    if k + 1 < |rs| {
      assert Puts(cd, f, rs)[k].inst <= Puts(cd, f, rs)[k + 1].inst;
    }
  }

  /** The scan finds every record from the `k`-th on, and the end of the data unless the tail is torn. */
  lemma {:induction false} ScanGoodFile(cd: Codec, f: nat, rs: seq<Rec>, tail: nat, k: nat, now: nat, index: Index)
    requires k <= |rs| && GoodFile(cd, rs) && Sorted(Puts(cd, f, rs))
    requires k < |rs| ==> now <= rs[k].inst
    ensures ScanFile(cd, f, Content(rs, tail), Offset(rs, k), now, index) ==
      Scan(0, PutAll(index, Puts(cd, f, rs)[k..]), if k < |rs| then rs[|rs| - 1].inst else now,
           if BadTail(tail) then None else Some(|EncodeAll(rs)|),
           if BadTail(tail) then Some(|EncodeAll(rs)|) else None)
    decreases |rs| - k
  {
    if k == |rs| {
      ScanEnd(cd, f, rs, tail, now, index);
      assert Puts(cd, f, rs)[k..] == [];
    } else {
      hide *;
      SortedStep(cd, f, rs, k);
      ScanStep(cd, f, rs, tail, k, now, index);
      PutStep(index, Puts(cd, f, rs), k);
      ScanGoodFile(cd, f, rs, tail, k + 1, rs[k].inst, index[rs[k].inst := IdOf(cd, f, rs, k)]);
    }
  }

  // ---------------------------------------------------------------- damaged files

  /** One turn of the scan, whatever follows the records. */
  lemma ScanBefore(cd: Codec, f: nat, rs: seq<Rec>, rest: Bytes, k: nat, now: nat, index: Index)
    requires k < |rs| && GoodRec(cd, rs[k]) && now <= rs[k].inst
    ensures ScanFile(cd, f, EncodeAll(rs) + rest, Offset(rs, k), now, index) ==
      ScanFile(cd, f, EncodeAll(rs) + rest, Offset(rs, k + 1), rs[k].inst, index[rs[k].inst := IdOf(cd, f, rs, k)])
  {
    hide EncodeAll, Offset, Body, ReadAt;
    ReadBefore(rs, rest, k);
  }

  /** The instance of the last record, or `now` when there is none. */
  function LastInst(rs: seq<Rec>, now: nat): nat {
    if rs == [] then now else rs[|rs| - 1].inst
  }

  /** The scan gets past good records whatever follows them. */
  lemma {:induction false} ScanReaches(cd: Codec, f: nat, rs: seq<Rec>, rest: Bytes, k: nat, now: nat, index: Index)
    requires k <= |rs| && GoodFile(cd, rs) && Sorted(Puts(cd, f, rs))
    requires k < |rs| ==> now <= rs[k].inst
    ensures ScanFile(cd, f, EncodeAll(rs) + rest, Offset(rs, k), now, index) ==
      ScanFile(cd, f, EncodeAll(rs) + rest, |EncodeAll(rs)|, LastInst(rs[k..], now), PutAll(index, Puts(cd, f, rs)[k..]))
    decreases |rs| - k
  {
    if k == |rs| {
      OffsetEnd(rs);
      assert Puts(cd, f, rs)[k..] == [];
    } else {
      hide *;
      SortedStep(cd, f, rs, k);
      ScanBefore(cd, f, rs, rest, k, now, index);
      PutStep(index, Puts(cd, f, rs), k);
      ScanReaches(cd, f, rs, rest, k + 1, rs[k].inst, index[rs[k].inst := IdOf(cd, f, rs, k)]);
      LastStep(rs, k, now);
    }
  }

  lemma LastStep(rs: seq<Rec>, k: nat, now: nat)
    requires k < |rs|
    ensures LastInst(rs[k..], now) == LastInst(rs[k + 1..], rs[k].inst)
  {
  }

  /** What the scan of a whole file makes of what follows its good records. */
  lemma ScanRest(cd: Codec, f: nat, rs: seq<Rec>, rest: Bytes, now: nat, index: Index)
    requires GoodFile(cd, rs) && Sorted(Puts(cd, f, rs)) && (rs != [] ==> now <= rs[0].inst)
    ensures ScanFile(cd, f, EncodeAll(rs) + rest, 0, now, index) ==
      ScanFile(cd, f, EncodeAll(rs) + rest, |EncodeAll(rs)|, LastInst(rs, now), PutAll(index, Puts(cd, f, rs)))
  {
    hide *;
    ScanReaches(cd, f, rs, rest, 0, now, index);
    assert Offset(rs, 0) == 0 by {
      NoOffset(rs);
    }
    assert rs[0..] == rs && Puts(cd, f, rs)[0..] == Puts(cd, f, rs);
  }

  lemma NoOffset(rs: seq<Rec>)
    ensures Offset(rs, 0) == 0
  {
    assert rs[..0] == [];
  }

  /**
   * A last record of which only the first `m` bytes were written: all records before it
   * are put and the file is cut back to them; but where the length it claims is more than
   * the whole file, the start is refused.
   */
  lemma ScanTorn(cd: Codec, f: nat, rs: seq<Rec>, r: Rec, m: nat, now: nat, index: Index)
    requires GoodFile(cd, rs) && Sorted(Puts(cd, f, rs)) && (rs != [] ==> now <= rs[0].inst)
    requires Fits(r) && 0 < m < |Encode(r)|
    ensures var c := EncodeAll(rs) + Encode(r)[..m];
      var s := ScanFile(cd, f, c, 0, now, index);
      if m >= 4 && 8 + |r.buf| > |c| then s.ret == -1
      else
        && s.ret == 0 && s.index == PutAll(index, Puts(cd, f, rs)) && s.writeAt == None
        && Truncate(map[f := c], f, s.cut) == map[f := EncodeAll(rs)]
  {
    hide Encode, EncodeAll, Puts, Sorted, ReadAt, PutAll;
    ScanRest(cd, f, rs, Encode(r)[..m], now, index);
    ReadTorn(rs, r, m);
    Shortened(rs, Encode(r)[..m]);
  }

  lemma Shortened(rs: seq<Rec>, rest: Bytes)
    ensures (EncodeAll(rs) + rest)[..|EncodeAll(rs)|] == EncodeAll(rs)
  {
  }

  /**
   * A whole record that does not belong there: an instance below the one before it refuses
   * the start, a value that does not parse is cut off with all that follows it.
   */
  lemma ScanForeign(cd: Codec, f: nat, rs: seq<Rec>, r: Rec, rest: Bytes, now: nat, index: Index)
    requires GoodFile(cd, rs) && Sorted(Puts(cd, f, rs)) && (rs != [] ==> now <= rs[0].inst)
    requires Fits(r) && (r.inst < LastInst(rs, now) || !cd.parses(r.buf))
    ensures var c := EncodeAll(rs) + (Encode(r) + rest);
      var s := ScanFile(cd, f, c, 0, now, index);
      if r.inst < LastInst(rs, now) then s.ret == -1
      else
        && s.ret == 0 && s.index == PutAll(index, Puts(cd, f, rs)) && s.writeAt == Some(|EncodeAll(rs)|)
        && Truncate(map[f := c], f, s.cut) == map[f := EncodeAll(rs)]
  {
    hide Encode, EncodeAll, Puts, Sorted, ReadAt, PutAll, Fits;
    var o := |EncodeAll(rs)|;
    var c := EncodeAll(rs) + (Encode(r) + rest);
    ScanRest(cd, f, rs, Encode(r) + rest, now, index);
    assert c[o..o + |Encode(r)|] == Encode(r);
    ReadEncoded(c, o, r);
    Shortened(rs, Encode(r) + rest);
  }

  // ---------------------------------------------------------------- scanning all files

  type Files = map<nat, Bytes>

  datatype Rebuilt = Rebuilt(ret: int, index: Index, writeAt: nat, files: Files)

  function Truncate(files: Files, f: nat, cut: Option<nat>): (r: Files)
    requires f in files
    ensures r.Keys == files.Keys
  {
    if cut.Some? && cut.value <= |files[f]| then files[f := files[f][..cut.value]] else files
  }

  function FilesFrom(files: Files, f: nat): set<nat> {
    set g | g in files && g >= f
  }

  /** File after file, until one is missing; `meta` is the newest file the meta data knows. */
  function RebuildFiles(cd: Codec, files: Files, meta: int, f: nat, o: nat, now: nat, index: Index, writeAt: nat): Rebuilt
    decreases FilesFrom(files, f)
  {
    if f !in files then
      Rebuilt(if f != 0 && f != meta + 1 then -1 else 0, index, writeAt, files)
    else
      var s := ScanFile(cd, f, files[f], o, now, index);
      var w := if s.writeAt.Some? then s.writeAt.value else writeAt;
      var files1 := Truncate(files, f, s.cut);
      if s.ret != 0 then Rebuilt(s.ret, s.index, w, files1)
      else
        assert FilesFrom(files1, f + 1) < FilesFrom(files, f) by { assert f in FilesFrom(files, f); }
        RebuildFiles(cd, files1, meta, f + 1, 0, s.now, s.index, w)
  }

  /** The files from `f` on hold the records, and nothing comes after them. */
  predicate Stored(recs: seq<seq<Rec>>, tails: seq<nat>, files: Files, f: nat) {
    && |tails| == |recs|
    && |recs| !in files
    && forall g :: f <= g < |recs| ==> g in files && files[g] == Content(recs[g], tails[g])
  }

  /** The end of the last file, from `f` on, whose tail is not torn. */
  function LastEnd(recs: seq<seq<Rec>>, tails: seq<nat>, f: nat, w: nat): nat
    requires |tails| == |recs|
    decreases |recs| - f
  {
    if f >= |recs| then w
    else LastEnd(recs, tails, f + 1, if BadTail(tails[f]) then w else |EncodeAll(recs[f])|)
  }

  predicate GoodFiles(cd: Codec, recs: seq<seq<Rec>>) {
    forall f :: 0 <= f < |recs| ==> GoodFile(cd, recs[f])
  }

  lemma TailSorted(cd: Codec, recs: seq<seq<Rec>>, f: nat)
    requires f < |recs| && Sorted(PutsFrom(cd, recs, f))
    ensures Sorted(Puts(cd, f, recs[f])) && Sorted(PutsFrom(cd, recs, f + 1))
    ensures recs[f] != [] ==>
      forall e :: e in PutsFrom(cd, recs, f + 1) ==> recs[f][|recs[f]| - 1].inst <= e.inst
  {
    var ps, rest := Puts(cd, f, recs[f]), PutsFrom(cd, recs, f + 1);
    assert ps + rest == PutsFrom(cd, recs, f);
    assert recs[f] != [] ==> ps[|ps| - 1].inst == recs[f][|recs[f]| - 1].inst;
    hide PutsFrom, Puts;
    SortedParts(ps, rest);
  }

  lemma SortedParts(a: seq<Entry>, b: seq<Entry>)
    requires Sorted(a + b)
    ensures Sorted(a) && Sorted(b)
    ensures a != [] ==> forall e :: e in b ==> a[|a| - 1].inst <= e.inst
  {
    var es := a + b;
    forall i, j | 0 <= i < j < |a|
      ensures a[i].inst <= a[j].inst
    {
      assert es[i].inst <= es[j].inst;
    }
    forall i, j | 0 <= i < j < |b|
      ensures b[i].inst <= b[j].inst
    {
      assert es[|a| + i].inst <= es[|a| + j].inst;
    }
    if a != [] {
      forall e | e in b
        ensures a[|a| - 1].inst <= e.inst
      {
        var j :| 0 <= j < |b| && b[j] == e;
        assert es[|a| - 1].inst <= es[|a| + j].inst;
      }
    }
  }

  /** A file after the scan: the torn tail is gone. */
  function Trim(tail: nat): nat {
    if BadTail(tail) then 0 else tail
  }

  /**
   * Everything from record `k` of file `f` on, up to the first file that is missing, is
   * put again, and nothing else; the start is refused exactly if that is not the file
   * behind the newest one that the meta data knows.
   */
  lemma {:induction false} RebuildGoodFiles(cd: Codec, recs: seq<seq<Rec>>, tails: seq<nat>, files: Files,
      meta: int, f: nat, k: nat, now: nat, index: Index, w: nat)
    requires Stored(recs, tails, files, f) && GoodFiles(cd, recs)
    requires f < |recs| && k <= |recs[f]| && Sorted(PutsFrom(cd, recs, f))
    requires k < |recs[f]| ==> now <= recs[f][k].inst
    requires k == |recs[f]| ==> forall e :: e in PutsFrom(cd, recs, f + 1) ==> now <= e.inst
    ensures var r := RebuildFiles(cd, files, meta, f, Offset(recs[f], k), now, index, w);
      && r.ret == (if |recs| == meta + 1 then 0 else -1)
      && r.index == PutAll(index, Suffix(cd, recs, f, k))
      && r.writeAt == LastEnd(recs, tails, f, w)
      && r.files.Keys == files.Keys
      && forall g :: f <= g < |recs| ==> r.files[g] == Content(recs[g], Trim(tails[g]))
    ensures var r := RebuildFiles(cd, files, meta, f, Offset(recs[f], k), now, index, w);
      forall g :: g in files && g < f ==> r.files[g] == files[g]
    decreases |recs| - f
  {
    hide *;
    StoredAt(cd, recs, tails, files, f);
    var rs, tail := recs[f], tails[f];
    TailSorted(cd, recs, f);
    ScanGoodFile(cd, f, rs, tail, k, now, index);
    var s := ScanFile(cd, f, files[f], Offset(rs, k), now, index);
    var files1 := Truncate(files, f, s.cut);
    ScannedTail(rs, tail);
    ScannedFiles(recs, tails, files, f, s.cut);
    var w1 := if s.writeAt.Some? then s.writeAt.value else w;
    OneFile(cd, files, meta, f, Offset(rs, k), now, index, w);
    SuffixParts(cd, recs, f, k, index);
    LastEndStep(recs, tails, f, w);
    if f + 1 < |recs| {
      StartOfFile(cd, recs, f + 1);
      ScannedNow(cd, recs, f, k, now);
      NextNow(cd, recs, f + 1, s.now);
      RebuildGoodFiles(cd, recs, tails, files1, meta, f + 1, 0, s.now, s.index, w1);
    } else {
      NoFile(cd, recs, tails, files1, meta, f + 1, s.now, s.index, w1);
    }
  }

  lemma StoredAt(cd: Codec, recs: seq<seq<Rec>>, tails: seq<nat>, files: Files, f: nat)
    requires Stored(recs, tails, files, f) && GoodFiles(cd, recs) && f < |recs|
    ensures |tails| == |recs| && f in files && files[f] == Content(recs[f], tails[f]) && GoodFile(cd, recs[f])
  {
  }

  lemma OneFile(cd: Codec, files: Files, meta: int, f: nat, o: nat, now: nat, index: Index, w: nat)
    requires f in files
    ensures var s := ScanFile(cd, f, files[f], o, now, index);
      s.ret == 0 ==>
        RebuildFiles(cd, files, meta, f, o, now, index, w) ==
        RebuildFiles(cd, Truncate(files, f, s.cut), meta, f + 1, 0, s.now, s.index,
          if s.writeAt.Some? then s.writeAt.value else w)
  {
  }

  lemma ScannedFiles(recs: seq<seq<Rec>>, tails: seq<nat>, files: Files, f: nat, cut: Option<nat>)
    requires Stored(recs, tails, files, f) && f < |recs|
    requires cut == if BadTail(tails[f]) then Some(|EncodeAll(recs[f])|) else None
    ensures f in files
    ensures var files1 := Truncate(files, f, cut);
      && Stored(recs, tails, files1, f + 1)
      && files1[f] == Content(recs[f], Trim(tails[f]))
      && forall g :: g in files && g != f ==> files1[g] == files[g]
  {
    ScannedTail(recs[f], tails[f]);
  }

  lemma SuffixParts(cd: Codec, recs: seq<seq<Rec>>, f: nat, k: nat, index: Index)
    requires f < |recs| && k <= |recs[f]|
    ensures PutAll(index, Suffix(cd, recs, f, k)) ==
      PutAll(PutAll(index, Puts(cd, f, recs[f])[k..]), PutsFrom(cd, recs, f + 1))
  {
    PutAllJoin(index, Puts(cd, f, recs[f])[k..], PutsFrom(cd, recs, f + 1));
  }

  lemma LastEndStep(recs: seq<seq<Rec>>, tails: seq<nat>, f: nat, w: nat)
    requires |tails| == |recs| && f < |recs|
    ensures LastEnd(recs, tails, f, w) ==
      LastEnd(recs, tails, f + 1, if BadTail(tails[f]) then w else |EncodeAll(recs[f])|)
  {
  }

  lemma ScannedNow(cd: Codec, recs: seq<seq<Rec>>, f: nat, k: nat, now: nat)
    requires f + 1 < |recs| && k <= |recs[f]|
    requires recs[f] != [] ==>
      forall e :: e in PutsFrom(cd, recs, f + 1) ==> recs[f][|recs[f]| - 1].inst <= e.inst
    requires k == |recs[f]| ==> forall e :: e in PutsFrom(cd, recs, f + 1) ==> now <= e.inst
    ensures var now' := if k < |recs[f]| then recs[f][|recs[f]| - 1].inst else now;
      forall e :: e in PutsFrom(cd, recs, f + 1) ==> now' <= e.inst
  {
  }

  lemma NoFile(cd: Codec, recs: seq<seq<Rec>>, tails: seq<nat>, files: Files, meta: int, f: nat, now: nat, index: Index, w: nat)
    requires Stored(recs, tails, files, f) && f == |recs| > 0
    ensures RebuildFiles(cd, files, meta, f, 0, now, index, w) == Rebuilt(if f == meta + 1 then 0 else -1, index, w, files)
    ensures PutsFrom(cd, recs, f) == [] && LastEnd(recs, tails, f, w) == w && PutAll(index, []) == index
  {
  }

  lemma ScannedTail(rs: seq<Rec>, tail: nat)
    ensures |EncodeAll(rs)| <= |Content(rs, tail)|
    ensures (if BadTail(tail) then Content(rs, tail)[..|EncodeAll(rs)|] else Content(rs, tail)) == Content(rs, Trim(tail))
  {
  }

  lemma StartOfFile(cd: Codec, recs: seq<seq<Rec>>, f: nat)
    requires f < |recs|
    ensures Offset(recs[f], 0) == 0 && Suffix(cd, recs, f, 0) == PutsFrom(cd, recs, f)
  {
    assert recs[f][..0] == [];
  }

  lemma NextNow(cd: Codec, recs: seq<seq<Rec>>, f: nat, now: nat)
    requires f < |recs| && forall e :: e in PutsFrom(cd, recs, f) ==> now <= e.inst
    ensures recs[f] != [] ==> now <= recs[f][0].inst
    ensures forall e :: e in PutsFrom(cd, recs, f + 1) ==> now <= e.inst
  {
    if recs[f] != [] {
      assert Puts(cd, f, recs[f])[0] in PutsFrom(cd, recs, f);
    }
  }

  // ---------------------------------------------------------------- the theorem

  /** Where the rebuild starts: the last surviving put, or the very beginning. */
  datatype Begin = Begin(f: nat, o: nat, now: nat)

  function BeginOf(m: Index, k: nat): Begin {
    if k in m then Begin(m[k].file, m[k].offset, k) else Begin(0, 0, 0)
  }

  /** `m` is what a crash left of the index: the first `p` puts, less the instances deleted. */
  predicate Survives(cd: Codec, recs: seq<seq<Rec>>, p: nat, d: nat, m: Index) {
    && p <= |History(cd, recs)|
    && m == Above(PutAll(map[], History(cd, recs)[..p]), d)
  }

  /**
   * From an index that lost any suffix of its puts, the rebuild restores exactly the
   * full index.  The last surviving put must not be deleted and its file must exist;
   * with nothing left, no instance and no file may have been deleted.
   */
  lemma RebuildRestoresIndex(cd: Codec, recs: seq<seq<Rec>>, tails: seq<nat>, files: Files, p: nat, d: nat, m: Index, k: nat)
    requires recs != [] && GoodFiles(cd, recs) && Sorted(History(cd, recs)) && Survives(cd, recs, p, d, m)
    requires if m == map[] then p == 0 && d == 0 && k == 0 else IsMax(m, k)
    requires Stored(recs, tails, files, BeginOf(m, k).f)
    ensures var b := BeginOf(m, k);
      var r := RebuildFiles(cd, files, |recs| - 1, b.f, b.o, b.now, m, 0);
      && b.f < |recs|
      && r.ret == 0
      && r.index == Above(PutAll(map[], History(cd, recs)), d)
      && r.writeAt == LastEnd(recs, tails, b.f, 0)
      && r.files.Keys == files.Keys
      && (forall g :: b.f <= g < |recs| ==> r.files[g] == Content(recs[g], Trim(tails[g])))
      && (forall g :: g in files && g < b.f ==> r.files[g] == files[g])
  {
    hide RebuildFiles, Content, EncodeAll, Offset, Puts;
    var h := History(cd, recs);
    if p == 0 {
      assert h[..0] == [];
      assert m == map[];
      StartOfFile(cd, recs, 0);
      NextNow(cd, recs, 0, 0);
      RebuildGoodFiles(cd, recs, tails, files, |recs| - 1, 0, 0, 0, m, 0);
      assert Above(PutAll(map[], h), 0) == PutAll(map[], h);
    } else {
      var q := p - 1;
      var f, i := Locate(cd, recs, 0, q);
      SurvivorIsLast(cd, recs, p, d, m, k);
      PutsFromSorted(cd, recs, 0, f);
      RebuildGoodFiles(cd, recs, tails, files, |recs| - 1, f, i, k, m, 0);
      ReplaySuffix(h, p, d, m);
    }
  }

  /** The largest surviving key is the last surviving put. */
  lemma SurvivorIsLast(cd: Codec, recs: seq<seq<Rec>>, p: nat, d: nat, m: Index, k: nat)
    requires Sorted(History(cd, recs)) && Survives(cd, recs, p, d, m) && p > 0 && IsMax(m, k)
    ensures var e := History(cd, recs)[p - 1];
      k == e.inst && k >= d && m[k] == e.id
  {
    var h := History(cd, recs)[..p];
    LastIsMax(h);
    var e := h[p - 1];
    assert k in PutAll(map[], h) && k <= e.inst;
    assert e.inst in m;
  }

  lemma {:induction false} PutsFromSorted(cd: Codec, recs: seq<seq<Rec>>, g: nat, f: nat)
    requires g <= f < |recs| && Sorted(PutsFrom(cd, recs, g))
    ensures Sorted(PutsFrom(cd, recs, f))
    decreases f - g
  {
    hide *;
    if g < f {
      TailSorted(cd, recs, g);
      PutsFromSorted(cd, recs, g + 1, f);
    }
  }

  lemma PutFirst(m: Index, e: Entry, es: seq<Entry>)
    ensures PutAll(m, [e] + es) == PutAll(m[e.inst := e.id], es)
  {
    assert ([e] + es)[1..] == es;
  }

  /** Putting the last surviving entry again, then the lost ones. */
  lemma ReplaySuffix(h: seq<Entry>, p: nat, d: nat, m: Index)
    requires Sorted(h) && 0 < p <= |h| && m == Above(PutAll(map[], h[..p]), d) && h[p - 1].inst >= d
    ensures PutAll(m, h[p - 1..]) == Above(PutAll(map[], h), d)
  {
    var a, b := h[..p], h[p..];
    var e := h[p - 1];
    assert a + b == h && a[p - 1] == e;
    SortedParts(a, b);
    LastIsMax(a);
    assert m[e.inst := e.id] == m;
    assert h[p - 1..] == [e] + b;
    PutFirst(m, e, b);
    hide PutAll, Above, Sorted;
    PutAllAbove(PutAll(map[], a), b, d);
    PutAllJoin(map[], a, b);
  }

  /**
   * The next write goes behind the last record of the newest file if and only if that
   * file has no torn tail, or the offset left over from the files before it happens to
   * be the same.
   */
  lemma {:induction false} WriteOffsetExact(recs: seq<seq<Rec>>, tails: seq<nat>, f: nat, w: nat)
    requires |tails| == |recs| && f < |recs|
    ensures var n := |recs| - 1;
      LastEnd(recs, tails, f, w) ==
        if BadTail(tails[n]) then LastEnd(recs[..n], tails[..n], f, w) else |EncodeAll(recs[n])|
    decreases |recs| - f
  {
    var n := |recs| - 1;
    if f < n {
      WriteOffsetExact(recs, tails, f + 1, if BadTail(tails[f]) then w else |EncodeAll(recs[f])|);
    }
  }

  lemma EncodedNotEmpty(rs: seq<Rec>)
    ensures |EncodeAll(rs)| == 0 <==> rs == []
  {
  }

  /** When the rebuild starts in the newest file, a torn tail always costs the write offset. */
  lemma NewestOffsetExact(recs: seq<seq<Rec>>, tails: seq<nat>)
    requires |tails| == |recs| > 0 && recs[|recs| - 1] != []
    ensures var n := |recs| - 1;
      LastEnd(recs, tails, n, 0) == |EncodeAll(recs[n])| <==> !BadTail(tails[n])
  {
    WriteOffsetExact(recs, tails, |recs| - 1, 0);
    EncodedNotEmpty(recs[|recs| - 1]);
  }

  // ---------------------------------------------------------------- the map behind the index

  /** All records in the order they were written. */
  function Flat(recs: seq<seq<Rec>>, f: nat): seq<Rec>
    decreases |recs| - f
  {
    if f >= |recs| then [] else recs[f] + Flat(recs, f + 1)
  }

  /** The plain map: each instance has the value last put. */
  function Values(rs: seq<Rec>): map<nat, Bytes> {
    if rs == [] then map[] else Values(rs[..|rs| - 1])[rs[|rs| - 1].inst := rs[|rs| - 1].buf]
  }

  function ValuesAbove(recs: seq<seq<Rec>>, d: nat): map<nat, Bytes> {
    var m := Values(Flat(recs, 0));
    map k | k in m && k >= d :: m[k]
  }

  lemma {:induction false} FlatAt(cd: Codec, recs: seq<seq<Rec>>, g: nat, q: nat) returns (f: nat, k: nat)
    requires q < |PutsFrom(cd, recs, g)|
    ensures |Flat(recs, g)| == |PutsFrom(cd, recs, g)|
    ensures g <= f < |recs| && k < |recs[f]| && Flat(recs, g)[q] == recs[f][k]
    ensures PutsFrom(cd, recs, g)[q] == Entry(recs[f][k].inst, IdOf(cd, f, recs[f], k))
    decreases |recs| - g
  {
    FlatLength(cd, recs, g);
    if q < |recs[g]| {
      f, k := g, q;
    } else {
      f, k := FlatAt(cd, recs, g + 1, q - |recs[g]|);
    }
  }

  lemma {:induction false} FlatLength(cd: Codec, recs: seq<seq<Rec>>, g: nat)
    ensures |Flat(recs, g)| == |PutsFrom(cd, recs, g)|
    decreases |recs| - g
  {
    if g < |recs| {
      FlatLength(cd, recs, g + 1);
    }
  }

  /** Index and map are decided by the same put. */
  lemma {:induction false} LastPut(es: seq<Entry>, rs: seq<Rec>, k: nat) returns (i: nat)
    requires |es| == |rs| && forall j :: 0 <= j < |es| ==> es[j].inst == rs[j].inst
    requires k in PutAll(map[], es)
    ensures k in Values(rs)
    ensures i < |es| && es[i].inst == k && PutAll(map[], es)[k] == es[i].id && Values(rs)[k] == rs[i].buf
  {
    var n := |es| - 1;
    if es != [] {
      assert es == es[..n] + [es[n]];
      PutLast(map[], es[..n], es[n]);
      if es[n].inst == k {
        i := n;
      } else {
        i := LastPut(es[..n], rs[..n], k);
      }
    }
  }

  lemma {:induction false} SameKeys(es: seq<Entry>, rs: seq<Rec>)
    requires |es| == |rs| && forall j :: 0 <= j < |es| ==> es[j].inst == rs[j].inst
    ensures PutAll(map[], es).Keys == Values(rs).Keys
  {
    var n := |es| - 1;
    if es != [] {
      assert es == es[..n] + [es[n]];
      PutLast(map[], es[..n], es[n]);
      SameKeys(es[..n], rs[..n]);
    }
  }

  lemma SameInsts(cd: Codec, recs: seq<seq<Rec>>)
    ensures |Flat(recs, 0)| == |History(cd, recs)|
    ensures forall j :: 0 <= j < |History(cd, recs)| ==> History(cd, recs)[j].inst == Flat(recs, 0)[j].inst
  {
    FlatLength(cd, recs, 0);
    forall j | 0 <= j < |History(cd, recs)|
      ensures History(cd, recs)[j].inst == Flat(recs, 0)[j].inst
    {
      var f, k := FlatAt(cd, recs, 0, j);
    }
  }

  /** Every index entry points at the record that holds the value of its instance. */
  lemma EntryPoints(cd: Codec, recs: seq<seq<Rec>>, k: nat) returns (f: nat, j: nat)
    requires k in PutAll(map[], History(cd, recs))
    ensures k in Values(Flat(recs, 0))
    ensures f < |recs| && j < |recs[f]|
    ensures PutAll(map[], History(cd, recs))[k] == IdOf(cd, f, recs[f], j)
    ensures recs[f][j] == Rec(k, Values(Flat(recs, 0))[k])
  {
    SameInsts(cd, recs);
    var i := LastPut(History(cd, recs), Flat(recs, 0), k);
    f, j := FlatAt(cd, recs, 0, i);
  }

  // ---------------------------------------------------------------- one more record

  /** The records after an append: to the newest file, or to a new one. */
  function Appended(recs: seq<seq<Rec>>, r: Rec, newFile: bool): (s: seq<seq<Rec>>)
    requires recs != []
  {
    if newFile then recs + [[r]] else recs[|recs| - 1 := recs[|recs| - 1] + [r]]
  }

  lemma {:induction false} AppendedFrom(cd: Codec, recs: seq<seq<Rec>>, r: Rec, newFile: bool, g: nat)
    requires recs != [] && g < |recs|
    ensures var s := Appended(recs, r, newFile);
      var f := |s| - 1;
      && s[f] != []
      && PutsFrom(cd, s, g) == PutsFrom(cd, recs, g) + [Entry(r.inst, IdOf(cd, f, s[f], |s[f]| - 1))]
      && Flat(s, g) == Flat(recs, g) + [r]
    decreases |recs| - g
  {
    hide IdOf, Puts;
    var s := Appended(recs, r, newFile);
    var f := |s| - 1;
    var e := Entry(r.inst, IdOf(cd, f, s[f], |s[f]| - 1));
    if g < |recs| - 1 {
      AppendedFrom(cd, recs, r, newFile, g + 1);
      assert s[g] == recs[g];
      assert PutsFrom(cd, s, g) == Puts(cd, g, recs[g]) + (PutsFrom(cd, recs, g + 1) + [e]);
      assert Flat(s, g) == recs[g] + (Flat(recs, g + 1) + [r]);
    } else {
      AppendedLast(cd, recs, r, newFile);
    }
  }

  lemma AppendedLast(cd: Codec, recs: seq<seq<Rec>>, r: Rec, newFile: bool)
    requires recs != []
    ensures var s := Appended(recs, r, newFile);
      var f := |s| - 1;
      var g := |recs| - 1;
      && PutsFrom(cd, s, g) == PutsFrom(cd, recs, g) + [Entry(r.inst, IdOf(cd, f, s[f], |s[f]| - 1))]
      && Flat(s, g) == Flat(recs, g) + [r]
  {
    hide IdOf;
    var s := Appended(recs, r, newFile);
    var g := |recs| - 1;
    assert PutsFrom(cd, recs, g + 1) == [] && Flat(recs, g + 1) == [];
    assert PutsFrom(cd, s, |s|) == [] && Flat(s, |s|) == [];
    if newFile {
      assert s[g] == recs[g] && s[g + 1] == [r];
      assert Puts(cd, g + 1, [r]) == [Entry(r.inst, IdOf(cd, g + 1, [r], 0))];
      assert PutsFrom(cd, s, g + 1) == Puts(cd, g + 1, [r]);
      assert Flat(s, g + 1) == [r];
    } else {
      PutsAppend(cd, g, recs[g], r);
    }
  }

  lemma PutsAppend(cd: Codec, f: nat, rs: seq<Rec>, r: Rec)
    ensures Puts(cd, f, rs + [r]) == Puts(cd, f, rs) + [Entry(r.inst, IdOf(cd, f, rs + [r], |rs|))]
  {
    forall k | 0 <= k < |rs|
      ensures IdOf(cd, f, rs + [r], k) == IdOf(cd, f, rs, k)
    {
      assert (rs + [r])[..k] == rs[..k];
    }
  }

  lemma ValuesPut(rs: seq<Rec>, r: Rec)
    ensures Values(rs + [r]) == Values(rs)[r.inst := r.buf]
  {
    assert (rs + [r])[..|rs|] == rs;
  }

  // ---------------------------------------------------------------- files behind the index

  lemma {:induction false} PutFiles(cd: Codec, recs: seq<seq<Rec>>, g: nat, i: nat, j: nat)
    requires i <= j < |PutsFrom(cd, recs, g)|
    ensures g <= PutsFrom(cd, recs, g)[i].id.file <= PutsFrom(cd, recs, g)[j].id.file < |recs|
    decreases |recs| - g
  {
    var n := |Puts(cd, g, recs[g])|;
    if i >= n {
      PutFiles(cd, recs, g + 1, i - n, j - n);
    } else if j >= n {
      PutFiles(cd, recs, g + 1, j - n, j - n);
    }
  }

  /** The put that decides `k`: none after it is for `k`. */
  lemma {:induction false} Deciding(es: seq<Entry>, k: nat) returns (i: nat)
    requires k in PutAll(map[], es)
    ensures i < |es| && es[i].inst == k && PutAll(map[], es)[k] == es[i].id
    ensures forall j :: i < j < |es| ==> es[j].inst != k
  {
    var n := |es| - 1;
    if es != [] {
      assert es == es[..n] + [es[n]];
      PutLast(map[], es[..n], es[n]);
      if es[n].inst == k {
        i := n;
      } else {
        i := Deciding(es[..n], k);
      }
    }
  }

  lemma {:induction false} Decided(es: seq<Entry>, i: nat)
    requires i < |es| && forall j :: i < j < |es| ==> es[j].inst != es[i].inst
    ensures es[i].inst in PutAll(map[], es) && PutAll(map[], es)[es[i].inst] == es[i].id
  {
    var n := |es| - 1;
    assert es == es[..n] + [es[n]];
    PutLast(map[], es[..n], es[n]);
    if i < n {
      Decided(es[..n], i);
    }
  }

  /** Later instances lie in later files. */
  lemma IndexFilesAscend(cd: Codec, recs: seq<seq<Rec>>, j: nat, k: nat)
    requires Sorted(History(cd, recs)) && j <= k
    requires var m := PutAll(map[], History(cd, recs)); j in m && k in m
    ensures var m := PutAll(map[], History(cd, recs)); m[j].file <= m[k].file < |recs|
  {
    var h := History(cd, recs);
    var a := Deciding(h, j);
    var b := Deciding(h, k);
    if a <= b {
      PutFiles(cd, recs, 0, a, b);
    }
  }

  /** An entry of the full index either survived, or lies no earlier than the last survivor. */
  lemma RestoredFile(cd: Codec, recs: seq<seq<Rec>>, p: nat, d: nat, m: Index, k: nat)
    requires Survives(cd, recs, p, d, m) && k in Above(PutAll(map[], History(cd, recs)), d)
    ensures var id := Above(PutAll(map[], History(cd, recs)), d)[k];
      || (k in m && m[k] == id)
      || (p == 0 && id.file < |recs|)
      || (p > 0 && History(cd, recs)[p - 1].id.file <= id.file < |recs|)
  {
    var h := History(cd, recs);
    var i := Deciding(h, k);
    if i < p {
      Decided(h[..p], i);
    } else {
      PutFiles(cd, recs, 0, i, i);
      if p > 0 {
        PutFiles(cd, recs, 0, p - 1, i);
      }
    }
  }
}
