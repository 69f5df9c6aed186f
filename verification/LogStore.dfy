/** The value store and the database over it, refining a plain map. */
module LogStorage {
  import opened PaxosTypes
  import opened LogFormat
  import opened LogIndex

  function WriteAt(c: Bytes, o: nat, data: Bytes): (r: Bytes)
    requires o <= |c|
  {
    c[..o] + data + (if o + |data| <= |c| then c[o + |data|..] else [])
  }

  lemma WriteRecord(rs: seq<Rec>, tail: nat, r: Rec)
    ensures |EncodeAll(rs)| <= |Content(rs, tail)|
    ensures WriteAt(Content(rs, tail), |EncodeAll(rs)|, Encode(r)) ==
      Content(rs + [r], if tail >= |Encode(r)| then tail - |Encode(r)| else 0)
  {
    assert (rs + [r])[..|rs|] == rs;
    assert EncodeAll(rs + [r]) == EncodeAll(rs) + Encode(r);
  }

  /** The files not numbered between `start` (exclusive) and `f`. */
  function Without(files: Files, start: int, f: int): Files {
    map g | g in files && !(start < g <= f) :: files[g]
  }

  lemma EmptyFile(size: nat)
    ensures Content([], size) == Zeros(size) && |EncodeAll([])| == 0
  {
  }

  predicate FitFiles(recs: seq<seq<Rec>>) {
    forall f :: 0 <= f < |recs| ==> FitFile(recs[f])
  }

  predicate FitFile(rs: seq<Rec>) {
    forall k :: 0 <= k < |rs| ==> Fits(rs[k])
  }

  /** The existing files hold their records and nothing else. */
  ghost predicate DiskHolds(recs: seq<seq<Rec>>, tails: seq<nat>, files: Files)
    requires |tails| == |recs|
  {
    && (forall g :: g in files ==> g < |recs| && files[g] == Content(recs[g], tails[g]))
    && FitFiles(recs)
  }

  /** One more record, written behind the last one of the newest file. */
  lemma DiskAppend(recs: seq<seq<Rec>>, tails: seq<nat>, files: Files, r: Rec)
    requires |tails| == |recs| > 0 && DiskHolds(recs, tails, files) && |recs| - 1 in files && Fits(r)
    ensures var n := |recs| - 1;
      var rs, tail, data := recs[n], tails[n], Encode(r);
      && |EncodeAll(rs)| <= |files[n]|
      && DiskHolds(recs[n := rs + [r]], tails[n := if tail >= |data| then tail - |data| else 0],
                   files[n := WriteAt(files[n], |EncodeAll(rs)|, data)])
  {
    hide Content, EncodeAll, Fits, Encode, WriteAt;
    var n := |recs| - 1;
    WriteRecord(recs[n], tails[n], r);
    AppendEnd(recs[n], r);
  }

  lemma DiskNewFile(recs: seq<seq<Rec>>, tails: seq<nat>, files: Files, size: nat)
    requires |tails| == |recs| && DiskHolds(recs, tails, files)
    ensures DiskHolds(recs + [[]], tails + [size], files[|recs| := Zeros(size)])
  {
    hide Content, EncodeAll;
    EmptyFile(size);
  }

  /** The files once there is room for the next record: the same, or one more. */
  predicate Roomed(recs: seq<seq<Rec>>, recs1: seq<seq<Rec>>, newFile: bool) {
    recs1 == if newFile then recs + [[]] else recs
  }

  lemma AppendedLastly(recs: seq<seq<Rec>>, recs1: seq<seq<Rec>>, r: Rec, newFile: bool)
    requires recs != [] && Roomed(recs, recs1, newFile)
    ensures recs1 != []
    ensures var n := |recs1| - 1;
      recs1[n := recs1[n] + [r]] == Appended(recs, r, newFile)
  {
    if newFile {
      assert recs1[|recs|] == [] && [] + [r] == [r];
    }
  }

  lemma AppendEnd(rs: seq<Rec>, r: Rec)
    ensures Offset(rs + [r], |rs|) == |EncodeAll(rs)|
    ensures |EncodeAll(rs + [r])| == |EncodeAll(rs)| + |Encode(r)|
    ensures Encode(r)[4..] == Body(r)
    ensures FitFile(rs) && Fits(r) ==> FitFile(rs + [r])
  {
    assert (rs + [r])[..|rs|] == rs;
  }

  /** A place read in a file holds record `k` if it is the place of record `k`. */
  predicate Checked(cd: Codec, c: Bytes, id: FileId, r: Rec) {
    match ReadAt(c, id.offset)
    case Found(i, b, next) => id.offset + 4 <= next <= |c| && cd.crc(c[id.offset + 4..next]) == id.chk && Rec(i, b) == r
    case _ => false
  }

  lemma ReadsBack(cd: Codec, rs: seq<Rec>, tail: nat, id: FileId)
    requires FitFile(rs)
    ensures forall k: nat | k < |rs| :: id == IdOf(cd, id.file, rs, k) ==> Checked(cd, Content(rs, tail), id, rs[k])
  {
    forall k: nat | k < |rs| && id == IdOf(cd, id.file, rs, k)
      ensures Checked(cd, Content(rs, tail), id, rs[k])
    {
      ReadRecord(rs, tail, k);
    }
  }

  class LogStore {
    const cd: Codec
    const fileMax: nat
    var files: Files
    /** The newest file, as the meta data has it; its size and the next write offset. */
    var fileId: nat
    var nowSize: nat
    var nowOffset: nat
    var deletedMax: int
    /** The records ever written to each file, and the unused bytes behind them. */
    ghost var recs: seq<seq<Rec>>
    ghost var tails: seq<nat>

    /** What the disk holds, with the process up or down. */
    ghost predicate DiskOk()
      reads this
    {
      |recs| == |tails| == fileId + 1 && DiskHolds(recs, tails, files)
    }

    ghost predicate Valid()
      reads this
    {
      && DiskOk()
      && fileId in files
      && nowOffset == |EncodeAll(recs[fileId])|
      && tails[fileId] == (if nowOffset <= nowSize then nowSize - nowOffset else 0)
      && -1 <= deletedMax < fileId
    }

    /** A new directory. */
    constructor (cd: Codec, fileMax: nat)
      ensures Valid() && this.cd == cd && this.fileMax == fileMax
      ensures recs == [[]] && tails == [fileMax] && nowSize == fileMax && nowOffset == 0 && deletedMax == -1
    {
      this.cd, this.fileMax := cd, fileMax;
      files, fileId := map[0 := Zeros(fileMax)], 0;
      nowSize, nowOffset, deletedMax := fileMax, 0, -1;
      recs, tails := [[]], [fileMax];
      new;
      EmptyFile(fileMax);
    }

    lemma NewestFile()
      requires Valid()
      ensures |recs| == fileId + 1 && forall g :: g in files ==> g <= fileId
    {
    }

    /** Room for the next record: in the newest file, or in a new one. */
    method GetFileFD(need: nat)
      requires Valid()
      modifies this
      ensures Valid() && files.Keys == old(files.Keys) + {fileId} && deletedMax == old(deletedMax)
      ensures Roomed(old(recs), recs, old(nowOffset) + need > old(nowSize))
      ensures nowSize == if old(nowOffset) + need > old(nowSize) then fileMax else old(nowSize)
    {
      hide Content, EncodeAll, DiskHolds;
      if nowOffset + need > nowSize {
        NewestFile();
        DiskNewFile(recs, tails, files, fileMax);
        EmptyFile(fileMax);
        fileId := fileId + 1;
        nowSize := fileMax;
        nowOffset := 0;
        files := files[fileId := Zeros(fileMax)];
        recs := recs + [[]];
        tails := tails + [fileMax];
      }
    }

    method Append(inst: nat, buf: Bytes) returns (id: FileId)
      requires Valid() && Fits(Rec(inst, buf))
      modifies this
      ensures Valid() && files.Keys == old(files.Keys) + {fileId} && deletedMax == old(deletedMax)
      ensures recs == Appended(old(recs), Rec(inst, buf), old(nowOffset) + 12 + |buf| > old(nowSize))
      ensures nowSize == if old(nowOffset) + 12 + |buf| > old(nowSize) then fileMax else old(nowSize)
      ensures recs[fileId] != [] && id == IdOf(cd, fileId, recs[fileId], |recs[fileId]| - 1) && id.file == fileId
    {
      hide Content, EncodeAll, Fits, Encode, Body, Offset, WriteAt, Appended, Roomed, DiskHolds;
      var r := Rec(inst, buf);
      GetFileFD(12 + |buf|);
      ghost var rs, tail := recs[fileId], tails[fileId];
      DiskAppend(recs, tails, files, r);
      AppendEnd(rs, r);
      AppendedLastly(old(recs), recs, r, old(nowOffset) + 12 + |buf| > old(nowSize));
      var data := Encode(r);
      id := FileId(fileId, nowOffset, cd.crc(data[4..]));
      WriteRecordAt(data);
      recs := recs[fileId := rs + [r]];
      tails := tails[fileId := if tail >= |data| then tail - |data| else 0];
    }

    method WriteRecordAt(data: Bytes)
      requires fileId in files && nowOffset <= |files[fileId]|
      modifies this`files, this`nowOffset
      ensures files == old(files)[fileId := WriteAt(old(files)[fileId], old(nowOffset), data)]
      ensures nowOffset == old(nowOffset) + |data|
    {
      files := files[fileId := WriteAt(files[fileId], nowOffset, data)];
      nowOffset := nowOffset + |data|;
    }

    /** Opening a missing file creates it; an entry of the index never points at one. */
    method Read(id: FileId) returns (ok: bool, inst: nat, buf: Bytes)
      modifies this
      ensures id.file in old(files) ==> files == old(files)
      ensures fileId == old(fileId) && recs == old(recs) && tails == old(tails) && deletedMax == old(deletedMax)
      ensures nowOffset == old(nowOffset) && nowSize == old(nowSize)
      ensures ok ==> id.file in files && Checked(cd, files[id.file], id, Rec(inst, buf))
      ensures forall k: nat | 0 <= id.file < |recs| && k < |recs[id.file]| && old(DiskOk()) && id.file in old(files) ::
        id == IdOf(cd, id.file, recs[id.file], k) ==> ok && Rec(inst, buf) == recs[id.file][k]
    {
      if id.file !in files {
        files := files[id.file := []];
      }
      if old(DiskOk()) && id.file in old(files) {
        ReadsBack(cd, recs[id.file], tails[id.file], id);
      }
      hide IdOf, Content, DiskHolds, Checked;
      ok, inst, buf := ReadChecked(files[id.file], id);
    }

    /** The record at a place, if it has the checksum of that place. */
    method ReadChecked(c: Bytes, id: FileId) returns (ok: bool, inst: nat, buf: Bytes)
      ensures ok ==> Checked(cd, c, id, Rec(inst, buf))
      ensures forall r :: Checked(cd, c, id, r) ==> ok && r == Rec(inst, buf)
    {
      ok, inst, buf := false, 0, [];
      match ReadAt(c, id.offset)
      case Found(i, b, next) =>
        if cd.crc(c[id.offset + 4..next]) == id.chk {
          ok, inst, buf := true, i, b;
        }
      case _ =>
    }

    /** Where the deletion starts: far enough back when nothing was deleted since the start. */
    function DeleteFrom(f: int): int
      reads this
    {
      if deletedMax == -1 && f - 2000 > 0 then f - 2000 else deletedMax
    }

    method DeleteFile(f: int)
      requires deletedMax >= -1
      modifies this
      ensures var start := old(DeleteFrom(f));
        && files == Without(old(files), start, f)
        && deletedMax == (if f > start then f else start)
      ensures fileId == old(fileId) && recs == old(recs) && tails == old(tails)
      ensures nowOffset == old(nowOffset) && nowSize == old(nowSize)
    {
      ghost var start := DeleteFrom(f);
      if deletedMax == -1 {
        if f - 2000 > 0 {
          deletedMax := f - 2000;
        }
      }
      if f <= deletedMax {
        return;
      }
      var g := deletedMax + 1;
      while g <= f
        invariant start + 1 <= g <= f + 1 && deletedMax == g - 1
        invariant files == Without(old(files), start, g - 1)
        invariant fileId == old(fileId) && recs == old(recs) && tails == old(tails)
        invariant nowOffset == old(nowOffset) && nowSize == old(nowSize)
      {
        if g in files {
          files := files - {g};
        }
        deletedMax := g;
        g := g + 1;
      }
    }

    /**
     * All files before the one of a deleted instance go, from the last deleted one on; the
     * first time since the start, only two thousand of them.
     */
    method Del(id: FileId) returns (ret: int)
      requires Valid()
      modifies this
      ensures Valid() && recs == old(recs) && fileId == old(fileId)
      ensures ret == if id.file > fileId then -2 else 0
      ensures forall g :: g in files ==> g in old(files) && files[g] == old(files)[g]
      ensures forall g :: g in old(files) && (g >= id.file || g <= old(deletedMax)) ==> g in files
      ensures ret == 0 ==> deletedMax >= id.file - 1
      ensures ret == 0 ==> forall g :: g in files <==>
        && g in old(files)
        && (g >= id.file || g <= old(deletedMax) || (old(deletedMax) == -1 && id.file > 2001 && g <= id.file - 2001))
    {
      if id.file > fileId {
        return -2;
      }
      if id.file > 0 {
        DeleteFile(id.file - 1);
      }
      ret := 0;
    }

    // -------------------------------------------------------------- start

    /**
     * One file of the rebuild.  `ret` 1: no such file, -1: damaged, 0 otherwise.  The
     * write offset is only set where the data ends on a record boundary.
     */
    method RebuildIndexForOneFile(db: Database, f: nat, o: nat, now: nat) returns (ret: int, now': nat)
      modifies this, db
      ensures f !in old(files) ==>
        ret == 1 && now' == now && files == old(files) && nowOffset == old(nowOffset) && db.index == old(db.index)
      ensures f in old(files) ==>
        var s := ScanFile(cd, f, old(files)[f], o, now, old(db.index));
        && ret == s.ret && now' == s.now && db.index == s.index
        && nowOffset == (if s.writeAt.Some? then s.writeAt.value else old(nowOffset))
        && files == Truncate(old(files), f, s.cut)
      ensures fileId == old(fileId) && recs == old(recs) && tails == old(tails) && deletedMax == old(deletedMax)
      ensures nowSize == old(nowSize)
    {
      ret, now' := 0, now;
      if f !in files {
        return 1, now;
      }
      var c := files[f];
      var cur := o;
      ghost var s := ScanFile(cd, f, c, o, now, db.index);
      while true
        invariant ret == 0 && nowOffset == old(nowOffset) && files == old(files)
        invariant fileId == old(fileId) && recs == old(recs) && tails == old(tails) && deletedMax == old(deletedMax)
        invariant nowSize == old(nowSize)
        invariant s == ScanFile(cd, f, c, cur, now', db.index)
        decreases if cur <= |c| then |c| - cur else 0
      {
        var cut := false;
        match ReadAt(c, cur) {
          case End =>
            nowOffset := cur;
            break;
          case Partial =>
            cut := true;
          case Bad =>
            ret := -1;
            break;
          case Found(inst, buf, next) =>
            if inst < now' {
              ret := -1;
              break;
            }
            now' := inst;
            if !cd.parses(buf) {
              nowOffset := cur;
              cut := true;
            } else {
              db.RebuildOneIndex(inst, FileId(f, cur, cd.crc(c[cur + 4..next])));
              cur := next;
            }
        }
        if cut {
          if cur <= |c| {
            files := files[f := c[..cur]];
          }
          break;
        }
      }
    }

    method RebuildIndex(db: Database) returns (ret: int, ghost k: nat)
      modifies this, db
      ensures if old(db.index) == map[] then k == 0 else IsMax(old(db.index), k)
      ensures var b := BeginOf(old(db.index), k);
        if b.f > old(fileId) then ret == -2
        else
          var r := RebuildFiles(cd, old(files), old(fileId), b.f, b.o, b.now, old(db.index), old(nowOffset));
          && (ret == 0 || ret == -1)
          && ret == r.ret && db.index == r.index && nowOffset == r.writeAt && files == r.files
      ensures fileId == old(fileId) && recs == old(recs) && tails == old(tails) && deletedMax == old(deletedMax)
      ensures nowSize == old(nowSize)
    {
      hide RebuildFiles, ScanFile;
      var id, max := db.GetMaxInstanceIDFileID();
      k := max;
      var f: nat, o: nat, now: nat := 0, 0, max;
      if id.Some? {
        f, o := id.value.file, id.value.offset;
      }
      if f > fileId {
        return -2, k;
      }
      ghost var r := RebuildFiles(cd, files, fileId, f, o, now, db.index, nowOffset);
      ret := 0;
      while true
        invariant ret == 0
        invariant fileId == old(fileId) && recs == old(recs) && tails == old(tails) && deletedMax == old(deletedMax)
        invariant nowSize == old(nowSize)
        invariant r == RebuildFiles(cd, files, fileId, f, o, now, db.index, nowOffset)
        decreases FilesFrom(files, f)
      {
        ghost var before := files;
        RebuildUnfold(cd, files, fileId, f, o, now, db.index, nowOffset);
        ret, now := RebuildIndexForOneFile(db, f, o, now);
        if ret != 0 && ret != 1 {
          break;
        } else if ret == 1 {
          if f != 0 && f != fileId + 1 {
            return -1, k;
          }
          ret := 0;
          break;
        }
        FewerFiles(before, files, f);
        f, o := f + 1, 0;
      }
    }

    /** At the start: rebuild, then open and if need be expand the newest file. */
    method Init(db: Database) returns (ret: int, ghost k: nat)
      modifies this, db
      ensures if old(db.index) == map[] then k == 0 else IsMax(old(db.index), k)
      ensures var b := BeginOf(old(db.index), k);
        var r := RebuildFiles(cd, old(files), old(fileId), b.f, b.o, b.now, old(db.index), old(nowOffset));
        && ret == (if b.f <= old(fileId) && r.ret == 0 then 0 else -1)
        && (ret == 0 ==>
              && db.index == r.index
              && files == Opened(r.files, fileId, fileMax)
              && nowSize == |files[fileId]|
              && (fileId !in r.files || r.files[fileId] == [] ==> nowSize == fileMax)
              && nowOffset == if fileId in r.files && r.files[fileId] != [] then r.writeAt else 0)
      ensures fileId == old(fileId) && recs == old(recs) && tails == old(tails) && deletedMax == old(deletedMax)
    {
      ret, k := RebuildIndex(db);
      if ret != 0 {
        return -1, k;
      }
      if fileId !in files {
        files := files[fileId := []];
      }
      nowSize := |files[fileId]|;
      if nowSize == 0 {
        files := files[fileId := Zeros(fileMax)];
        nowSize := fileMax;
        nowOffset := 0;
      }
    }
  }

  /** The newest file is there, and has its full size when it was empty. */
  function Opened(files: Files, f: nat, size: nat): (r: Files)
    ensures f in r
  {
    if f in files && files[f] != [] then files else files[f := Zeros(size)]
  }

  /** One turn of the rebuild loop. */
  lemma RebuildUnfold(cd: Codec, files: Files, meta: int, f: nat, o: nat, now: nat, index: Index, w: nat)
    ensures f !in files ==>
      RebuildFiles(cd, files, meta, f, o, now, index, w) ==
        Rebuilt(if f != 0 && f != meta + 1 then -1 else 0, index, w, files)
    ensures f in files ==>
      var s := ScanFile(cd, f, files[f], o, now, index);
      var w1 := if s.writeAt.Some? then s.writeAt.value else w;
      var files1 := Truncate(files, f, s.cut);
      RebuildFiles(cd, files, meta, f, o, now, index, w) ==
        if s.ret != 0 then Rebuilt(s.ret, s.index, w1, files1)
        else RebuildFiles(cd, files1, meta, f + 1, 0, s.now, s.index, w1)
  {
  }

  lemma FewerFiles(files: Files, files1: Files, f: nat)
    requires f in files && files1.Keys == files.Keys
    ensures FilesFrom(files1, f + 1) < FilesFrom(files, f)
  {
    assert f in FilesFrom(files, f);
  }

  /** Every entry's file exists, and later instances lie in later files. */
  ghost predicate FilesFit(index: Index, files: set<nat>) {
    && (forall k :: k in index ==> index[k].file in files)
    && (forall j, k :: j in index && k in index && j <= k ==> index[j].file <= index[k].file)
  }

  /** From the file of any undeleted put on, all files exist. */
  ghost predicate FilesKept(cd: Codec, recs: seq<seq<Rec>>, files: set<nat>, d: nat) {
    forall e :: e in History(cd, recs) && e.inst >= d ==> AllFrom(e.id.file, |recs|, files)
  }

  predicate AllFrom(f: nat, n: nat, files: set<nat>) {
    forall g :: f <= g < n ==> g in files
  }

  lemma KeptPut(cd: Codec, recs: seq<seq<Rec>>, s: seq<seq<Rec>>, e: Entry, files: set<nat>, d: nat)
    requires FilesKept(cd, recs, files, d) && History(cd, s) == History(cd, recs) + [e]
    requires |recs| <= |s| <= |recs| + 1 && e.id.file == |s| - 1
    ensures FilesKept(cd, s, files + {|s| - 1}, d)
  {
    forall e' | e' in History(cd, s) && e'.inst >= d
      ensures AllFrom(e'.id.file, |s|, files + {|s| - 1})
    {
      if e' in History(cd, recs) {
        assert AllFrom(e'.id.file, |recs|, files);
      }
    }
  }

  lemma KeptDel(cd: Codec, recs: seq<seq<Rec>>, files: set<nat>, files': set<nat>, d: nat, inst: nat)
    requires FilesKept(cd, recs, files, d) && Sorted(History(cd, recs))
    requires inst in PutAll(map[], History(cd, recs))
    requires forall g :: g in files && g >= PutAll(map[], History(cd, recs))[inst].file ==> g in files'
    ensures FilesKept(cd, recs, files', if inst + 1 > d then inst + 1 else d)
  {
    var h := History(cd, recs);
    var j := Deciding(h, inst);
    forall e | e in h && e.inst >= (if inst + 1 > d then inst + 1 else d)
      ensures AllFrom(e.id.file, |recs|, files')
    {
      var i :| 0 <= i < |h| && h[i] == e;
      if j <= i {
        PutFiles(cd, recs, 0, j, i);
      }
    }
  }

  lemma KeptMore(cd: Codec, recs: seq<seq<Rec>>, files: set<nat>, d: nat, d': nat)
    requires FilesKept(cd, recs, files, d) && d <= d'
    ensures FilesKept(cd, recs, files, d')
  {
  }

  lemma KeptFit(cd: Codec, recs: seq<seq<Rec>>, files: set<nat>, p: nat, d: nat, m: Index)
    requires FilesKept(cd, recs, files, d) && Survives(cd, recs, p, d, m) && Sorted(History(cd, recs))
    ensures FilesFit(m, files)
  {
    var h := History(cd, recs)[..p];
    forall k | k in m
      ensures m[k].file in files
    {
      var i := Deciding(h, k);
      assert History(cd, recs)[i] == h[i];
      PutFiles(cd, recs, 0, i, i);
    }
    forall j, k | j in m && k in m && j <= k
      ensures m[j].file <= m[k].file
    {
      var a := Deciding(h, j);
      var b := Deciding(h, k);
      if a <= b {
        PutFiles(cd, recs, 0, a, b);
      }
    }
  }

  lemma FilesPut(index: Index, files: set<nat>, inst: nat, id: FileId)
    requires FilesFit(index, files) && forall k :: k in index ==> k <= inst
    requires forall g :: g in files ==> g <= id.file
    ensures FilesFit(index[inst := id], files + {id.file})
  {
  }

  lemma FilesDel(index: Index, files: set<nat>, files': set<nat>, inst: nat)
    requires FilesFit(index, files) && inst in index && forall k :: k in index ==> k >= inst
    requires forall g :: g in files && g >= index[inst].file ==> g in files'
    ensures FilesFit(index - {inst}, files')
  {
  }

  lemma FilesLess(index: Index, files: set<nat>, inst: nat)
    requires FilesFit(index, files)
    ensures FilesFit(index - {inst}, files)
  {
  }

  lemma KeysInHistory(cd: Codec, recs: seq<seq<Rec>>, d: nat, inst: nat)
    requires forall e :: e in History(cd, recs) ==> e.inst <= inst
    ensures forall k :: k in Above(PutAll(map[], History(cd, recs)), d) ==> k <= inst
  {
    forall k | k in Above(PutAll(map[], History(cd, recs)), d)
      ensures k <= inst
    {
      SameInsts(cd, recs);
      var i := LastPut(History(cd, recs), Flat(recs, 0), k);
      assert History(cd, recs)[i] in History(cd, recs);
    }
  }

  /** Entry `id` names a record of an existing file that holds `v` for instance `k`. */
  ghost predicate Points(cd: Codec, recs: seq<seq<Rec>>, files: set<nat>, id: FileId, k: nat, v: Bytes) {
    && id.file < |recs| && id.file in files
    && exists j: nat :: j < |recs[id.file]| && id == IdOf(cd, id.file, recs[id.file], j) && recs[id.file][j] == Rec(k, v)
  }

  lemma AppendedGrows(recs: seq<seq<Rec>>, r: Rec, newFile: bool)
    requires recs != []
    ensures var s := Appended(recs, r, newFile); |recs| <= |s| && forall f :: 0 <= f < |recs| ==> recs[f] <= s[f]
  {
  }

  lemma PointsAppended(cd: Codec, recs: seq<seq<Rec>>, r: Rec, newFile: bool, files: set<nat>, files': set<nat>,
      id: FileId, k: nat, v: Bytes)
    requires recs != [] && files <= files' && Points(cd, recs, files, id, k, v)
    ensures Points(cd, Appended(recs, r, newFile), files', id, k, v)
  {
    hide Appended, IdOf;
    AppendedGrows(recs, r, newFile);
    var s := Appended(recs, r, newFile);
    var f := id.file;
    var j: nat :| j < |recs[f]| && id == IdOf(cd, f, recs[f], j) && recs[f][j] == Rec(k, v);
    IdStays(cd, f, recs[f], s[f], j);
    assert s[f][j] == recs[f][j] && id == IdOf(cd, f, s[f], j);
  }

  lemma IdStays(cd: Codec, f: nat, rs: seq<Rec>, rs': seq<Rec>, j: nat)
    requires j < |rs| && rs <= rs'
    ensures IdOf(cd, f, rs', j) == IdOf(cd, f, rs, j)
  {
    assert rs'[..j] == rs[..j];
  }

  lemma PointsNew(cd: Codec, recs: seq<seq<Rec>>, r: Rec, newFile: bool, files: set<nat>, id: FileId)
    requires recs != []
    requires var s := Appended(recs, r, newFile);
      var f := |s| - 1;
      f in files && s[f] != [] && id == IdOf(cd, f, s[f], |s[f]| - 1)
    ensures Points(cd, Appended(recs, r, newFile), files, id, r.inst, r.buf)
  {
    var s := Appended(recs, r, newFile);
    var f := |s| - 1;
    assert s[f][|s[f]| - 1] == r;
  }

  lemma AppendedNotEmpty(recs: seq<seq<Rec>>, r: Rec, newFile: bool)
    requires recs != []
    ensures var s := Appended(recs, r, newFile); |recs| <= |s| <= |recs| + 1 && s[|s| - 1] != []
  {
  }

  /** An index that is the fold of the puts points at the values last put. */
  lemma FoldPoints(cd: Codec, recs: seq<seq<Rec>>, files: set<nat>, d: nat)
    requires FilesFit(Above(PutAll(map[], History(cd, recs)), d), files)
    ensures var m := Above(PutAll(map[], History(cd, recs)), d);
      var v := ValuesAbove(recs, d);
      m.Keys == v.Keys && forall k :: k in m ==> Points(cd, recs, files, m[k], k, v[k])
  {
    KeysAlike(cd, recs, d);
    var m := Above(PutAll(map[], History(cd, recs)), d);
    forall k | k in m
      ensures Points(cd, recs, files, m[k], k, ValuesAbove(recs, d)[k])
    {
      var f, j := EntryPoints(cd, recs, k);
    }
  }

  lemma GoodFit(cd: Codec, recs: seq<seq<Rec>>)
    requires GoodFiles(cd, recs)
    ensures FitFiles(recs)
  {
    forall f | 0 <= f < |recs|
      ensures FitFile(recs[f])
    {
      assert GoodFile(cd, recs[f]);
    }
  }

  lemma GoodAppended(cd: Codec, recs: seq<seq<Rec>>, r: Rec, newFile: bool)
    requires recs != [] && GoodFiles(cd, recs) && GoodRec(cd, r)
    ensures GoodFiles(cd, Appended(recs, r, newFile))
  {
    var s := Appended(recs, r, newFile);
    forall f | 0 <= f < |s|
      ensures GoodFile(cd, s[f])
    {
      if f < |recs| {
        assert GoodFile(cd, recs[f]);
      }
    }
  }

  lemma NothingToDelete(index: Index, contents: map<nat, Bytes>, inst: nat)
    requires inst !in index && index.Keys == contents.Keys
    ensures index - {inst} == index && contents - {inst} == contents
  {
  }

  /** With files gone, an entry still leads to its value exactly if its file is left. */
  lemma DelSound(cd: Codec, recs: seq<seq<Rec>>, files: set<nat>, files': set<nat>, index: Index, v: map<nat, Bytes>, inst: nat)
    requires files' <= files && index.Keys == v.Keys
    requires forall k :: k in index ==> Points(cd, recs, files, index[k], k, v[k])
    ensures (index - {inst}).Keys == (v - {inst}).Keys
    ensures forall k :: k in index - {inst} ==>
      (Points(cd, recs, files', index[k], k, v[k]) <==> index[k].file in files') && index[k].file in files
  {
  }

  /** A delete in ascending order keeps a database in order. */
  lemma DelOrdered(cd: Codec, recs: seq<seq<Rec>>, files: set<nat>, files': set<nat>, d: nat, inst: nat, clean: bool)
    requires var m := Above(PutAll(map[], History(cd, recs)), d);
      && Sorted(History(cd, recs)) && FilesFit(m, files) && FilesKept(cd, recs, files, d)
      && (forall k :: k in m ==> k >= inst)
      && (if clean then inst in m && forall g :: g in files && g >= m[inst].file ==> g in files' else files' == files)
    ensures var m := Above(PutAll(map[], History(cd, recs)), d);
      var d' := if inst + 1 > d then inst + 1 else d;
      && m - {inst} == Above(PutAll(map[], History(cd, recs)), d')
      && ValuesAbove(recs, d) - {inst} == ValuesAbove(recs, d')
      && FilesFit(m - {inst}, files') && FilesKept(cd, recs, files', d')
      && forall k :: k in m - {inst} ==> m[k].file in files'
  {
    hide PutAll, PutsFrom, Sorted, ValuesAbove, FilesFit, FilesKept, Above;
    var m := Above(PutAll(map[], History(cd, recs)), d);
    AboveNext(cd, recs, d, inst);
    if clean {
      FilesDel(m, files, files', inst);
      AboveAt(PutAll(map[], History(cd, recs)), d, inst);
      KeptDel(cd, recs, files, files', d, inst);
    } else {
      FilesLess(m, files, inst);
      KeptMore(cd, recs, files, d, if inst + 1 > d then inst + 1 else d);
    }
    EntriesExist(m - {inst}, files');
    assert forall k :: k in m - {inst} ==> (m - {inst})[k] == m[k];
  }

  /** After a put every entry leads to its value, as before. */
  lemma PutSound(cd: Codec, recs: seq<seq<Rec>>, r: Rec, newFile: bool, files: set<nat>, files': set<nat>, id: FileId,
                 index: Index, v: map<nat, Bytes>)
    requires recs != [] && index.Keys == v.Keys && files <= files'
    requires forall k :: k in index ==> Points(cd, recs, files, index[k], k, v[k])
    requires var s := Appended(recs, r, newFile); var f := |s| - 1;
      s != [] && f in files' && s[f] != [] && id == IdOf(cd, f, s[f], |s[f]| - 1)
    ensures var index', v' := index[r.inst := id], v[r.inst := r.buf];
      && index'.Keys == v'.Keys
      && forall k :: k in index' ==> Points(cd, Appended(recs, r, newFile), files', index'[k], k, v'[k])
  {
    hide Points, Appended, IdOf;
    PointsNew(cd, recs, r, newFile, files', id);
    forall k | k in index
      ensures Points(cd, Appended(recs, r, newFile), files', index[k], k, v[k])
    {
      PointsAppended(cd, recs, r, newFile, files, files', index[k], k, v[k]);
    }
  }

  /** A put in ascending order keeps a database in order. */
  lemma PutOrdered(cd: Codec, recs: seq<seq<Rec>>, r: Rec, newFile: bool, files: set<nat>, id: FileId, d: nat)
    requires recs != [] && r.inst >= d && GoodRec(cd, r) && GoodFiles(cd, recs)
    requires Sorted(History(cd, recs)) && (forall e :: e in History(cd, recs) ==> e.inst <= r.inst)
    requires var m := Above(PutAll(map[], History(cd, recs)), d);
      FilesFit(m, files) && FilesKept(cd, recs, files, d) && forall g :: g in files ==> g <= id.file
    requires var s := Appended(recs, r, newFile); var f := |s| - 1;
      s != [] && s[f] != [] && id == IdOf(cd, f, s[f], |s[f]| - 1) && id.file == f
    ensures var s := Appended(recs, r, newFile);
      var m := Above(PutAll(map[], History(cd, recs)), d)[r.inst := id];
      && GoodFiles(cd, s) && Sorted(History(cd, s)) && (forall e :: e in History(cd, s) ==> e.inst <= r.inst)
      && Above(PutAll(map[], History(cd, s)), d) == m && ValuesAbove(s, d) == ValuesAbove(recs, d)[r.inst := r.buf]
      && FilesFit(m, files + {id.file}) && FilesKept(cd, s, files + {id.file}, d)
  {
    hide PutAll, PutsFrom, Sorted, ValuesAbove, FilesFit, FilesKept, Above, GoodFile, GoodRec, GoodFiles, IdOf, Appended;
    AppendedNotEmpty(recs, r, newFile);
    KeysInHistory(cd, recs, d, r.inst);
    FilesPut(Above(PutAll(map[], History(cd, recs)), d), files, r.inst, id);
    HistoryPut(cd, recs, r, newFile, d);
    KeptPut(cd, recs, Appended(recs, r, newFile), Entry(r.inst, id), files, d);
    GoodAppended(cd, recs, r, newFile);
  }

  /** No file is left between the last one deleted and `f`; the first time, two thousand back. */
  predicate OnlyLater(f: nat, deletedMax: int, files: set<nat>) {
    forall g :: g in files ==> g >= f || g <= deletedMax || (deletedMax == -1 && f > 2001 && g <= f - 2001)
  }

  class Database {
    const store: LogStore
    var index: Index
    /** The plain map that the database stands for. */
    ghost var contents: map<nat, Bytes>
    /** Instances below it have been deleted, when deletes are in order. */
    ghost var floor: nat

    /** Every entry leads to its value: all that reading and writing need. */
    ghost predicate Sound()
      reads this, store
    {
      && store.Valid()
      && index.Keys == contents.Keys
      && forall k :: k in index ==> Points(store.cd, store.recs, store.files.Keys, index[k], k, contents[k])
    }

    /** Puts and deletes have come in order, so that the index can be rebuilt and old files may go. */
    ghost predicate Valid()
      reads this, store
    {
      && store.Valid() && GoodFiles(store.cd, store.recs)
      && Sorted(History(store.cd, store.recs))
      && index == Above(PutAll(map[], History(store.cd, store.recs)), floor)
      && contents == ValuesAbove(store.recs, floor)
      && FilesFit(index, store.files.Keys)
      && FilesKept(store.cd, store.recs, store.files.Keys, floor)
    }

    lemma ValidSound()
      ensures Valid() ==> Sound()
    {
      if Valid() {
        FoldPoints(store.cd, store.recs, store.files.Keys, floor);
      }
    }

    lemma OnlyFile(r: Rec)
      requires Valid() && store.recs == [[r]]
      ensures store.fileId == 0 && store.tails == [if store.nowSize >= |Encode(r)| then store.nowSize - |Encode(r)| else 0]
    {
      hide PutAll, PutsFrom, Above, Sorted, ValuesAbove, FilesFit, FilesKept, GoodFiles, DiskHolds;
      assert EncodeAll([r]) == Encode(r) + EncodeAll([r][1..]);
    }

    /** The database of a new directory. */
    constructor (store: LogStore)
      requires store.Valid() && store.recs == [[]]
      ensures Valid() && this.store == store && contents == map[] && index == map[] && floor == 0
    {
      this.store := store;
      index, floor, contents := map[], 0, map[];
      new;
      EmptyHistory(store.cd);
    }

    /** No instance put so far is later than `inst`. */
    ghost predicate NoneLater(inst: nat)
      reads this, store
    {
      forall e :: e in History(store.cd, store.recs) ==> e.inst <= inst
    }

    /** The next put comes in order, and can be read back by a rebuild. */
    ghost predicate InOrder(inst: nat, value: Bytes)
      reads this, store
    {
      Valid() && NoneLater(inst) && inst >= floor && GoodRec(store.cd, Rec(inst, value))
    }

    /** Any value of any instance may be put; in order, the database stays fit for a rebuild. */
    method Put(inst: nat, value: Bytes)
      requires Sound() && Fits(Rec(inst, value))
      modifies this, store
      ensures Sound() && contents == old(contents)[inst := value]
      ensures floor == old(floor)
      ensures store.recs == Appended(old(store.recs), Rec(inst, value), old(store.nowOffset) + 12 + |value| > old(store.nowSize))
      ensures store.nowSize ==
        if old(store.nowOffset) + 12 + |value| > old(store.nowSize) then store.fileMax else old(store.nowSize)
      ensures old(InOrder(inst, value)) ==> Valid() && NoneLater(inst)
    {
      hide PutAll, PutsFrom, Above, Sorted, ValuesAbove, FilesFit, FilesKept, Points, GoodFile, Fits, Appended, GoodRec;
      hide LogStore.Valid, GoodFiles, History;
      ghost var cd, recs, files, d := store.cd, store.recs, store.files.Keys, floor;
      ghost var r := Rec(inst, value);
      ghost var newFile := store.nowOffset + 12 + |value| > store.nowSize;
      ghost var ordered := InOrder(inst, value);
      store.NewestFile();
      var id := store.Append(inst, value);
      store.NewestFile();
      PutSound(cd, recs, r, newFile, files, store.files.Keys, id, index, contents);
      if ordered {
        PutOrdered(cd, recs, r, newFile, files, id, d);
      }
      index := index[inst := id];
      contents := contents[inst := value];
    }

    method Get(inst: nat) returns (ret: int, value: Bytes)
      requires Sound()
      modifies store
      ensures Sound() && (old(Valid()) ==> Valid())
      ensures contents == old(contents) && index == old(index) && floor == old(floor)
      ensures if inst in contents then ret == 0 && value == contents[inst] else ret == 1
    {
      value := [];
      if inst !in index {
        return 1, [];
      }
      var id := index[inst];
      assert Points(store.cd, store.recs, store.files.Keys, id, inst, contents[inst]);
      var ok, fileInst, buf := store.Read(id);
      if !ok {
        return -1, [];
      }
      if fileInst != inst {
        return -2, [];
      }
      ret, value := 0, buf;
    }

    /**
     * `clean` is the one call in a hundred that also deletes old value files.  The
     * database stays sound exactly if no remaining entry lies in a file deleted, which
     * deletes in ascending order, of a database in order, never cause.
     */
    method Del(inst: nat, clean: bool) returns (ret: int)
      requires Sound()
      modifies this, store
      ensures ret == 0 && index == old(index) - {inst} && contents == old(contents) - {inst}
      ensures store.Valid() && store.recs == old(store.recs)
      ensures Sound() <==> forall k :: k in index ==> index[k].file in store.files
      ensures !clean || inst !in old(index) || (forall k :: k in old(index) ==> old(index)[k].file >= old(index)[inst].file)
        ==> Sound()
      ensures old(Valid()) && (forall k :: k in old(index) ==> k >= inst) ==> Valid() && Sound()
      ensures floor == if inst + 1 > old(floor) && (!clean || inst in old(index)) then inst + 1 else old(floor)
      ensures !clean || inst !in old(index) ==> store.files == old(store.files)
      ensures clean && inst in old(index) ==> OnlyLater(old(index)[inst].file, old(store.deletedMax), store.files.Keys)
    {
      hide PutAll, PutsFrom, Above, Sorted, ValuesAbove, FilesFit, FilesKept, GoodFile, Points, LogStore.Valid;
      ghost var d, files := floor, store.files.Keys;
      ghost var ordered := Valid() && forall k :: k in index ==> k >= inst;
      if clean {
        if inst !in index {
          DelSound(store.cd, store.recs, files, files, index, contents, inst);
          NothingToDelete(index, contents, inst);
          return 0;
        }
        CleanFiles(inst);
      }
      DelSound(store.cd, store.recs, files, store.files.Keys, index, contents, inst);
      if ordered {
        DelOrdered(store.cd, store.recs, files, store.files.Keys, d, inst, clean);
      }
      ret := 0;
      index := index - {inst};
      contents := contents - {inst};
      floor := if inst + 1 > floor then inst + 1 else floor;
    }

    /** Value files before that of `inst` go, and none from it on. */
    method CleanFiles(inst: nat)
      requires Sound() && inst in index
      modifies store
      ensures store.Valid() && store.recs == old(store.recs) && store.files.Keys <= old(store.files.Keys)
      ensures forall g :: g in old(store.files) && g >= index[inst].file ==> g in store.files
      ensures OnlyLater(index[inst].file, old(store.deletedMax), store.files.Keys)
    {
      assert Points(store.cd, store.recs, store.files.Keys, index[inst], inst, contents[inst]);
      store.NewestFile();
      var _ := store.Del(index[inst]);
    }

    ghost predicate Crashed(p: nat, d: nat, k: nat)
      reads this, store
    {
      && store.nowOffset == 0 && store.deletedMax == -1 && |store.recs| == store.fileId + 1
      && CrashState(store.cd, store.recs, store.tails, store.files, index, p, d, k)
    }

    /**
     * The process dies at any moment between calls; of the index only the entries of the
     * first `p` puts are left.
     */
    method Crash(left: Index, ghost p: nat) returns (ghost k: nat)
      requires Valid() && Survives(store.cd, store.recs, p, floor, left)
      requires 0 < p && History(store.cd, store.recs)[p - 1].inst >= floor
      modifies this, store
      ensures Crashed(p, floor, k) && index == left && floor == old(floor)
      ensures store.recs == old(store.recs) && store.tails == old(store.tails) && store.files == old(store.files)
      ensures store.fileId == old(store.fileId)
      ensures if index == map[] then k == 0 else IsMax(index, k)
    {
      k := CrashedFromValid(this, p);
      index := left;
      store.nowOffset, store.deletedMax := 0, -1;
    }

    /**
     * Start of the process: the index is rebuilt in full.  The next write goes behind the
     * last record, and with it everything is as before the crash, if and only if the
     * newest file has no torn tail, or is empty, or ends where an earlier file did.
     */
    method Init(ghost p: nat, ghost d: nat) returns (ret: int, ghost k: nat)
      modifies this, store
      ensures if old(index) == map[] then k == 0 else IsMax(old(index), k)
      ensures old(Crashed(p, d, k)) ==>
        && ret == 0 && floor == d
        && store.recs == old(store.recs) && store.fileId == old(store.fileId)
        && index == Above(PutAll(map[], History(store.cd, store.recs)), d)
        && contents == ValuesAbove(store.recs, d)
        && var found := OffsetFound(store.recs, old(store.tails), BeginOf(old(index), k).f);
           && |store.recs| == store.fileId + 1
           && store.nowOffset == StartOffset(store.recs, old(store.tails), BeginOf(old(index), k).f)
           && (store.nowOffset == |EncodeAll(store.recs[store.fileId])| <==> found)
           && (Valid() <==> found)
    {
      hide RebuildFiles, Content, EncodeAll, PutAll, PutsFrom, Above, ValuesAbove, Sorted, FilesFit, GoodFile, Opened;
      hide CrashState, NewTails, BeginOf, IsMax, FilesKept, OffsetFound, StartOffset, FitFile;
      ghost var index0, files0 := index, store.files;
      ghost var tails := store.tails;
      ret, k := store.Init(this);
      floor := d;
      contents := ValuesAbove(store.recs, d);
      if old(Crashed(p, d, k)) {
        Started(store.cd, store.recs, tails, files0, index0, p, d, k, store.fileMax);
        store.tails := NewTails(store.recs, tails, store.files, BeginOf(index0, k).f);
      }
    }

    method RebuildOneIndex(inst: nat, id: FileId)
      modifies this
      ensures index == old(index)[inst := id] && floor == old(floor)
    {
      index := index[inst := id];
    }

    method GetMaxInstanceIDFileID() returns (id: Option<FileId>, k: nat)
      ensures if index == map[] then id.None? && k == 0 else IsMax(index, k) && id == Some(index[k])
    {
      id, k := None, 0;
      var rest := index.Keys;
      while rest != {}
        invariant rest <= index.Keys
        invariant id.None? ==> rest == index.Keys && k == 0
        invariant id.Some? ==>
          k in index && id == Some(index[k]) && forall j :: j in index && j !in rest ==> j <= k
        decreases rest
      {
        var j :| j in rest;
        rest := rest - {j};
        if id.None? || j > k {
          id, k := Some(index[j]), j;
        }
      }
      if id.None? {
        assert index.Keys == {};
      }
    }
  }

  lemma EmptyHistory(cd: Codec)
    ensures History(cd, [[]]) == [] && Flat([[]], 0) == []
  {
    assert PutsFrom(cd, [[]], 1) == [] && Flat([[]], 1) == [];
    assert Puts(cd, 0, []) == [];
  }

  lemma KeysAlike(cd: Codec, recs: seq<seq<Rec>>, d: nat)
    ensures Above(PutAll(map[], History(cd, recs)), d).Keys == ValuesAbove(recs, d).Keys
  {
    SameInsts(cd, recs);
    SameKeys(History(cd, recs), Flat(recs, 0));
  }

  lemma SortedPut(h: seq<Entry>, e: Entry)
    requires Sorted(h) && forall x :: x in h ==> x.inst <= e.inst
    ensures Sorted(h + [e]) && forall x :: x in h + [e] ==> x.inst <= e.inst
  {
    forall i, j | 0 <= i < j < |h| + 1
      ensures (h + [e])[i].inst <= (h + [e])[j].inst
    {
      if j == |h| {
        assert h[i] in h;
      }
    }
  }

  lemma AbovePut(m: Index, k: nat, id: FileId, d: nat)
    requires k >= d
    ensures Above(m[k := id], d) == Above(m, d)[k := id]
  {
  }

  lemma ValuesAbovePut(recs: seq<seq<Rec>>, s: seq<seq<Rec>>, r: Rec, d: nat)
    requires Flat(s, 0) == Flat(recs, 0) + [r] && r.inst >= d
    ensures ValuesAbove(s, d) == ValuesAbove(recs, d)[r.inst := r.buf]
  {
    ValuesPut(Flat(recs, 0), r);
  }

  lemma HistoryPut(cd: Codec, recs: seq<seq<Rec>>, r: Rec, newFile: bool, d: nat)
    requires recs != [] && Sorted(History(cd, recs)) && r.inst >= d
    requires forall e :: e in History(cd, recs) ==> e.inst <= r.inst
    ensures var s := Appended(recs, r, newFile);
      s != [] && s[|s| - 1] != []
    ensures var s := Appended(recs, r, newFile);
      var f := |s| - 1;
      && History(cd, s) == History(cd, recs) + [Entry(r.inst, IdOf(cd, f, s[f], |s[f]| - 1))]
      && Sorted(History(cd, s)) && (forall e :: e in History(cd, s) ==> e.inst <= r.inst)
      && Above(PutAll(map[], History(cd, s)), d) ==
           Above(PutAll(map[], History(cd, recs)), d)[r.inst := IdOf(cd, f, s[f], |s[f]| - 1)]
      && ValuesAbove(s, d) == ValuesAbove(recs, d)[r.inst := r.buf]
  {
    hide PutAll, Flat, Values, ValuesAbove, IdOf, PutsFrom, Above, Sorted;
    var s := Appended(recs, r, newFile);
    var f := |s| - 1;
    AppendedFrom(cd, recs, r, newFile, 0);
    var e := Entry(r.inst, IdOf(cd, f, s[f], |s[f]| - 1));
    var h := History(cd, recs);
    PutLast(map[], h, e);
    AbovePut(PutAll(map[], h), e.inst, e.id, d);
    ValuesAbovePut(recs, s, r, d);
    SortedPut(h, e);
  }

  lemma AboveNext(cd: Codec, recs: seq<seq<Rec>>, d: nat, inst: nat)
    requires forall k :: k in Above(PutAll(map[], History(cd, recs)), d) ==> k >= inst
    ensures var d' := if inst + 1 > d then inst + 1 else d;
      && Above(PutAll(map[], History(cd, recs)), d) - {inst} == Above(PutAll(map[], History(cd, recs)), d')
      && ValuesAbove(recs, d) - {inst} == ValuesAbove(recs, d')
  {
    KeysAlike(cd, recs, d);
    assert forall k :: k in ValuesAbove(recs, d) ==> k >= inst;
  }

  lemma AboveAt(m: Index, d: nat, k: nat)
    requires k in Above(m, d)
    ensures k in m && Above(m, d)[k] == m[k]
  {
  }

  lemma EntriesExist(index: Index, files: set<nat>)
    requires FilesFit(index, files)
    ensures forall k :: k in index ==> index[k].file in files
  {
  }

  /** The unused bytes once the files are scanned and the newest one is open. */
  function NewTails(recs: seq<seq<Rec>>, tails: seq<nat>, files: Files, f: nat): (t: seq<nat>)
    requires |tails| == |recs|
    ensures |t| == |recs|
  {
    seq(|recs|, g requires 0 <= g < |recs| =>
      if g == |recs| - 1 && g in files && |files[g]| >= |EncodeAll(recs[g])| then |files[g]| - |EncodeAll(recs[g])|
      else if g >= f then Trim(tails[g]) else tails[g])
  }

  lemma OpenedDisk(recs: seq<seq<Rec>>, tails: seq<nat>, files0: Files, files: Files, f: nat, size: nat)
    requires |tails| == |recs| > 0 && files.Keys == files0.Keys
    requires forall g :: g in files0 ==> g < |recs| && files0[g] == Content(recs[g], tails[g])
    requires f < |recs| && forall g :: f <= g < |recs| ==> g in files && files[g] == Content(recs[g], Trim(tails[g]))
    requires forall g :: g in files && g < f ==> files[g] == files0[g]
    ensures var n := |recs| - 1;
      var files' := Opened(files, n, size);
      var tails' := NewTails(recs, tails, files', f);
      && files'.Keys == files0.Keys
      && (forall g :: g in files' ==> g <= n && files'[g] == Content(recs[g], tails'[g]))
      && tails'[n] == |files'[n]| - |EncodeAll(recs[n])|
      && (files[n] == [] ==> |EncodeAll(recs[n])| == 0)
  {
    hide EncodeAll, Content, Opened;
    var n := |recs| - 1;
    var files' := Opened(files, n, size);
    var tails' := NewTails(recs, tails, files', f);
    OpenedFile(recs[n], Trim(tails[n]), files, n, size);
    forall g | g in files'
      ensures g <= n && files'[g] == Content(recs[g], tails'[g])
    {
    }
  }

  lemma OpenedFile(rs: seq<Rec>, tail: nat, files: Files, n: nat, size: nat)
    requires n in files && files[n] == Content(rs, tail)
    ensures var files' := Opened(files, n, size);
      && files'.Keys == files.Keys
      && (forall g :: g in files && g != n ==> files'[g] == files[g])
      && |files'[n]| >= |EncodeAll(rs)| && files'[n] == Content(rs, |files'[n]| - |EncodeAll(rs)|)
      && (files[n] == [] ==> |EncodeAll(rs)| == 0)
  {
    ContentSize(rs, tail);
    if files[n] == [] {
      EncodedNotEmpty(rs);
      assert rs == [];
      assert Content([], size) == Zeros(size);
    }
  }

  lemma ContentSize(rs: seq<Rec>, tail: nat)
    ensures |Content(rs, tail)| == |EncodeAll(rs)| + tail
  {
  }

  /**
   * What a crash may leave: the value files as they were, and of the index the first
   * `p` puts less the instances below `d`.
   */
  ghost predicate CrashState(cd: Codec, recs: seq<seq<Rec>>, tails: seq<nat>, files: Files, m: Index, p: nat, d: nat, k: nat) {
    var n := |recs| - 1;
    && |tails| == |recs| > 0 && GoodFiles(cd, recs)
    && (forall g :: g in files ==> g <= n && files[g] == Content(recs[g], tails[g]))
    && Sorted(History(cd, recs)) && Survives(cd, recs, p, d, m)
    && (if m == map[] then p == 0 && d == 0 && k == 0 else IsMax(m, k))
    && FilesKept(cd, recs, files.Keys, d)
    && (m == map[] ==> forall g :: 0 <= g <= n ==> g in files)
  }

  lemma KeptBegin(cd: Codec, recs: seq<seq<Rec>>, files: set<nat>, p: nat, d: nat, m: Index, k: nat)
    requires FilesKept(cd, recs, files, d) && Survives(cd, recs, p, d, m) && Sorted(History(cd, recs))
    requires m != map[] ==> IsMax(m, k)
    requires m == map[] ==> forall g :: 0 <= g < |recs| ==> g in files
    ensures forall g :: BeginOf(m, k).f <= g < |recs| ==> g in files
  {
    if m != map[] {
      NothingSurvived(cd, recs, p, d, m);
      SurvivorIsLast(cd, recs, p, d, m, k);
    }
  }

  /** A crash of a database in order, losing any puts but the first `p` from the index, is such a state. */
  lemma CrashedFromValid(db: Database, p: nat) returns (k: nat)
    requires db.Valid() && 0 < p <= |History(db.store.cd, db.store.recs)|
    requires History(db.store.cd, db.store.recs)[p - 1].inst >= db.floor
    ensures var m := Above(PutAll(map[], History(db.store.cd, db.store.recs)[..p]), db.floor);
      CrashState(db.store.cd, db.store.recs, db.store.tails, db.store.files, m, p, db.floor, k)
  {
    var h := History(db.store.cd, db.store.recs);
    var m := Above(PutAll(map[], h[..p]), db.floor);
    k := h[p - 1].inst;
    LastIsMax(h[..p]);
    assert k in m;
  }

  /** The scan from file `f` on hands over the right place for the next write. */
  predicate OffsetFound(recs: seq<seq<Rec>>, tails: seq<nat>, f: nat)
    requires |tails| == |recs| > 0
  {
    var n := |recs| - 1;
    !BadTail(tails[n]) || recs[n] == [] || LastEnd(recs[..n], tails[..n], f, 0) == |EncodeAll(recs[n])|
  }

  /** Where the scan from file `f` on makes the next write go. */
  function StartOffset(recs: seq<seq<Rec>>, tails: seq<nat>, f: nat): nat
    requires |tails| == |recs| > 0
  {
    var n := |recs| - 1;
    if BadTail(tails[n]) && recs[n] != [] then LastEnd(recs[..n], tails[..n], f, 0) else |EncodeAll(recs[n])|
  }

  lemma OffsetExact(recs: seq<seq<Rec>>, tails: seq<nat>, f: nat, c: Bytes)
    requires |tails| == |recs| > 0 && f < |recs| && c == Content(recs[|recs| - 1], Trim(tails[|recs| - 1]))
    ensures (if c != [] then LastEnd(recs, tails, f, 0) else 0) == StartOffset(recs, tails, f)
    ensures StartOffset(recs, tails, f) == |EncodeAll(recs[|recs| - 1])| <==> OffsetFound(recs, tails, f)
  {
    var n := |recs| - 1;
    WriteOffsetExact(recs, tails, f, 0);
    EncodedNotEmpty(recs[n]);
    ContentSize(recs[n], Trim(tails[n]));
  }

  /** The start after a crash sets everything right. */
  lemma Started(cd: Codec, recs: seq<seq<Rec>>, tails: seq<nat>, files: Files, m: Index, p: nat, d: nat, k: nat, size: nat)
    requires CrashState(cd, recs, tails, files, m, p, d, k)
    ensures |tails| == |recs| > 0
    ensures var b := BeginOf(m, k);
      var n := |recs| - 1;
      var r := RebuildFiles(cd, files, n, b.f, b.o, b.now, m, 0);
      var files' := Opened(r.files, n, size);
      var tails' := NewTails(recs, tails, files', b.f);
      && (if m == map[] then k == 0 else IsMax(m, k))
      && b.f <= n && r.ret == 0
      && GoodFiles(cd, recs) && FitFiles(recs) && Sorted(History(cd, recs))
      && r.index == Above(PutAll(map[], History(cd, recs)), d) && FilesFit(r.index, files'.Keys)
      && FilesKept(cd, recs, files'.Keys, d)
      && (forall g :: g in files' ==> g <= n && files'[g] == Content(recs[g], tails'[g]))
      && |files'[n]| >= |EncodeAll(recs[n])| && tails'[n] == |files'[n]| - |EncodeAll(recs[n])|
      && (if n in r.files && r.files[n] != [] then r.writeAt else 0) == StartOffset(recs, tails, b.f)
      && (StartOffset(recs, tails, b.f) == |EncodeAll(recs[n])| <==> OffsetFound(recs, tails, b.f))
  {
    hide RebuildFiles, Content, EncodeAll, PutAll, PutsFrom, Above, Sorted, FilesFit, GoodFile, Trim, Opened, NewTails, FilesKept;
    var b := BeginOf(m, k);
    KeptFit(cd, recs, files.Keys, p, d, m);
    KeptBegin(cd, recs, files.Keys, p, d, m, k);
    Restored(cd, recs, tails, files, p, d, m, k);
    var r := RebuildFiles(cd, files, |recs| - 1, b.f, b.o, b.now, m, 0);
    OpenedDisk(recs, tails, files, r.files, b.f, size);
    GoodFit(cd, recs);
    hide OffsetFound, StartOffset, LastEnd;
    OffsetExact(recs, tails, b.f, r.files[|recs| - 1]);
  }

  /** The rebuilt index again satisfies everything the database relies on. */
  lemma Restored(cd: Codec, recs: seq<seq<Rec>>, tails: seq<nat>, files: Files, p: nat, d: nat, m: Index, k: nat)
    requires recs != [] && |tails| == |recs| && GoodFiles(cd, recs)
    requires Sorted(History(cd, recs)) && Survives(cd, recs, p, d, m)
    requires forall g :: g in files ==> g < |recs| && files[g] == Content(recs[g], tails[g])
    requires if m == map[] then p == 0 && d == 0 && k == 0 else IsMax(m, k)
    requires FilesFit(m, files.Keys)
    requires forall g :: BeginOf(m, k).f <= g < |recs| ==> g in files
    ensures var b := BeginOf(m, k);
      var r := RebuildFiles(cd, files, |recs| - 1, b.f, b.o, b.now, m, 0);
      && b.f < |recs| && r.ret == 0 && r.files.Keys == files.Keys
      && r.index == Above(PutAll(map[], History(cd, recs)), d)
      && r.writeAt == LastEnd(recs, tails, b.f, 0)
      && (forall g :: b.f <= g < |recs| ==> r.files[g] == Content(recs[g], Trim(tails[g])))
      && (forall g :: g in files && g < b.f ==> r.files[g] == files[g])
      && FilesFit(r.index, files.Keys)
  {
    RebuildRestoresIndex(cd, recs, tails, files, p, d, m, k);
    RestoredFit(cd, recs, files, p, d, m, k);
  }

  lemma NothingSurvived(cd: Codec, recs: seq<seq<Rec>>, p: nat, d: nat, m: Index)
    requires Survives(cd, recs, p, d, m)
    ensures p == 0 ==> m == map[]
  {
    assert History(cd, recs)[..0] == [];
  }

  lemma RestoredFit(cd: Codec, recs: seq<seq<Rec>>, files: Files, p: nat, d: nat, m: Index, k: nat)
    requires Sorted(History(cd, recs)) && Survives(cd, recs, p, d, m)
    requires if m == map[] then p == 0 && d == 0 && k == 0 else IsMax(m, k)
    requires FilesFit(m, files.Keys)
    requires forall g :: BeginOf(m, k).f <= g < |recs| ==> g in files
    ensures FilesFit(Above(PutAll(map[], History(cd, recs)), d), files.Keys)
  {
    hide Sorted, PutsFrom, PutAll, Survives;
    NothingSurvived(cd, recs, p, d, m);
    var full := PutAll(map[], History(cd, recs));
    var index := Above(full, d);
    if p > 0 {
      SurvivorIsLast(cd, recs, p, d, m, k);
    }
    forall j | j in index
      ensures index[j].file in files
    {
      RestoredFile(cd, recs, p, d, m, j);
    }
    forall i, j | i in index && j in index && i <= j
      ensures index[i].file <= index[j].file
    {
      IndexFilesAscend(cd, recs, i, j);
    }
  }

  /**
   * One put that leaves one to three bytes in the first file, a crash that loses nothing,
   * and a start: the index is right, but the next write goes to the start of the file,
   * over the record.
   */
  method TornTailLosesOffset(cd: Codec, fileMax: nat, inst: nat, value: Bytes) returns (db: Database)
    requires GoodRec(cd, Rec(inst, value)) && 1 <= fileMax - 12 - |value| <= 3
    ensures db.store.recs == [[Rec(inst, value)]] && inst in db.contents && db.contents[inst] == value
    ensures db.store.fileId == 0 && db.store.nowOffset == 0 < |EncodeAll(db.store.recs[0])| && !db.Valid()
  {
    db := OnePut(cd, fileMax, inst, value);
    hide PutAll, PutsFrom, Above, Sorted, ValuesAbove, FilesFit, FilesKept, GoodFile, Content, EncodeAll, CrashState;
    hide BeginOf, OffsetFound, StartOffset, Survives, IdOf, Encode, FitFile, IsMax, Database.Crashed, Values, Flat;
    ghost var r := Rec(inst, value);
    OneSurvives(cd, r, db.index, db.contents);
    ghost var k := db.Crash(db.index, 1);
    ghost var m := db.index;
    var _, k2 := db.Init(1, 0);
    MaxUnique(m, k, k2);
    OneSurvives(cd, r, db.index, db.contents);
    OneNotFound(r, fileMax - 12 - |value|, k2, db.index);
  }

  method OnePut(cd: Codec, fileMax: nat, inst: nat, value: Bytes) returns (db: Database)
    requires GoodRec(cd, Rec(inst, value)) && 12 + |value| <= fileMax
    ensures fresh(db) && fresh(db.store) && db.Valid() && db.floor == 0
    ensures db.store.cd == cd && db.store.recs == [[Rec(inst, value)]] && db.store.fileId == 0
    ensures db.store.tails == [fileMax - 12 - |value|]
  {
    db := EmptyDatabase(cd, fileMax, inst, value);
    hide *;
    GoodFits(cd, Rec(inst, value));
    db.ValidSound();
    db.Put(inst, value);
    OneRecord(cd, Rec(inst, value));
    db.OnlyFile(Rec(inst, value));
  }

  lemma GoodFits(cd: Codec, r: Rec)
    requires GoodRec(cd, r)
    ensures Fits(r)
  {
  }

  method EmptyDatabase(cd: Codec, fileMax: nat, ghost inst: nat, ghost value: Bytes) returns (db: Database)
    requires GoodRec(cd, Rec(inst, value))
    ensures fresh(db) && fresh(db.store) && db.Valid() && db.floor == 0 && db.InOrder(inst, value)
    ensures db.store.cd == cd && db.store.recs == [[]] && db.store.nowOffset == 0 && db.store.nowSize == fileMax
  {
    var store := new LogStore(cd, fileMax);
    db := new Database(store);
    EmptyHistory(cd);
  }

  lemma MaxUnique(m: Index, j: nat, k: nat)
    requires if m == map[] then j == 0 && k == 0 else IsMax(m, j) && IsMax(m, k)
    ensures j == k
  {
  }

  lemma OneRecord(cd: Codec, r: Rec)
    ensures Appended([[]], r, false) == [[r]] && |EncodeAll([r])| == |Encode(r)|
    ensures History(cd, [[r]]) == [Entry(r.inst, IdOf(cd, 0, [r], 0))]
    ensures Flat([[r]], 0) == [r]
  {
    assert [] + [r] == [r] && [r][..0] == [];
    assert PutsFrom(cd, [[r]], 1) == [] && Flat([[r]], 1) == [];
    assert Puts(cd, 0, [r]) == [Entry(r.inst, IdOf(cd, 0, [r], 0))];
  }

  lemma OneSurvives(cd: Codec, r: Rec, index: Index, contents: map<nat, Bytes>)
    requires index == Above(PutAll(map[], History(cd, [[r]])), 0) && contents == ValuesAbove([[r]], 0)
    ensures |History(cd, [[r]])| == 1 && Survives(cd, [[r]], 1, 0, index)
    ensures index == map[r.inst := IdOf(cd, 0, [r], 0)] && contents == map[r.inst := r.buf]
  {
    OneRecord(cd, r);
    var h := History(cd, [[r]]);
    assert h[..1] == h;
    PutLast(map[], [], h[0]);
    assert [] + [h[0]] == h;
    ValuesPut([], r);
    assert [] + [r] == [r];
  }

  lemma OneNotFound(r: Rec, tail: nat, k: nat, index: Index)
    requires 1 <= tail <= 3
    ensures !OffsetFound([[r]], [tail], BeginOf(index, k).f) && StartOffset([[r]], [tail], BeginOf(index, k).f) == 0
    ensures |EncodeAll([r])| > 0
  {
    EncodedNotEmpty([r]);
  }
}
