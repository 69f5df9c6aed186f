/** The checkpoint transfer: what a sender cuts its files into, and what the blocks rebuild. */
module CheckpointTransfer {
  import opened PaxosTypes

  type Path = seq<nat>

  /** A source file: state machine, name below the target directory, path at the source. */
  datatype Src = Src(smid: nat, name: Path, source: Path, data: Value)

  datatype Block = Block(smid: nat, name: Path, offset: nat, data: Value)

  /** The block size, and where a file of a state machine goes at the receiver. */
  datatype Layout = Layout(size: nat, target: (nat, Path) -> Path)

  // ---------------------------------------------------------------- what a sender cuts

  /** The blocks of one file from `offset` on; an empty rest gives none. */
  function Cut(c: Layout, f: Src, offset: nat): seq<Block>
    requires c.size > 0 && offset <= |f.data|
    decreases |f.data| - offset
  {
    if offset == |f.data| then []
    else if offset + c.size > |f.data| then [Block(f.smid, f.name, offset, f.data[offset..])]
    else [Block(f.smid, f.name, offset, f.data[offset..offset + c.size])] + Cut(c, f, offset + c.size)
  }

  /** The blocks of all files; a source path already sent is skipped. */
  function Blocks(c: Layout, fs: seq<Src>, done: set<Path>): seq<Block>
    requires c.size > 0
  {
    if fs == [] then []
    else if fs[0].source in done then Blocks(c, fs[1..], done)
    else Cut(c, fs[0], 0) + Blocks(c, fs[1..], done + {fs[0].source})
  }

  // ---------------------------------------------------------------- what a receiver builds

  type Store = map<Path, Value>

  function Size(files: Store, p: Path): nat {
    if p in files then |files[p]| else 0
  }

  function AppendTo(files: Store, p: Path, data: Value): Store {
    files[p := (if p in files then files[p] else []) + data]
  }

  /** The files after these blocks, each appended to its target. */
  function Built(c: Layout, bs: seq<Block>): Store {
    if bs == [] then map[]
    else
      var b := bs[|bs| - 1];
      AppendTo(Built(c, bs[..|bs| - 1]), c.target(b.smid, b.name), b.data)
  }

  /** The source files that hold anything, at their targets. */
  function Whole(c: Layout, fs: seq<Src>): Store {
    if fs == [] then map[]
    else
      var f := fs[|fs| - 1];
      var m := Whole(c, fs[..|fs| - 1]);
      if f.data == [] then m else m[c.target(f.smid, f.name) := f.data]
  }

  /** Different files have different sources and different targets. */
  predicate Distinct(c: Layout, fs: seq<Src>) {
    forall i, j :: 0 <= i < j < |fs| ==>
      && fs[i].source != fs[j].source
      && c.target(fs[i].smid, fs[i].name) != c.target(fs[j].smid, fs[j].name)
  }

  lemma {:induction false} BuiltJoin(c: Layout, a: seq<Block>, b: Block)
    ensures Built(c, a + [b]) == AppendTo(Built(c, a), c.target(b.smid, b.name), b.data)
  {
    assert (a + [b])[..|a|] == a;
  }

  /** The first block of the rest of a file. */
  function Piece(c: Layout, f: Src, offset: nat): Block
    requires c.size > 0 && offset < |f.data|
  {
    Block(f.smid, f.name, offset, f.data[offset..PieceEnd(c, f, offset)])
  }

  function PieceEnd(c: Layout, f: Src, offset: nat): (next: nat)
    requires c.size > 0 && offset < |f.data|
    ensures offset < next <= |f.data|
  {
    if offset + c.size > |f.data| then |f.data| else offset + c.size
  }

  lemma CutStep(c: Layout, f: Src, offset: nat)
    requires c.size > 0 && offset < |f.data|
    ensures Cut(c, f, offset) == [Piece(c, f, offset)] + Cut(c, f, PieceEnd(c, f, offset))
    ensures f.data[..offset] + Piece(c, f, offset).data == f.data[..PieceEnd(c, f, offset)]
  {
    if offset + c.size > |f.data| {
      assert f.data[offset..] == f.data[offset..|f.data|];
      assert Cut(c, f, |f.data|) == [];
    }
  }

  /** Files already at other targets do not disturb a file being sent. */
  lemma {:induction false} CutBuilds(c: Layout, a: seq<Block>, f: Src, offset: nat)
    requires c.size > 0 && offset <= |f.data|
    requires var p := c.target(f.smid, f.name);
      if offset == 0 then p !in Built(c, a) else p in Built(c, a) && Built(c, a)[p] == f.data[..offset]
    ensures var p := c.target(f.smid, f.name);
      Built(c, a + Cut(c, f, offset)) == if f.data == [] then Built(c, a) else Built(c, a)[p := f.data]
    decreases |f.data| - offset
  {
    var p := c.target(f.smid, f.name);
    if offset == |f.data| {
      assert a + [] == a;
      assert f.data[..offset] == f.data;
    } else {
      var b := Piece(c, f, offset);
      var next := PieceEnd(c, f, offset);
      CutStep(c, f, offset);
      BuiltJoin(c, a, b);
      CutBuilds(c, a + [b], f, next);
      assert a + ([b] + Cut(c, f, next)) == a + [b] + Cut(c, f, next);
    }
  }

  predicate Fresh(c: Layout, m: Store, done: set<Path>, fs: seq<Src>) {
    forall i :: 0 <= i < |fs| ==> fs[i].source !in done && c.target(fs[i].smid, fs[i].name) !in m
  }

  lemma {:induction false} WholeSplit(c: Layout, fs: seq<Src>)
    requires Distinct(c, fs) && fs != []
    ensures var f := fs[0];
      var p := c.target(f.smid, f.name);
      && p !in Whole(c, fs[1..])
      && Whole(c, fs) == if f.data == [] then Whole(c, fs[1..]) else map[p := f.data] + Whole(c, fs[1..])
    decreases |fs|
  {
    var n := |fs| - 1;
    if n > 0 {
      var init := fs[..n];
      var g := fs[n];
      assert fs[1..] == init[1..] + [g] && fs == init + [g];
      WholeLast(c, init, g);
      WholeLast(c, init[1..], g);
      DistinctInit(c, init, g);
      hide Whole, Distinct;
      WholeSplit(c, init);
      UpdateLater(c.target(fs[0].smid, fs[0].name), fs[0].data, Whole(c, init[1..]), c.target(g.smid, g.name), g.data);
    } else {
      WholeOne(c, fs);
    }
  }

  lemma WholeOne(c: Layout, fs: seq<Src>)
    requires |fs| == 1
    ensures Whole(c, fs[1..]) == map[]
    ensures Whole(c, fs) == if fs[0].data == [] then map[] else map[c.target(fs[0].smid, fs[0].name) := fs[0].data]
  {
    assert fs[1..] == [] && fs[..0] == [];
  }

  lemma UpdateLater(p: Path, d: Value, m: Store, q: Path, e: Value)
    requires p != q
    ensures map[p := d] + m[q := e] == (map[p := d] + m)[q := e]
  {
  }

  lemma WholeLast(c: Layout, fs: seq<Src>, g: Src)
    ensures Whole(c, fs + [g]) ==
      if g.data == [] then Whole(c, fs) else Whole(c, fs)[c.target(g.smid, g.name) := g.data]
  {
    assert (fs + [g])[..|fs|] == fs;
  }

  lemma DistinctInit(c: Layout, fs: seq<Src>, g: Src)
    requires Distinct(c, fs + [g]) && fs != []
    ensures Distinct(c, fs) && c.target(fs[0].smid, fs[0].name) != c.target(g.smid, g.name)
  {
    forall i, j | 0 <= i < j < |fs|
      ensures fs[i].source != fs[j].source && c.target(fs[i].smid, fs[i].name) != c.target(fs[j].smid, fs[j].name)
    {
      assert (fs + [g])[i] == fs[i] && (fs + [g])[j] == fs[j];
    }
    assert (fs + [g])[0] == fs[0] && (fs + [g])[|fs|] == g;
  }

  lemma BlocksStep(c: Layout, fs: seq<Src>, done: set<Path>)
    requires c.size > 0 && fs != [] && fs[0].source !in done
    ensures Blocks(c, fs, done) == Cut(c, fs[0], 0) + Blocks(c, fs[1..], done + {fs[0].source})
  {
  }

  lemma FreshFirst(c: Layout, m: Store, done: set<Path>, fs: seq<Src>)
    requires Fresh(c, m, done, fs) && fs != []
    ensures fs[0].source !in done && c.target(fs[0].smid, fs[0].name) !in m
  {
  }

  /** After the first file, the others are still fresh. */
  lemma FreshNext(c: Layout, m: Store, m': Store, done: set<Path>, fs: seq<Src>)
    requires fs != [] && Distinct(c, fs) && Fresh(c, m, done, fs)
    requires m'.Keys <= m.Keys + {c.target(fs[0].smid, fs[0].name)}
    ensures Distinct(c, fs[1..]) && Fresh(c, m', done + {fs[0].source}, fs[1..])
  {
  }

  lemma MergeFirst(m: Store, p: Path, data: Value, rest: Store)
    ensures m[p := data] + rest == m + (map[p := data] + rest)
  {
  }

  lemma BuildNothing(c: Layout, a: seq<Block>, done: set<Path>)
    requires c.size > 0
    ensures Built(c, a + Blocks(c, [], done)) == Built(c, a) + Whole(c, [])
  {
    assert a + [] == a;
    assert Built(c, a) + map[] == Built(c, a);
  }

  lemma {:induction false} BlocksBuild(c: Layout, a: seq<Block>, fs: seq<Src>, done: set<Path>)
    requires c.size > 0 && Distinct(c, fs) && Fresh(c, Built(c, a), done, fs)
    ensures Built(c, a + Blocks(c, fs, done)) == Built(c, a) + Whole(c, fs)
    decreases |fs|
  {
    hide *;
    if fs == [] {
      BuildNothing(c, a, done);
    } else {
      var f := fs[0];
      var bs := Cut(c, f, 0);
      FreshFirst(c, Built(c, a), done, fs);
      var rest := Blocks(c, fs[1..], done + {f.source});
      BlocksStep(c, fs, done);
      CutBuilds(c, a, f, 0);
      WholeSplit(c, fs);
      FreshNext(c, Built(c, a), Built(c, a + bs), done, fs);
      BlocksBuild(c, a + bs, fs[1..], done + {f.source});
      assert a + (bs + rest) == a + bs + rest;
      MergeFirst(Built(c, a), c.target(f.smid, f.name), f.data, Whole(c, fs[1..]));
    }
  }

  /** All blocks together rebuild exactly the non-empty source files. */
  lemma AllBlocksBuildWhole(c: Layout, fs: seq<Src>)
    requires c.size > 0 && Distinct(c, fs)
    ensures Built(c, Blocks(c, fs, {})) == Whole(c, fs)
  {
    assert Built(c, []) == map[] && Fresh(c, Built(c, []), {}, fs);
    hide Built, Blocks, Whole, Distinct, Fresh;
    BlocksBuild(c, [], fs, {});
    assert [] + Blocks(c, fs, {}) == Blocks(c, fs, {});
    assert map[] + Whole(c, fs) == Whole(c, fs);
  }

  lemma {:induction false} WholeAt(c: Layout, fs: seq<Src>, i: nat)
    requires Distinct(c, fs) && i < |fs|
    ensures var p := c.target(fs[i].smid, fs[i].name);
      if fs[i].data == [] then p !in Whole(c, fs) else p in Whole(c, fs) && Whole(c, fs)[p] == fs[i].data
    decreases |fs|
  {
    var n := |fs| - 1;
    if i < n {
      WholeAt(c, fs[..n], i);
    } else {
      WholeKeys(c, fs[..n]);
    }
  }

  lemma {:induction false} WholeKeys(c: Layout, fs: seq<Src>)
    ensures forall p :: p in Whole(c, fs) ==>
      exists i :: 0 <= i < |fs| && p == c.target(fs[i].smid, fs[i].name)
    decreases |fs|
  {
    if fs != [] {
      WholeKeys(c, fs[..|fs| - 1]);
    }
  }

  /** Each block's offset is what the blocks before it have put at its target. */
  lemma {:induction false} OffsetsFit(c: Layout, a: seq<Block>, fs: seq<Src>, done: set<Path>, k: nat)
    requires c.size > 0 && Distinct(c, fs) && Fresh(c, Built(c, a), done, fs) && k < |Blocks(c, fs, done)|
    ensures var b := Blocks(c, fs, done)[k];
      Size(Built(c, a + Blocks(c, fs, done)[..k]), c.target(b.smid, b.name)) == b.offset
    decreases |fs|
  {
    hide *;
    SomeFile(c, fs, done, k);
    var f := fs[0];
    var bs := Cut(c, f, 0);
    var rest := Blocks(c, fs[1..], done + {f.source});
    FreshFirst(c, Built(c, a), done, fs);
    BlocksStep(c, fs, done);
    CutBuilds(c, a, f, 0);
    TakeJoin(a, bs, rest, k);
    if k < |bs| {
      CutOffsets(c, a, f, 0, k);
    } else {
      FreshNext(c, Built(c, a), Built(c, a + bs), done, fs);
      OffsetsFit(c, a + bs, fs[1..], done + {f.source}, k - |bs|);
    }
  }

  lemma SomeFile(c: Layout, fs: seq<Src>, done: set<Path>, k: nat)
    requires c.size > 0 && k < |Blocks(c, fs, done)|
    ensures fs != []
  {
  }

  lemma TakeJoin(a: seq<Block>, bs: seq<Block>, rest: seq<Block>, k: nat)
    requires k < |bs + rest|
    ensures k < |bs| ==> (bs + rest)[..k] == bs[..k] && (bs + rest)[k] == bs[k]
    ensures k >= |bs| ==>
      a + (bs + rest)[..k] == a + bs + rest[..k - |bs|] && (bs + rest)[k] == rest[k - |bs|]
  {
  }

  lemma {:induction false} CutOffsets(c: Layout, a: seq<Block>, f: Src, offset: nat, k: nat)
    requires c.size > 0 && offset <= |f.data| && k < |Cut(c, f, offset)|
    requires var p := c.target(f.smid, f.name);
      if offset == 0 then p !in Built(c, a) else p in Built(c, a) && Built(c, a)[p] == f.data[..offset]
    ensures var b := Cut(c, f, offset)[k];
      Size(Built(c, a + Cut(c, f, offset)[..k]), c.target(b.smid, b.name)) == b.offset
    decreases |f.data| - offset
  {
    var bs := Cut(c, f, offset);
    CutStep(c, f, offset);
    if k == 0 {
      assert a + bs[..0] == a;
    } else {
      var b := Piece(c, f, offset);
      var next := PieceEnd(c, f, offset);
      BuiltJoin(c, a, b);
      hide Built, Cut;
      CutOffsets(c, a + [b], f, next, k - 1);
      assert a + bs[..k] == a + [b] + Cut(c, f, next)[..k - 1];
    }
  }
}
