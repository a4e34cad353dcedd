/**
 Runs of commands on the store: what a whole run does to the files, and where
 every block is at each moment.
 */
module FatRuns {
  import opened Bytes
  import opened FatTable
  import opened Disk
  import opened DiskSteps
  import opened FileCopy
  import opened Views
  import opened FatFs
  import opened FatCommands
  import opened FatOverwrite

  // ---- where the blocks are ------------------------------------------------

  function Length(ch: Chains, o: Owner): nat {
    if o in ch then |ch[o]| else 0
  }

  ghost function BlockSum(ch: Chains, os: set<Owner>): nat {
    if os == {} then 0 else var o :| o in os; Length(ch, o) + BlockSum(ch, os - {o})
  }

  lemma {:induction false} BlockSumTake(ch: Chains, os: set<Owner>, o: Owner)
    requires o in os
    ensures BlockSum(ch, os) == Length(ch, o) + BlockSum(ch, os - {o})
    decreases |os|
  {
    hide Length;
    var p :| p in os && BlockSum(ch, os) == Length(ch, p) + BlockSum(ch, os - {p});
    if p != o {
      BlockSumTake(ch, os - {p}, o);
      BlockSumTake(ch, os - {o}, p);
      assert os - {p} - {o} == os - {o} - {p};
    }
  }

  ghost predicate OnChain(ch: Chains, os: set<Owner>, x: nat) {
    exists o :: o in os && o in ch && x in ch[o]
  }

  /** The cells on the chains of `os`. */
  ghost function CellsOf(f: seq<nat>, ch: Chains, os: set<Owner>): set<nat> {
    set x | 0 <= x < |f| && OnChain(ch, os, x)
  }

  lemma {:induction false} CellsCount(f: seq<nat>, ch: Chains, os: set<Owner>)
    requires Forest(f, ch) && os <= ch.Keys
    ensures |CellsOf(f, ch, os)| == BlockSum(ch, os)
    decreases |os|
  {
    if os == {} {
      assert CellsOf(f, ch, os) == {};
    } else {
      var o :| o in os;
      var rest := os - {o};
      CellsCount(f, ch, rest);
      BlockSumTake(ch, os, o);
      assert Chain(f, ch[o]);
      DistinctCount(ch[o]);
      CellsSplit(f, ch, os, o);
    }
  }

  lemma CellsSplit(f: seq<nat>, ch: Chains, os: set<Owner>, o: Owner)
    requires Forest(f, ch) && os <= ch.Keys && o in os
    ensures CellsOf(f, ch, os) == CellsOf(f, ch, os - {o}) + Cells(ch[o])
    ensures CellsOf(f, ch, os - {o}) !! Cells(ch[o])
  {
    assert Chain(f, ch[o]);
    forall x ensures x in CellsOf(f, ch, os) <==> x in CellsOf(f, ch, os - {o}) || x in ch[o] {
      if x in ch[o] {
        var i :| 0 <= i < |ch[o]| && ch[o][i] == x;
        assert x < |f|;
      }
    }
  }

  /** Every block is free or lies on exactly one chain. */
  lemma Accounted(f: seq<nat>, ch: Chains)
    requires Forest(f, ch)
    ensures FreeCount(f) + BlockSum(ch, ch.Keys) == |f| - 1
  {
    var used, free := CellsOf(f, ch, ch.Keys), FreeSet(f);
    CellsCount(f, ch, ch.Keys);
    forall x ensures 1 <= x < |f| <==> x in used + free {
      if 1 <= x < |f| { OwnedExactly(f, ch, x); }
      if x in used { var o :| o in ch && x in ch[o]; assert Chain(f, ch[o]); }
    }
    forall x | x in used ensures x !in free { OwnedExactly(f, ch, x); }
    AllCells(used + free, |f|);
  }

  lemma {:induction false} AllCells(s: set<nat>, n: nat)
    requires n > 0 && forall x: nat :: 1 <= x < n <==> x in s
    ensures |s| == n - 1
    decreases n
  {
    if n == 1 {
      assert s == {};
    } else {
      AllCells(s - {n - 1}, n - 1);
    }
  }

  /** The blocks that files of these lengths need. */
  ghost function FileBlocks(v: Files, names: set<seq<Byte>>, bs: nat): nat
    requires bs > 0 && names <= v.Keys
    decreases |names|
  {
    if names == {} then 0 else var n :| n in names; Ceil(|v[n]|, bs) + FileBlocks(v, names - {n}, bs)
  }

  lemma {:induction false} FileBlocksAre(im: Image, l: Layout, names: set<seq<Byte>>, os: set<Owner>)
    requires Inv(im, l) && im.bs > 0 && names <= View(im, l).Keys && names <= l.names.Keys
    requires os == set n | n in names :: l.names[n]
    ensures FileBlocks(View(im, l), names, im.bs) == BlockSum(l.chains, os)
    decreases |names|
  {
    hide Struct, AllTight, View, Ceil;
    if names == {} {
      assert os == {};
    } else {
      var v := View(im, l);
      var n :| n in names && FileBlocks(v, names, im.bs) == Ceil(|v[n]|, im.bs) + FileBlocks(v, names - {n}, im.bs);
      var o := l.names[n];
      ViewSize(im, l, n);
      OthersDiffer(im, l, names, n);
      assert os - {o} == set m | m in names - {n} :: l.names[m];
      FileBlocksAre(im, l, names - {n}, os - {o});
      BlockSumTake(l.chains, os, o);
    }
  }

  lemma OthersDiffer(im: Image, l: Layout, names: set<seq<Byte>>, n: seq<Byte>)
    requires Struct(im, l) && names <= l.names.Keys && n in names
    ensures forall m :: m in names && m != n ==> l.names[m] != l.names[n]
  {
    hide Struct;
    forall m | m in names && m != n ensures l.names[m] != l.names[n] { NameDiffer(im, l, m, n); }
  }

  lemma SlotsNamed(im: Image, l: Layout)
    requires Struct(im, l)
    ensures Root in l.chains && l.chains.Keys - {Root} == set n | n in l.names :: l.names[n]
  {
    hide Forest, Packed, FreeZero, Shape, Live, At, NameOk;
    forall o ensures o in l.chains.Keys - {Root} <==> o in (set n | n in l.names :: l.names[n]) {
      if o in l.chains && o != Root {
        assert o == Slot(o.blk, o.idx);
        assert l.names[At(im, o.blk, o.idx).name] == o;
      }
    }
  }

  /** Conservation: free blocks, directory blocks and the blocks the files' lengths need
      add up to all blocks there are. */
  lemma Conservation(im: Image, l: Layout)
    requires Inv(im, l) && im.bs > 0
    ensures Root in l.chains
    ensures FreeCount(im.fat) + |l.chains[Root]| + FileBlocks(View(im, l), View(im, l).Keys, im.bs) == |im.fat| - 1
  {
    hide AllTight, View, FreeCount, Frame, Ceil;
    ViewKeys(im, l);
    SlotsNamed(im, l);
    Accounted(im.fat, l.chains);
    BlockSumTake(l.chains, l.chains.Keys, Root);
    FileBlocksAre(im, l, l.names.Keys, l.chains.Keys - {Root});
  }

  // ---- commands ------------------------------------------------------------

  datatype Command =
    | Touching(name: Name)
    | Removing(name: Name)
    | Moving(src: Name, dst: Name)
    | Overwriting(name: Name, data: seq<Byte>)
    | Appending(name: Name, data: seq<Byte>)
    | Concatenating(files: seq<Name>, dest: Name)

  /** What each command is for. */
  function Apply(v: Files, c: Command): Files {
    match c
    case Touching(n) => if n in v then v else v[n := []]
    case Removing(n) => v - {n}
    case Moving(src, dst) => if src in v then (v - {src})[dst := v[src]] else v
    case Overwriting(n, data) => v[n := data]
    case Appending(n, data) => if n in v then v[n := v[n] + data] else v
    case Concatenating(files, dest) => if dest in v then ConcatAll(v, files, dest) else v
  }

  /** The names a command looks at, and those it may change. */
  function Names(c: Command): set<seq<Byte>> {
    match c
    case Moving(src, dst) => {src, dst}
    case Concatenating(files, dest) => {dest} + set f | f in files
    case _ => {c.name}
  }

  function Changes(c: Command): (ns: set<seq<Byte>>)
    ensures ns <= Names(c)
  {
    match c
    case Moving(src, dst) => {src, dst}
    case Concatenating(_, dest) => {dest}
    case _ => {c.name}
  }

  /** The contents of the files, one behind the other. */
  function Gathered(v: Files, files: seq<Name>): seq<Byte>
    requires forall f :: f in files ==> f in v
  {
    if files == [] then [] else v[files[0]] + Gathered(v, files[1..])
  }

  lemma {:induction false} ConcatGathers(v: Files, w: Files, files: seq<Name>, dest: Name)
    requires dest in w && dest !in files && forall f :: f in files ==> f in v
    requires forall f :: f in files ==> f in w && w[f] == v[f]
    ensures ConcatAll(w, files, dest)[dest] == w[dest] + Gathered(v, files)
    decreases |files|
  {
    if files != [] {
      var u := w[dest := w[dest] + w[files[0]]];
      ConcatGathers(v, u, files[1..], dest);
      assert w[dest] + Gathered(v, files) == u[dest] + Gathered(v, files[1..]);
    }
  }

  /** A concatenation depends on the files it names only. */
  lemma {:induction false} ConcatSame(v: Files, w: Files, files: seq<Name>, dest: Name)
    requires dest in v && dest in w && v[dest] == w[dest]
    requires forall f :: f in files ==> (f in v <==> f in w) && (f in v ==> v[f] == w[f])
    ensures ConcatAll(v, files, dest)[dest] == ConcatAll(w, files, dest)[dest]
    decreases |files|
  {
    if files != [] && files[0] in v {
      ConcatSame(v[dest := v[dest] + v[files[0]]], w[dest := w[dest] + w[files[0]]], files[1..], dest);
    }
  }

  ghost predicate SameOn(v: Files, w: Files, n: seq<Byte>) {
    (n in v <==> n in w) && (n in v ==> v[n] == w[n])
  }

  /** Commands that change nothing the other looks at can change places. */
  lemma Commute(v: Files, c: Command, d: Command)
    requires Changes(c) !! Names(d) && Changes(d) !! Names(c)
    ensures Apply(Apply(v, c), d) == Apply(Apply(v, d), c)
  {
    hide Apply, SameOn, Names, Changes;
    var a, b := Apply(Apply(v, c), d), Apply(Apply(v, d), c);
    ChangesOnly(v, c);
    ChangesOnly(v, d);
    ChangesOnly(Apply(v, c), d);
    ChangesOnly(Apply(v, d), c);
    Locally(v, Apply(v, d), c);
    Locally(v, Apply(v, c), d);
    forall n ensures SameOn(a, b, n) {
      if n in Changes(c) { SameBoth(Apply(v, c), a, b, n); }
      else if n in Changes(d) { SameBoth(Apply(v, d), a, b, n); }
      else {
        SameBoth(v, Apply(v, c), Apply(v, d), n);
        SameBoth(Apply(v, c), a, Apply(v, d), n);
        SameBoth(Apply(v, d), a, b, n);
      }
    }
    SameAll(a, b);
  }

  /** Moving a file to a new name and back changes nothing. */
  lemma MoveBack(v: Files, a: Name, b: Name)
    requires a in v && b !in v
    ensures ApplyAll(v, [Moving(a, b)]) == (v - {a})[b := v[a]]
    ensures ApplyAll(v, [Moving(a, b), Moving(b, a)]) == v
  {
    ApplyOne(v, Moving(a, b));
    ApplyTwo(v, Moving(a, b), Moving(b, a));
  }

  /** Writing in two calls is writing all at once; what is removed afterwards does not matter. */
  lemma WrittenTwice(v: Files, n: Name, x: seq<Byte>, y: seq<Byte>)
    ensures ApplyAll(v, [Overwriting(n, x), Appending(n, y)]) == v[n := x + y]
    ensures ApplyAll(v, [Overwriting(n, x), Overwriting(n, y)]) == v[n := y]
    ensures ApplyAll(v, [Overwriting(n, x), Removing(n)]) == v - {n}
    ensures n !in v ==> ApplyAll(v, [Touching(n), Removing(n)]) == v
  {
    ApplyTwo(v, Overwriting(n, x), Appending(n, y));
    ApplyTwo(v, Overwriting(n, x), Overwriting(n, y));
    ApplyTwo(v, Overwriting(n, x), Removing(n));
    ApplyTwo(v, Touching(n), Removing(n));
    hide ApplyAll;
    WrittenOver(v, n, x, y);
    assert v[n := x][n := x + y] == v[n := x + y];
  }

  lemma WrittenOver(v: Files, n: Name, x: seq<Byte>, y: seq<Byte>)
    ensures v[n := x][n := y] == v[n := y] && v[n := x] - {n} == v - {n} && (n !in v ==> v[n := []] - {n} == v)
  {
  }

  lemma ApplyOne(v: Files, c: Command)
    ensures ApplyAll(v, [c]) == Apply(v, c)
  {
    assert [c][..0] == [];
  }

  lemma ApplyTwo(v: Files, c: Command, d: Command)
    ensures ApplyAll(v, [c, d]) == Apply(Apply(v, c), d)
  {
    assert [c, d][..1] == [c];
    ApplyOne(v, c);
  }

  /** Appending a file to another, and the same with the bytes written out. */
  lemma ConcatIsAppend(v: Files, f: Name, n: Name)
    requires f in v && n in v
    ensures Apply(v, Concatenating([f], n)) == Apply(v, Appending(n, v[f]))
    ensures Apply(v, Appending(n, v[f])) == v[n := v[n] + v[f]]
  {
    assert ConcatAll(v[n := v[n] + v[f]], [f][1..], n) == v[n := v[n] + v[f]];
  }

  lemma SameBoth(v: Files, a: Files, b: Files, n: seq<Byte>)
    requires SameOn(v, a, n) && SameOn(v, b, n)
    ensures SameOn(a, b, n) && SameOn(a, v, n)
  {
  }

  lemma SameAll(a: Files, b: Files)
    requires forall n :: SameOn(a, b, n)
    ensures a == b
  {
    assert forall n :: SameOn(a, b, n) ==> (n in a <==> n in b) && (n in a ==> a[n] == b[n]);
  }

  /** No other name is touched. */
  lemma ChangesOnly(v: Files, c: Command)
    ensures forall n :: n !in Changes(c) ==> SameOn(v, Apply(v, c), n)
  {
  }

  /** The effect depends on the files a command names only. */
  lemma Locally(v: Files, w: Files, c: Command)
    requires forall n :: n in Names(c) ==> SameOn(v, w, n)
    ensures forall n :: n in Changes(c) ==> SameOn(Apply(v, c), Apply(w, c), n)
  {
    if c.Concatenating? {
      assert SameOn(v, w, c.dest);
      forall f | f in c.files ensures (f in v <==> f in w) && (f in v ==> v[f] == w[f]) { assert SameOn(v, w, f); }
      if c.dest in v { ConcatSame(v, w, c.files, c.dest); }
    } else if c.Moving? {
      assert SameOn(v, w, c.src) && SameOn(v, w, c.dst);
    } else {
      assert SameOn(v, w, c.name);
    }
  }

  /** What the code needs to do it. */
  ghost predicate Allowed(fs: Store, c: Command)
    reads fs, fs.fat, fs.disk
    requires Mounted(fs)
  {
    var v := Contents(fs);
    match c
    case Touching(n) => n in v || Placeable(fs.Img(), fs.lay)
    case Removing(n) => true
    case Moving(src, dst) => src == dst && src in v ==> v[src] == []
    case Overwriting(n, data) =>
      && data != [] && |data| < 0x8000_0000 && (n in v ==> |data| <= fs.bs && (v[n] == [] ==> Free(fs) > 0))
      && (n !in v ==> Free(fs) > 0 && Placeable(fs.Img(), fs.lay) && RoomToCreate(fs.Img(), fs.lay, |data|))
    case Appending(n, data) =>
      |data| < 0x8000_0000 && (n in v ==> v[n] != [] && Needed(|v[n]|, |data|, fs.bs) <= Free(fs))
    case Concatenating(files, dest) =>
      dest in v ==> v[dest] != [] && Needed(|v[dest]|, |ConcatAll(v, files, dest)[dest]| - |v[dest]|, fs.bs) <= Free(fs)
  }

  /** Each admissible command does to the files what it is for, and keeps the store well formed. */
  method Execute(fs: Store, c: Command)
    requires Mounted(fs) && Allowed(fs, c)
    modifies fs.fat, fs.disk, fs`lay
    ensures Valid(fs) && Contents(fs) == Apply(old(Contents(fs)), c)
    ensures var v, w := old(Contents(fs)), Contents(fs);
      && (forall n :: n !in Changes(c) ==> SameOn(v, w, n))
      && (c.Touching? ==> c.name in w && w[c.name] == if c.name in v then v[c.name] else [])
      && (c.Removing? ==> c.name !in w)
      && (c.Moving? && c.src in v && c.src != c.dst ==> c.src !in w && c.dst in w && w[c.dst] == v[c.src])
      && (c.Moving? && (c.src !in v || c.src == c.dst) ==> w == v)
      && (c.Overwriting? ==> c.name in w && w[c.name] == c.data)
      && (c.Appending? && c.name in v ==> c.name in w && w[c.name] == v[c.name] + c.data)
      && ((c.Appending? && c.name !in v) || (c.Concatenating? && c.dest !in v) ==> w == v)
      && (c.Concatenating? && c.dest in v && c.dest !in c.files && (forall f :: f in c.files ==> f in v) ==>
            c.dest in w && w[c.dest] == v[c.dest] + Gathered(v, c.files))
  {
    hide Struct, AllTight, View, FreeCount, Placeable, CutsOff, RoomToCreate, Ceil, Erased, Appended, CreatedOnly,
         FillsBlock, NameOk;
    ghost var im, l := fs.Img(), fs.lay;
    ViewKeys(im, l);
    FatCells(im, l);
    match c {
    case Touching(n) =>
      Touch(fs, n);
    case Removing(n) =>
      var r := Rm(fs, n);
      assert r == -1 ==> Contents(fs) - {n} == Contents(fs);
    case Moving(src, dst) =>
      var r := Mv(fs, src, dst);
      if src == dst && src in View(im, l) { assert (View(im, l) - {src})[dst := View(im, l)[src]] == View(im, l); }
    case Overwriting(n, data) =>
      if n !in View(im, l) { CreateFitsIff(im, l, |data|); }
      assert data[..|data|] == data;
      var r := CatOverwrite(fs, data, n);
    case Appending(n, data) =>
      var r := CatAppend(fs, data, n);
      if r == 0 { AppendedView(im, l, fs.Img(), fs.lay, n, data); }
    case Concatenating(files, dest) => ConcatAppend(fs, files, dest);
    }
    assert fs.Img() == im ==> fs.fat[..][0] == im.fat[0];
    assert Contents(fs) == Apply(View(im, l), c);
    Effect(View(im, l), c);
  }

  /** Each command, name by name. */
  lemma Effect(v: Files, c: Command)
    ensures var w := Apply(v, c);
      && (forall n :: n !in Changes(c) ==> SameOn(v, w, n))
      && (c.Touching? ==> c.name in w && w[c.name] == if c.name in v then v[c.name] else [])
      && (c.Removing? ==> c.name !in w)
      && (c.Moving? && c.src in v && c.src != c.dst ==> c.src !in w && c.dst in w && w[c.dst] == v[c.src])
      && (c.Moving? && (c.src !in v || c.src == c.dst) ==> w == v)
      && (c.Overwriting? ==> c.name in w && w[c.name] == c.data)
      && (c.Appending? && c.name in v ==> c.name in w && w[c.name] == v[c.name] + c.data)
      && ((c.Appending? && c.name !in v) || (c.Concatenating? && c.dest !in v) ==> w == v)
      && (c.Concatenating? && c.dest in v && c.dest !in c.files && (forall f :: f in c.files ==> f in v) ==>
            c.dest in w && w[c.dest] == v[c.dest] + Gathered(v, c.files))
  {
    ChangesOnly(v, c);
    if c.Concatenating? && c.dest in v && c.dest !in c.files && (forall f :: f in c.files ==> f in v) {
      ConcatGathers(v, v, c.files, c.dest);
    }
    if c.Moving? && c.src in v && c.src == c.dst { assert (v - {c.src})[c.src := v[c.src]] == v; }
  }

  lemma AppendedView(im0: Image, l0: Layout, im: Image, l: Layout, n: seq<Byte>, data: seq<Byte>)
    requires Appended(im0, l0, im, l, n, data)
    ensures var v := View(im0, l0); n in v && View(im, l) == v[n := v[n] + data]
  {
    hide Inv, View;
  }

  // ---- testing admissibility -----------------------------------------------

  method CountFree(fs: Store) returns (n: nat)
    ensures n == Free(fs)
  {
    n := 0;
    ghost var found: set<nat> := {};
    var x := 1;
    while x < fs.fat.Length
      invariant 1 <= x && (fs.fat.Length > 0 ==> x <= fs.fat.Length)
      invariant found == (set y | 1 <= y < x && y < fs.fat.Length && fs.fat[..][y] == 0) && n == |found|
    {
      if fs.fat[x] == 0 {
        n := n + 1;
        found := found + {x};
      }
      x := x + 1;
    }
    assert found == FreeSet(fs.fat[..]);
  }

  /** The length of a file, or -1. */
  method SizeOf(fs: Store, name: Name) returns (size: int)
    requires Valid(fs)
    ensures size == if name in Contents(fs) then |Contents(fs)[name]| else -1
  {
    hide Struct, AllTight, View, NameOk, At, Read, Live;
    ViewKeys(fs.Img(), fs.lay);
    var offset := fs.LocateFileEntry(name);
    if offset == -1 {
      return -1;
    }
    var blk, idx := Decode(fs, offset, name);
    ViewSize(fs.Img(), fs.lay, name);
    size := Read(fs.disk[blk], idx).size;
  }

  /** Is there a slot for a new entry, and would taking it use up a directory block? */
  method DirectoryRoom(fs: Store) returns (placeable: bool, fills: bool)
    requires Mounted(fs)
    ensures placeable <==> Placeable(fs.Img(), fs.lay)
    ensures fills <==> FillsBlock(fs.Img(), fs.lay)
  {
    ghost var im, l := fs.Img(), fs.lay;
    ghost var dir := l.chains[Root];
    RootFirst(im, l);
    assert Struct(im, l) && im.bs == fs.bs && im.fat == fs.fat[..] && im.blocks == fs.disk[..];
    hide Struct, AllTight, Placeable, FillsBlock, FirstVacant, AllLive, LastSlot, Chain, NameOk, Live, Read;
    var cur := 1;
    ghost var d := 0;
    while cur != END
      invariant 0 <= d <= |dir| && cur == (if d < |dir| then dir[d] else END) && (cur == END <==> d == |dir|)
      invariant forall e :: 0 <= e < d ==> AllLive(im, dir[e], im.bs)
      decreases |dir| - d
    {
      DirectoryNext(im, l, d);
      var i := fs.VacantInBlock(cur);
      if i < fs.bs / ENTRY_SIZE {
        SlotFits(i, fs.bs);
        MakeFirstVacant(im, dir, d, i);
        fills := fs.bs < ENTRY_SIZE * i + 2 * ENTRY_SIZE;
        placeable := !fills || fs.fat[cur] == END;
        LastIs(im, i);
        VacancyIs(im, l, d, i);
        return;
      }
      WholeBlock(im, cur, i);
      cur := fs.fat[cur];
      d := d + 1;
    }
    NoneVacant(im, dir);
    NoVacancy(im, l);
    return false, false;
  }

  lemma RootFirst(im: Image, l: Layout)
    requires Struct(im, l) && Root in l.chains
    ensures l.chains[Root] != [] && l.chains[Root][0] == 1
  {
  }

  lemma DirectoryNext(im: Image, l: Layout, d: nat)
    requires Struct(im, l) && Root in l.chains && d < |l.chains[Root]|
    ensures var dir := l.chains[Root];
            && 1 <= dir[d] < |im.fat| == |im.blocks| <= END && |im.blocks[dir[d]]| == im.bs
            && im.fat[dir[d]] == (if d + 1 < |dir| then dir[d + 1] else END)
            && (im.fat[dir[d]] == END <==> d == |dir| - 1)
  {
    hide Struct;
    ChainBlocks(im, l, Root);
    var dir := l.chains[Root];
    assert im.fat[dir[d]] == Next(dir, d);
    hide Chain;
    assert dir[d] in dir && (d + 1 < |dir| ==> dir[d + 1] < |im.blocks|);
  }

  lemma LastIs(im: Image, i: nat)
    ensures LastSlot(im, i) <==> im.bs < ENTRY_SIZE * i + 2 * ENTRY_SIZE
  {
  }

  lemma SlotFits(i: nat, bs: nat)
    requires i < bs / ENTRY_SIZE
    ensures ENTRY_SIZE * i + ENTRY_SIZE <= bs
  {
  }

  lemma WholeBlock(im: Image, b: nat, i: nat)
    requires AllLive(im, b, i) && i >= im.bs / ENTRY_SIZE
    ensures AllLive(im, b, im.bs)
  {
    hide Live, At;
    forall j: nat | j < im.bs && ENTRY_SIZE * j + ENTRY_SIZE <= im.bs ensures Live(At(im, b, j)) {
      assert j < im.bs / ENTRY_SIZE;
    }
  }

  lemma VacancyIs(im: Image, l: Layout, d: nat, i: nat)
    requires Root in l.chains && FirstVacant(im, l.chains[Root], d, i)
    ensures FillsBlock(im, l) <==> LastSlot(im, i)
    ensures Placeable(im, l) <==> !LastSlot(im, i) || d == |l.chains[Root]| - 1
  {
    hide FirstVacant;
    forall e, j | FirstVacant(im, l.chains[Root], e, j) ensures e == d && j == i {
      FirstVacantUnique(im, l.chains[Root], d, i, e, j);
    }
  }

  lemma NoVacancy(im: Image, l: Layout)
    requires Root in l.chains && forall d, i :: !FirstVacant(im, l.chains[Root], d, i)
    ensures !Placeable(im, l) && !FillsBlock(im, l)
  {
  }

  /** The length the destination of a concatenation ends up with, from the lengths alone. */
  function FinalLength(v: Files, files: seq<Name>, dest: Name, len: nat): nat {
    if files == [] || files[0] !in v then len
    else FinalLength(v, files[1..], dest, len + if files[0] == dest then len else |v[files[0]]|)
  }

  lemma {:induction false} FinalLengthIs(v: Files, w: Files, files: seq<Name>, dest: Name)
    requires dest in v && dest in w && w == v[dest := w[dest]]
    ensures |ConcatAll(w, files, dest)[dest]| == FinalLength(v, files, dest, |w[dest]|)
    decreases |files|
  {
    if files != [] && files[0] in v {
      var u := w[dest := w[dest] + w[files[0]]];
      assert u == v[dest := u[dest]];
      FinalLengthIs(v, u, files[1..], dest);
    }
  }

  method MeasureConcat(fs: Store, files: seq<Name>, dest: Name, size: nat) returns (len: nat)
    requires Valid(fs)
    ensures len == FinalLength(Contents(fs), files, dest, size)
  {
    hide Struct, AllTight, View, NameOk;
    len := size;
    var i := 0;
    assert files[0..] == files;
    while i < |files|
      invariant 0 <= i <= |files|
      invariant FinalLength(Contents(fs), files[i..], dest, len) == FinalLength(Contents(fs), files, dest, size)
    {
      assert files[i..][0] == files[i] && files[i..][1..] == files[i + 1..];
      var s := SizeOf(fs, files[i]);
      if s == -1 {
        return;
      }
      len := len + if files[i] == dest then len else s;
      i := i + 1;
    }
  }

  /** Does the command have what it needs? Reads the store only. */
  method Admissible(fs: Store, c: Command) returns (ok: bool)
    requires Mounted(fs)
    ensures ok <==> Allowed(fs, c)
  {
    hide Struct, AllTight, View, FreeCount, Placeable, FillsBlock, Ceil, NameOk;
    match c
    case Touching(n) =>
      var size := SizeOf(fs, n);
      var placeable, _ := DirectoryRoom(fs);
      ok := size != -1 || placeable;
    case Removing(_) => ok := true;
    case Moving(src, dst) =>
      var size := SizeOf(fs, src);
      ok := src != dst || size <= 0;
    case Overwriting(n, data) =>
      var size := SizeOf(fs, n);
      var placeable, fills := DirectoryRoom(fs);
      var free := CountFree(fs);
      var need := Ceil(|data|, fs.bs);
      ok := data != [] && |data| < 0x8000_0000
            && if size == -1 then free > 0 && placeable && need <= free && (fills && 1 < need ==> need < free)
               else |data| <= fs.bs && (size == 0 ==> free > 0);
    case Appending(n, data) =>
      var size := SizeOf(fs, n);
      var free := CountFree(fs);
      ok := |data| < 0x8000_0000 &&
            (size == -1 || (size > 0 && Ceil(size + |data|, fs.bs) - Ceil(size, fs.bs) <= free));
    case Concatenating(files, dest) =>
      var size := SizeOf(fs, dest);
      if size <= 0 {
        ok := size == -1;
      } else {
        var free := CountFree(fs);
        var len := MeasureConcat(fs, files, dest, size);
        FinalLengthIs(Contents(fs), Contents(fs), files, dest);
        ok := Ceil(len, fs.bs) - Ceil(size, fs.bs) <= free;
      }
  }

  // ---- runs ----------------------------------------------------------------

  function ApplyAll(v: Files, cs: seq<Command>): Files {
    if cs == [] then v else Apply(ApplyAll(v, cs[..|cs| - 1]), cs[|cs| - 1])
  }

  /** A run changes no file that none of its commands names. */
  lemma {:induction false} RunChangesOnly(v: Files, cs: seq<Command>, n: seq<Byte>)
    requires forall i :: 0 <= i < |cs| ==> n !in Changes(cs[i])
    ensures SameOn(v, ApplyAll(v, cs), n)
  {
    hide Apply, Changes;
    if cs != [] {
      RunChangesOnly(v, cs[..|cs| - 1], n);
      ChangesOnly(ApplyAll(v, cs[..|cs| - 1]), cs[|cs| - 1]);
    }
  }

  /** A run: command after command until one lacks what it needs. The files are at each moment what
      the commands so far make of them, and every block is accounted for. */
  method RunAll(fs: Store, cs: seq<Command>) returns (done: nat)
    requires Mounted(fs)
    modifies fs.fat, fs.disk, fs`lay
    ensures done <= |cs| && Mounted(fs) && Contents(fs) == ApplyAll(old(Contents(fs)), cs[..done])
    ensures Free(fs) + |fs.lay.chains[Root]| + FileBlocks(Contents(fs), Contents(fs).Keys, fs.bs) ==
              fs.fat.Length - 1
    ensures done < |cs| ==> !Allowed(fs, cs[done])
  {
    hide Struct, AllTight, View, FreeCount, Allowed, Apply;
    done := 0;
    Conservation(fs.Img(), fs.lay);
    while done < |cs|
      invariant 0 <= done <= |cs| && Mounted(fs)
      invariant Contents(fs) == ApplyAll(old(Contents(fs)), cs[..done])
      invariant Free(fs) + |fs.lay.chains[Root]| + FileBlocks(Contents(fs), Contents(fs).Keys, fs.bs) ==
                  fs.fat.Length - 1
    {
      var ok := Admissible(fs, cs[done]);
      if !ok {
        return;
      }
      Execute(fs, cs[done]);
      StillMounted(fs);
      Conservation(fs.Img(), fs.lay);
      assert cs[..done + 1][..done] == cs[..done];
      done := done + 1;
    }
  }
}
