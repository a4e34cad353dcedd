/**
 do_cat_overwrite on an existing file with at most one block of input: the
 first block takes the new bytes and the blocks behind it are released.
 */
module FatOverwrite {
  import opened Bytes
  import opened FatTable
  import opened Disk
  import opened DiskSteps
  import opened FileCopy
  import opened Views
  import opened FatFs
  import opened FatCommands

  // ---- cutting a chain after its first block -------------------------------

  /** The table when all blocks of `c` but the first are released. */
  function Shortened(f: seq<nat>, c: seq<nat>): (g: seq<nat>)
    requires c != [] && c[0] < |f|
    ensures |g| == |f|
  {
    Clear(f, c[1..])[c[0] := END]
  }

  lemma TailChain(f: seq<nat>, c: seq<nat>)
    requires Chain(f, c) && c != []
    ensures Chain(f, c[1..]) && c[0] !in c[1..] && c[0] < |f| && f[c[0]] != 0
    ensures forall x :: x in c <==> x == c[0] || x in c[1..]
  {
    assert f[c[0]] == Next(c, 0);
    forall i | 0 <= i < |c[1..]| ensures f[c[1..][i]] == Next(c[1..], i) {
      assert f[c[i + 1]] == Next(c, i + 1);
    }
  }

  lemma ShortenCount(f: seq<nat>, c: seq<nat>)
    requires Chain(f, c) && c != []
    ensures c[0] < |f| && FreeCount(Shortened(f, c)) == FreeCount(f) + |c| - 1
    ensures forall x :: 0 <= x < |f| ==> Shortened(f, c)[x] == if x == c[0] then END else if x in c then 0 else f[x]
  {
    TailChain(f, c);
    ClearCount(f, c[1..]);
    KeepFree(Clear(f, c[1..]), c[0], END);
  }

  lemma Shorten(f: seq<nat>, ch: Chains, o: Owner)
    requires Forest(f, ch) && o in ch && ch[o] != []
    ensures ch[o][0] < |f|
    ensures var g := Shortened(f, ch[o]);
            Forest(g, ch[o := [ch[o][0]]]) && FreeCount(g) == FreeCount(f) + |ch[o]| - 1
  {
    var c := ch[o];
    assert Chain(f, c);
    ShortenCount(f, c);
    hide Shortened, FreeCount;
    var g, ch' := Shortened(f, c), ch[o := [c[0]]];
    assert c[0] in c && |g| == |f|;
    forall p | p in ch' ensures Chain(g, ch'[p]) {
      if p != o { ChainFrame(f, g, ch[p]); }
    }
    forall y | 1 <= y < |g| && g[y] != 0 ensures Owned(ch', y) {
      ShortenOwned(f, ch, o, y);
    }
  }

  lemma ShortenOwned(f: seq<nat>, ch: Chains, o: Owner, y: nat)
    requires Forest(f, ch) && o in ch && ch[o] != [] && 1 <= y < |f| && (y == ch[o][0] || (y !in ch[o] && f[y] != 0))
    ensures Owned(ch[o := [ch[o][0]]], y)
  {
    var ch' := ch[o := [ch[o][0]]];
    if y == ch[o][0] {
      assert y in ch'[o];
    } else {
      var p :| p in ch && y in ch[p];
      assert y in ch'[p];
    }
  }

  /** The image once the chain of `o` is cut: later blocks zero, its first block anything. */
  ghost predicate Cut(im: Image, im': Image, c: seq<nat>) {
    && c != [] && c[0] < |im.fat| && im'.fat == Shortened(im.fat, c)
    && im'.bs == im.bs && |im'.blocks| == |im.blocks|
    && (forall x :: 0 <= x < |im.blocks| ==> |im'.blocks[x]| == im.bs)
    && (forall x :: 0 <= x < |im.blocks| && x in c[1..] ==> Zero(im'.blocks[x]))
    && (forall x :: 0 <= x < |im.blocks| && x !in c ==> im'.blocks[x] == im.blocks[x])
  }

  lemma CutShape(im: Image, im': Image, c: seq<nat>)
    requires Shape(im) && FreeZero(im) && Chain(im.fat, c) && Cut(im, im', c)
    ensures Shape(im') && FreeZero(im')
  {
    TailChain(im.fat, c);
  }

  /** Cutting a file's chain keeps the layout and every other file. */
  lemma CutKeeps(im: Image, l: Layout, o: Owner, im': Image)
    requires Struct(im, l) && o in l.chains && o.Slot? && l.chains[o] != [] && Cut(im, im', l.chains[o])
    ensures var l' := l.(chains := l.chains[o := [l.chains[o][0]]]);
            && Struct(im', l') && Others(im, l, im', l', o) && EntryOf(im', o) == EntryOf(im, o)
            && FreeCount(im'.fat) == FreeCount(im.fat) + |l.chains[o]| - 1
  {
    hide Packed, Keys, Names, Forest, At, Shape, FreeZero, FreeCount, Flat, Shortened;
    var c := l.chains[o];
    var l' := l.(chains := l.chains[o := [c[0]]]);
    ChainBlocks(im, l, o);
    ChainBlocks(im, l, Root);
    CutShape(im, im', c);
    Shorten(im.fat, l.chains, o);
    SlotsOfStruct(im, l);
    CutSlots(im, im', l.chains[Root], c);
    FrameKeep(im, im', l, l');
    CutOthers(im, l, o, im', l');
  }

  lemma CutSlots(im: Image, im': Image, dir: seq<nat>, c: seq<nat>)
    requires Cut(im, im', c) && forall x :: x in dir ==> x < |im.blocks| && x !in c
    ensures SameSlots(im, im', dir) && forall b, i :: b in dir ==> At(im', b, i) == At(im, b, i)
  {
    assert forall b :: b in dir ==> im'.blocks[b] == im.blocks[b];
  }

  lemma CutOthers(im: Image, l: Layout, o: Owner, im': Image, l': Layout)
    requires Struct(im, l) && o in l.chains && Cut(im, im', l.chains[o])
    requires l' == l.(chains := l.chains[o := [l.chains[o][0]]])
    requires forall p :: p in l.chains && p.Slot? ==> EntryOf(im', p) == EntryOf(im, p)
    ensures Others(im, l, im', l', o)
  {
    hide Struct, Flat, At, Shortened;
    forall p | p in l.chains && p.Slot? && p != o
      ensures Flat(im'.blocks, l.chains[p]) == Flat(im.blocks, l.chains[p])
    {
      ChainBlocks(im, l, o);
      SameChain(im.blocks, im'.blocks, l.chains[p], l.chains[o]);
    }
  }

  /** A one-block file of `n` bytes reads as the first `n` bytes of its block. */
  lemma OneBlock(im: Image, l: Layout, name: seq<Byte>, data: seq<Byte>)
    requires Inv(im, l) && name in l.names && l.names[name] in l.chains && |l.chains[l.names[name]]| == 1
    requires EntryOf(im, l.names[name]).size == |data|
    requires Take(BlockAt(im.blocks, l.chains[l.names[name]][0]), |data|) == data
    ensures name in View(im, l) && View(im, l)[name] == data
  {
    hide Struct, AllTight, At;
    ViewSize(im, l, name);
    var c := l.chains[l.names[name]];
    assert Front(c) == [] && Flat(im.blocks, c) == Flat(im.blocks, []) + BlockAt(im.blocks, c[0]);
  }

  /** The whole effect on the files. */
  lemma OverwriteView(im0: Image, l0: Layout, im1: Image, l1: Layout, im: Image, name: seq<Byte>, o: Owner,
                      data: seq<Byte>)
    requires Inv(im0, l0) && name in l0.names && o == l0.names[name]
    requires Struct(im1, l1) && Others(im0, l0, im1, l1, o) && l1.names == l0.names
    requires o in l1.chains && o.Slot? && l1.chains[o] != [] && EntryOf(im1, o).size == |data|
    requires Cut(im1, im, l1.chains[o]) && 0 < |data| <= im0.bs
    requires StartsWith(BlockAt(im.blocks, l1.chains[o][0]), data, im0.bs)
    ensures var l := l1.(chains := l1.chains[o := [l1.chains[o][0]]]);
            && Inv(im, l) && View(im, l) == View(im0, l0)[name := data] && im.bs == im0.bs
            && FreeCount(im.fat) == FreeCount(im1.fat) + |l1.chains[o]| - 1
  {
    hide Struct, AllTight, View, Flat, At, Others, Cut, FreeCount, NameOk;
    var l := l1.(chains := l1.chains[o := [l1.chains[o][0]]]);
    CutKeeps(im1, l1, o, im);
    OthersTrans(im0, l0, im1, l1, im, l, o);
    OthersBs(im0, l0, im, l, o);
    TightOthers(im0, l0, im, l, o);
    OneBlock(im, l, name, data);
    OneChanged(im0, l0, im, l, o, name);
  }

  // ---- the command ---------------------------------------------------------

  /** Stores the input from the start of the first block. */
  method WriteFirst(fs: Store, buffer: seq<Byte>, head: nat, ghost o: Owner)
    requires fs.Ok() && o in fs.lay.chains && o.Slot? && fs.lay.chains[o] != [] && head == fs.lay.chains[o][0]
    requires 0 < |buffer| <= fs.bs
    modifies fs.disk
    ensures head < |fs.disk[..]| == |old(fs.disk[..])| && |old(fs.disk[..])[head]| == fs.bs
    ensures fs.disk[..] == old(fs.disk[..])[head := Splice(old(fs.disk[..])[head], 0, buffer)]
  {
    hide Struct;
    ChainBlocks(fs.Img(), fs.lay, o);
    var fill := fs.AddData(buffer, fs.BlockOffset(head), 0, 0, |buffer|, head);
    assert buffer[0..|buffer|] == buffer;
  }

  /** Zeroes the bytes behind the input and releases the later blocks. */
  method CutBehind(fs: Store, n: nat, head: nat, ghost c: seq<nat>)
    requires Shape(fs.Img()) && c != [] && head == c[0] && Chain(fs.fat[..], c) && n <= fs.bs
    requires 0 < fs.fat.Length <= END
    modifies fs.fat, fs.disk
    ensures head < |old(fs.fat[..])| && fs.fat[..] == Shortened(old(fs.fat[..]), c)
    ensures |fs.disk[..]| == |old(fs.disk[..])|
    ensures forall x :: 0 <= x < |old(fs.disk[..])| ==>
              && |old(fs.disk[..])[x]| == fs.bs
              && fs.disk[..][x] == if x !in c then old(fs.disk[..])[x]
                                   else ZeroFrom(old(fs.disk[..])[x], if x == head then n else 0)
  {
    ghost var f := fs.fat[..];
    TailChain(f, c);
    fs.RemoveData(n, head, c);
    assert f[c[0]] == Next(c, 0);
    if fs.fat[head] != END {
      assert c[1..][0] == c[1];
      fs.RemoveFatEntry(fs.fat[head], c[1..]);
      fs.fat[head] := END;
    } else {
      NoTail(f, c);
    }
  }

  lemma NoTail(f: seq<nat>, c: seq<nat>)
    requires Chain(f, c) && c != [] && |f| <= END && f[c[0]] == END
    ensures c == [c[0]] && c[0] < |f| && Shortened(f, c) == f
  {
    assert f[c[0]] == Next(c, 0);
    assert forall i :: 0 <= i < |c| ==> c[i] < |f|;
    assert c[1..] == [] && Clear(f, []) == f;
  }

  /** entry->size = n. */
  method StoreSize(fs: Store, blk: nat, idx: nat, n: nat)
    requires fs.Ok() && Slot(blk, idx) in fs.lay.chains
    modifies fs.disk
    ensures fs.Img() == Resized(old(fs.Img()), Slot(blk, idx), n)
  {
    hide Struct, At, Read, OnlyEntry, Live;
    ghost var im := fs.Img();
    SlotRange(im, fs.lay, Slot(blk, idx));
    fs.disk[blk] := PutSize(fs.disk[blk], idx, n);
    assert fs.Img() == SetBlock(im, blk, fs.disk[blk]);
  }

  /** The blocks after the write and, if there was one, the cut. */
  ghost predicate Rewritten(a: seq<seq<Byte>>, b: seq<seq<Byte>>, c: seq<nat>, data: seq<Byte>, cut: bool)
    requires c != [] && c[0] < |a| && |data| <= |a[c[0]]|
  {
    var w := a[c[0] := Splice(a[c[0]], 0, data)];
    && |b| == |a|
    && if cut then forall x :: 0 <= x < |w| ==>
                     b[x] == if x !in c then w[x] else ZeroFrom(w[x], if x == c[0] then |data| else 0)
       else b == w
  }

  ghost predicate StartsWith(blk: seq<Byte>, data: seq<Byte>, bs: nat) {
    |blk| == bs && |data| <= bs && blk[..|data|] == data
  }

  lemma BlocksDone(im: Image, c: seq<nat>, blocks: seq<seq<Byte>>, data: seq<Byte>, cut: bool)
    requires c != [] && c[0] < |im.blocks| && c[0] !in c[1..] && (!cut ==> c[1..] == [])
    requires 0 < |data| <= im.bs && forall x :: 0 <= x < |im.blocks| ==> |im.blocks[x]| == im.bs
    requires forall x :: x in c <==> x == c[0] || x in c[1..]
    requires Rewritten(im.blocks, blocks, c, data, cut)
    ensures |blocks| == |im.blocks| && forall x :: 0 <= x < |blocks| ==>
              && |blocks[x]| == im.bs && (x in c[1..] ==> Zero(blocks[x])) && (x !in c ==> blocks[x] == im.blocks[x])
    ensures StartsWith(BlockAt(blocks, c[0]), data, im.bs)
  {
    var w := Splice(im.blocks[c[0]], 0, data);
    assert w[..|data|] == data;
    assert c[0] in c;
    if cut { assert blocks[c[0]] == ZeroFrom(w, |data|); }
  }

  lemma CutTableDone(f: seq<nat>, c: seq<nat>, g: seq<nat>, cut: bool)
    requires Chain(f, c) && c != [] && (!cut ==> |c| == 1) && 0 < |f| && c[0] < |f|
    requires g == if cut then Shortened(f, c) else f
    ensures g == Shortened(f, c) && Head(g) == Head(f) && |g| == |f|
  {
    ShortenCount(f, c);
    if !cut { OnlyBlock(f, c); }
    hide Shortened;
    assert c[0] in c && 0 !in c;
  }

  /** What the two stores amount to. */
  lemma CutDone(im: Image, l: Layout, o: Owner, im': Image, data: seq<Byte>, cut: bool)
    requires Struct(im, l) && o in l.chains && o.Slot? && l.chains[o] != [] && 0 < |data| <= im.bs && im'.bs == im.bs
    requires l.chains[o][0] < |im.fat| && l.chains[o][0] < |im.blocks| && |im.blocks[l.chains[o][0]]| == im.bs
    requires (!cut ==> |l.chains[o]| == 1) && im'.fat == if cut then Shortened(im.fat, l.chains[o]) else im.fat
    requires Rewritten(im.blocks, im'.blocks, l.chains[o], data, cut)
    ensures Cut(im, im', l.chains[o]) && Head(im'.fat) == Head(im.fat) && |im'.fat| == |im.fat|
    ensures StartsWith(BlockAt(im'.blocks, l.chains[o][0]), data, im.bs)
  {
    hide *;
    var c := l.chains[o];
    ChainBlocks(im, l, o);
    TailChain(im.fat, c);
    CutTableDone(im.fat, c, im'.fat, cut);
    BlocksDone(im, c, im'.blocks, data, cut);
    MakeCut(im, im', c);
  }

  lemma MakeCut(im: Image, im': Image, c: seq<nat>)
    requires c != [] && c[0] < |im.fat| && im'.fat == Shortened(im.fat, c) && im'.bs == im.bs
    requires |im'.blocks| == |im.blocks|
    requires forall x :: 0 <= x < |im'.blocks| ==>
               && |im'.blocks[x]| == im.bs && (x in c[1..] ==> Zero(im'.blocks[x]))
               && (x !in c ==> im'.blocks[x] == im.blocks[x])
    ensures Cut(im, im', c)
  {
  }

  lemma OnlyBlock(f: seq<nat>, c: seq<nat>)
    requires Chain(f, c) && |c| == 1
    ensures c[0] < |f| && Shortened(f, c) == f
  {
    assert f[c[0]] == Next(c, 0);
    assert c[1..] == [] && Clear(f, []) == f;
  }

  /** The write and the cut, once the file has a first block and its new size is stored. */
  method ReplaceData(fs: Store, buffer: seq<Byte>, head: nat, originSize: nat, ghost o: Owner, ghost name: seq<Byte>,
                     ghost im0: Image, ghost l0: Layout)
    requires fs.Ok() && Inv(im0, l0) && name in l0.names && o == l0.names[name] && o.Slot?
    requires Others(im0, l0, fs.Img(), fs.lay, o) && fs.lay.names == l0.names
    requires o in fs.lay.chains && fs.lay.chains[o] != [] && head == fs.lay.chains[o][0]
    requires EntryOf(fs.Img(), o).size == |buffer| && 0 < |buffer| <= fs.bs == im0.bs
    requires originSize <= |buffer| ==> |fs.lay.chains[o]| == 1
    modifies fs.fat, fs.disk, fs`lay
    ensures Valid(fs) && Contents(fs) == View(im0, l0)[name := buffer]
    ensures Free(fs) == old(Free(fs)) + |old(fs.lay).chains[o]| - 1
  {
    hide Struct, AllTight, View, FreeCount, Others, Cut, At, Shortened, Flat;
    ghost var im, c := fs.Img(), fs.lay.chains[o];
    FatCells(im, fs.lay);
    ChainBlocks(im, fs.lay, o);
    WriteFirst(fs, buffer, head, o);
    var cut := originSize > |buffer|;
    if cut {
      WriteKeeps(im, fs.lay, o, Splice(im.blocks[head], 0, buffer));
      assert fs.Img() == SetBlock(im, head, Splice(im.blocks[head], 0, buffer));
      CutBehind(fs, |buffer|, head, c);
    }
    CutDone(im, fs.lay, o, fs.Img(), buffer, cut);
    OverwriteView(im0, l0, im, fs.lay, fs.Img(), name, o, buffer);
    fs.lay := fs.lay.(chains := fs.lay.chains[o := [head]]);
    assert fs.fat[..][0] == fs.Img().fat[0];
  }

  lemma WriteKeeps(im: Image, l: Layout, o: Owner, blk: seq<Byte>)
    requires Struct(im, l) && o in l.chains && o.Slot? && l.chains[o] != [] && |blk| == im.bs
    ensures l.chains[o][0] < |im.blocks| && Shape(SetBlock(im, l.chains[o][0], blk))
  {
    WriteData(im, l, o, l.chains[o][0], blk);
  }

  /** With no input nothing is written or cut: the size field says 0 and the blocks stay. */
  lemma OverwriteHollow(im0: Image, l0: Layout, im: Image, l: Layout, o: Owner, n: seq<Byte>)
    requires Inv(im0, l0) && n in l0.names && o == l0.names[n] && l.names == l0.names
    requires Struct(im, l) && Others(im0, l0, im, l, o) && o in l.chains && l.chains[o] != []
    requires EntryOf(im, o).size == 0
    ensures !AllTight(im, l) && View(im, l) == View(im0, l0)[n := []]
  {
    hide Struct, AllTight, View, Others, At;
    Hollow(im, l, n, o);
    OneChanged(im0, l0, im, l, o, n);
  }

  /** do_cat_overwrite on an existing file, with one block of input or less: the input is the whole
      file afterwards, tight exactly if there was any. -1 when the file had no block and none is free. */
  method OverwriteFile(fs: Store, buffer: seq<Byte>, name: Name) returns (r: int)
    requires Valid(fs) && name in Contents(fs) && |buffer| <= fs.bs
    modifies fs.fat, fs.disk, fs`lay
    ensures r == (if old(Contents(fs))[name] == [] && old(Free(fs)) == 0 then -1 else 0)
    ensures r == -1 ==> fs.Img() == old(fs.Img()) && fs.lay == old(fs.lay)
    ensures r == 0 ==> fs.Ok() && Contents(fs) == old(Contents(fs))[name := buffer]
    ensures r == 0 ==> (AllTight(fs.Img(), fs.lay) <==> buffer != [])
    ensures r == 0 && buffer != [] ==> Free(fs) == old(Free(fs)) + Ceil(|old(Contents(fs))[name]|, fs.bs) - 1
    ensures r == 0 && buffer == [] ==> Free(fs) == old(Free(fs)) - if old(Contents(fs))[name] == [] then 1 else 0
  {
    hide Struct, AllTight, View, FreeCount, FreeSet, Ceil, NameOk, At, Read, Live, Opened, Flat, Others, Cut, Resized;
    ghost var im0, l0 := fs.Img(), fs.lay;
    ViewKeys(im0, l0);
    ViewSize(im0, l0, name);
    ghost var o := l0.names[name];
    var offset := fs.LocateFileEntry(name);
    var blk, idx := Decode(fs, offset, name);
    var headOfFile: int := Read(fs.disk[blk], idx).first;
    var originSize := Read(fs.disk[blk], idx).size;
    FirstBlock(im0, l0, o, |buffer|);
    NoneFree(im0.fat);
    if headOfFile == 0 {
      headOfFile := fs.OpenEmpty(blk, idx, o);
      if headOfFile == -1 {
        return -1;
      }
      OpenedParts(im0, l0, fs.Img(), fs.lay, o, headOfFile);
    } else {
      SelfOthers(im0, l0, o);
    }
    ghost var im1, l1 := fs.Img(), fs.lay;
    SmallSize(fs.bs, im0, l0);
    ResizedKeeps(im1, l1, o, |buffer|);
    StoreSize(fs, blk, idx, |buffer|);
    OthersTrans(im0, l0, im1, l1, fs.Img(), l1, o);
    ResizedFat(im1, l1, o, |buffer|);
    if |buffer| > 0 {
      ReplaceData(fs, buffer, headOfFile, originSize, o, name, im0, l0);
    } else {
      OverwriteHollow(im0, l0, fs.Img(), fs.lay, o, name);
      assert fs.fat[..][0] == fs.Img().fat[0];
    }
    return 0;
  }

  /** A file without a block is empty; one that ends in its first block has no other. */
  lemma FirstBlock(im: Image, l: Layout, o: Owner, n: nat)
    requires Struct(im, l) && AllTight(im, l) && o in l.chains && o.Slot? && n <= im.bs
    ensures EntryOf(im, o).first == 0 <==> l.chains[o] == []
    ensures l.chains[o] == [] <==> EntryOf(im, o).size == 0
    ensures l.chains[o] != [] ==> EntryOf(im, o).first == l.chains[o][0]
    ensures EntryOf(im, o).size <= n ==> |l.chains[o]| <= 1
  {
    ChainBlocks(im, l, o);
    SlotRange(im, l, o);
    hide Struct;
    assert o == Slot(o.blk, o.idx);
    if |l.chains[o]| > 1 { MulMono(1, |l.chains[o]| - 1, im.bs); }
  }

  lemma OpenedParts(im0: Image, l0: Layout, im: Image, l: Layout, o: Owner, head: int)
    requires Opened(im0, l0, im, l, o, head)
    ensures l.names == l0.names && o in l.chains && l.chains[o] == [head] && im.bs == im0.bs && head >= 1
    ensures Others(im0, l0, im, l, o) && FreeCount(im.fat) == FreeCount(im0.fat) - 1
  {
    hide Others, At;
  }

  lemma SmallSize(bs: nat, im: Image, l: Layout)
    requires Struct(im, l) && im.bs == bs
    ensures bs < 4294967296
  {
  }

  lemma ResizedFat(im: Image, l: Layout, o: Owner, n: nat)
    requires Struct(im, l)
    ensures Resized(im, o, n).fat == im.fat && |im.fat| > 0
  {
  }

  /** How much of the input do_cat_overwrite can store. */
  ghost function SpaceToOverwrite(fs: Store, name: seq<Byte>): nat
    reads fs, fs.fat, fs.disk
    requires Root in fs.lay.chains
  {
    if name in Contents(fs) then fs.bs else SpaceToCreate(fs.Img(), fs.lay)
  }

  /** do_cat_overwrite: a new file of any length, or at most one block into an existing one. The map gets
      the input, or what there is space for; the store stays well formed exactly if there was input and
      all of it fits. -1 without any change when a first block is needed and none is free. For a new file with
      a free block but no place for its entry, no layout fits the result. */
  method CatOverwrite(fs: Store, buffer: seq<Byte>, name: Name) returns (r: int)
    requires Mounted(fs) && |buffer| < 0x8000_0000
    requires name in Contents(fs) ==> |buffer| <= fs.bs
    modifies fs.fat, fs.disk, fs`lay
    ensures old(name !in Contents(fs) && NoPlace(fs)) ==>
      CreateLost(old(fs.Img()), old(fs.lay), fs.Img(), buffer, r)
    ensures old(name !in Contents(fs) && NoPlace(fs)) <==> forall l :: !Struct(fs.Img(), l)
    ensures !old(name !in Contents(fs) && NoPlace(fs)) ==> fs.Ok()
    ensures old(Free(fs)) == 0 && (name !in old(Contents(fs)) || old(Contents(fs))[name] == []) ==>
      r == -1 && fs.Img() == old(fs.Img()) && fs.lay == old(fs.lay)
    ensures old(if name in Contents(fs) then Free(fs) > 0 || Contents(fs)[name] != []
                else Free(fs) > 0 && Placeable(fs.Img(), fs.lay)) ==>
      var space := old(SpaceToOverwrite(fs, name));
      && r == (if |buffer| <= space then 0 else -1)
      && Contents(fs) == old(Contents(fs))[name := Take(buffer, space)]
      && (AllTight(fs.Img(), fs.lay) <==> r == 0 && buffer != [])
    ensures r == 0 && buffer != [] && name in old(Contents(fs)) ==>
      Free(fs) == old(Free(fs)) + Ceil(|old(Contents(fs))[name]|, fs.bs) - 1
    ensures r == 0 && buffer != [] && name !in old(Contents(fs)) ==>
      Free(fs) == old(Free(fs)) - Ceil(|buffer|, fs.bs)
                  - if old(FillsBlock(fs.Img(), fs.lay)) && 1 < old(Free(fs)) then 1 else 0
  {
    hide Struct, AllTight, View, FreeCount, Placeable, RoomToCreate, Ceil, NameOk, CreatedOnly, FillsBlock,
         SpaceToCreate, Untouched;
    ViewKeys(fs.Img(), fs.lay);
    ghost var im := fs.Img();
    FatCells(im, fs.lay);
    assert buffer[..|buffer|] == buffer;
    var offset := fs.LocateFileEntry(name);
    if offset == -1 {
      r := CreateFile(fs, buffer, name);
    } else {
      r := OverwriteFile(fs, buffer, name);
      assert r == -1 ==> fs.fat[..][0] == im.fat[0];
    }
  }
}
