/**
 From image changes to what users see: each change to one file acts on the
 map of names to byte strings at that name only.
 */
module Views {
  import opened Bytes
  import opened FatTable
  import opened Disk
  import opened DiskSteps
  import opened FileCopy

  /** Every file but the one in slot `o` has the same chain, size and bytes in both images. */
  ghost predicate Others(im: Image, l: Layout, im': Image, l': Layout, o: Owner) {
    && im'.bs == im.bs
    && (forall p: Owner :: p.Slot? && p != o ==> (p in l.chains <==> p in l'.chains))
    && (forall p :: p in l.chains && p.Slot? && p != o ==>
          && l'.chains[p] == l.chains[p]
          && EntryOf(im', p).size == EntryOf(im, p).size
          && Flat(im'.blocks, l.chains[p]) == Flat(im.blocks, l.chains[p]))
  }

  /** The length of a file is its size field, and it has exactly the blocks it needs. */
  lemma ViewSize(im: Image, l: Layout, n: seq<Byte>)
    requires Inv(im, l) && n in l.names
    ensures n in View(im, l) && l.names[n] in l.chains && l.names[n].Slot? && NameOk(n)
    ensures var o := l.names[n];
            && |View(im, l)[n]| == EntryOf(im, o).size
            && EntryOf(im, o).first == Head(l.chains[o])
            && Tight(l.chains[o], EntryOf(im, o).size, im.bs) && im.bs > 0
            && |l.chains[o]| == Ceil(EntryOf(im, o).size, im.bs)
            && |Flat(im.blocks, l.chains[o])| == |l.chains[o]| * im.bs
            && View(im, l)[n] == Take(Flat(im.blocks, l.chains[o]), EntryOf(im, o).size)
  {
    hide Forest, Packed, Keys, FreeZero;
    NameSlot(im, l, n);
    var o := l.names[n];
    assert o == Slot(o.blk, o.idx);
    SlotRange(im, l, o);
    ChainBlocks(im, l, o);
    FlatLengthAny(im.blocks, l.chains[o], im.bs);
    TightCeil(l.chains[o], EntryOf(im, o).size, im.bs);
  }

  lemma TightOthers(im: Image, l: Layout, im': Image, l': Layout, o: Owner)
    requires AllTight(im, l) && Others(im, l, im', l', o)
    requires o in l'.chains ==> Tight(l'.chains[o], EntryOf(im', o).size, im.bs)
    ensures AllTight(im', l')
  {
    hide Tight, Flat;
    forall b, i | Slot(b, i) in l'.chains
      ensures Tight(l'.chains[Slot(b, i)], At(im', b, i).size, im'.bs)
    {
      var p := Slot(b, i);
      if p != o {
        assert p in l.chains && EntryOf(im', p).size == EntryOf(im, p).size;
      }
    }
  }

  lemma ViewOthers(im: Image, l: Layout, im': Image, l': Layout, o: Owner, n: seq<Byte>)
    requires Struct(im, l) && Struct(im', l') && Others(im, l, im', l', o)
    requires n in l.names && n in l'.names && l.names[n] == l'.names[n] && l.names[n] != o
    ensures n in View(im, l) && n in View(im', l') && View(im', l')[n] == View(im, l)[n]
  {
    hide Forest, Packed, Keys, FreeZero, Flat, At;
    NameSlot(im, l, n);
    NameSlot(im', l', n);
  }

  /** Blocks outside the directory are untouched by an edit of a directory block. */
  lemma FlatDirectory(im: Image, l: Layout, b: nat, blk: seq<Byte>)
    requires Struct(im, l) && b in l.chains[Root] && b < |im.blocks|
    ensures forall p :: p in l.chains && p != Root ==>
              Flat(im.blocks[b := blk], l.chains[p]) == Flat(im.blocks, l.chains[p])
  {
    forall p | p in l.chains && p != Root
      ensures Flat(im.blocks[b := blk], l.chains[p]) == Flat(im.blocks, l.chains[p])
    {
      hide Struct, Flat;
      ChainBlocks(im, l, p);
      FrameOff(im.blocks, b, blk, l.chains[p]);
    }
  }

  lemma FrameOff(a: seq<seq<Byte>>, b: nat, blk: seq<Byte>, c: seq<nat>)
    requires b < |a| && b !in c
    ensures Flat(a[b := blk], c) == Flat(a, c)
  {
    FlatFrame(a, a[b := blk], c);
  }

  /** A file grew by `data` at its end and its size field follows: the map changes at
      that name only, and the new chain is as short as it can be. */
  lemma AppendView(im0: Image, l0: Layout, im: Image, l: Layout, o: Owner, n: seq<Byte>, di: nat, data: seq<Byte>)
    requires Inv(im0, l0) && n in l0.names && l0.names[n] == o && o in l0.chains
    requires Struct(im, l) && o in l.chains && l.chains[o] != [] && l.names == l0.names
    requires Others(im0, l0, im, l, o) && 0 < di <= im.bs == im0.bs
    requires Prefix(im.blocks, l.chains[o], di) == View(im0, l0)[n] + data
    requires EntryOf(im, o).size == EntryOf(im0, o).size + |data|
    ensures Inv(im, l) && View(im, l) == View(im0, l0)[n := View(im0, l0)[n] + data]
    ensures im.bs > 0 && |l.chains[o]| == Ceil(|View(im0, l0)[n] + data|, im.bs)
  {
    hide Struct, AllTight, Others, Flat, Prefix, Tight, EntryOf, NameOk;
    ViewSize(im0, l0, n);
    FrontFits(im, l, o, di);
    TightOthers(im0, l0, im, l, o);
    ViewSize(im, l, n);
    OneChanged(im0, l0, im, l, o, n);
  }

  /** When only the file called `n` changed, the maps differ at `n` only. */
  lemma OneChanged(im0: Image, l0: Layout, im: Image, l: Layout, o: Owner, n: seq<Byte>)
    requires Struct(im0, l0) && Struct(im, l) && Others(im0, l0, im, l, o)
    requires n in l0.names && l0.names[n] == o && l.names == l0.names
    ensures n in View(im, l) && View(im, l) == View(im0, l0)[n := View(im, l)[n]]
  {
    hide Struct, Others, Flat, EntryOf, NameOk;
    ViewKeys(im, l);
    ViewKeys(im0, l0);
    forall m | m in l.names && m != n ensures m in View(im, l) && View(im, l)[m] == View(im0, l0)[m] {
      NameDiffer(im0, l0, m, n);
      ViewOthers(im0, l0, im, l, o, m);
    }
  }

  lemma ViewKeys(im: Image, l: Layout)
    requires Struct(im, l)
    ensures View(im, l).Keys == l.names.Keys
  {
    forall n | n in l.names ensures l.names[n] in l.chains { NameSlot(im, l, n); }
  }

  lemma NameDiffer(im: Image, l: Layout, m: seq<Byte>, n: seq<Byte>)
    requires Struct(im, l) && m in l.names && n in l.names && m != n
    ensures l.names[m] != l.names[n]
  {
    hide Forest, Packed, Keys, FreeZero, Shape;
    NameSlot(im, l, m);
    NameSlot(im, l, n);
  }

  /** A cursor in the last block bounds the size, and the bytes up to it are the file. */
  lemma FrontFits(im: Image, l: Layout, o: Owner, di: nat)
    requires Struct(im, l) && o in l.chains && l.chains[o] != [] && 0 < di <= im.bs
    ensures Tight(l.chains[o], |Prefix(im.blocks, l.chains[o], di)|, im.bs)
    ensures |Prefix(im.blocks, l.chains[o], di)| <= |l.chains[o]| * im.bs
    ensures Take(Flat(im.blocks, l.chains[o]), |Prefix(im.blocks, l.chains[o], di)|) ==
              Prefix(im.blocks, l.chains[o], di)
  {
    hide Struct;
    var c := l.chains[o];
    PrefixSize(im, l, o, di);
    ChainBlocks(im, l, o);
    assert c[..|c| - 1 + 1] == c;
    PrefixOfFlat(im.blocks, c, |c| - 1, di);
    assert |c| * im.bs == (|c| - 1) * im.bs + im.bs;
  }

  lemma TailOthers(k: Copy, im: Image, l: Layout)
    requires k.Begun() && Struct(im, l) && k.dest in l.chains && k.Tail(im, l)
    ensures Others(k.im, k.l, im, l, k.dest)
  {
    hide Struct, At, FreeSet, FreeCount, Take;
    forall p | p in k.l.chains && p.Slot? && p != k.dest
      ensures Flat(im.blocks, k.l.chains[p]) == Flat(k.im.blocks, k.l.chains[p])
    {
      ChainBlocks(im, l, p);
      ChainBlocks(k.im, k.l, p);
      SameChain(k.im.blocks, im.blocks, k.l.chains[p], l.chains[k.dest]);
    }
  }

  lemma SameChain(a: seq<seq<Byte>>, b: seq<seq<Byte>>, c: seq<nat>, d: seq<nat>)
    requires |a| == |b| && forall x :: 0 <= x < |a| && x !in d ==> b[x] == a[x]
    requires forall x :: x in c ==> x !in d
    ensures Flat(b, c) == Flat(a, c)
  {
    FlatFrame(a, b, c);
  }

  lemma OthersTrans(im0: Image, l0: Layout, im1: Image, l1: Layout, im2: Image, l2: Layout, o: Owner)
    requires Others(im0, l0, im1, l1, o) && Others(im1, l1, im2, l2, o)
    ensures Others(im0, l0, im2, l2, o)
  {
    hide Flat, At;
  }

  /** An edit of slot `o` alone, in a directory block, leaves all other files as they were. */
  lemma SlotOthers(im: Image, l: Layout, im': Image, l': Layout, o: Owner, blk: seq<Byte>)
    requires Struct(im, l) && o.Slot? && o.blk in l.chains[Root] && o.blk < |im.blocks|
    requires im'.bs == im.bs && im'.blocks == im.blocks[o.blk := blk] && OnlySlot(im, im', o.blk, o.idx)
    requires forall p: Owner :: p.Slot? && p != o ==> (p in l.chains <==> p in l'.chains)
    requires forall p :: p in l.chains && p.Slot? && p != o ==> l'.chains[p] == l.chains[p]
    ensures Others(im, l, im', l', o)
  {
    hide Struct, Flat, At;
    FlatDirectory(im, l, o.blk, blk);
  }

  /** What locate_end_of_file computes for a file with blocks: the bytes used in its last one. */
  lemma EndOfFile(im: Image, l: Layout, o: Owner)
    requires Struct(im, l) && AllTight(im, l) && o in l.chains && o.Slot? && l.chains[o] != []
    ensures var n := EntryOf(im, o).size - im.bs * (|l.chains[o]| - 1);
            && 0 < n <= im.bs && |Prefix(im.blocks, l.chains[o], n)| == EntryOf(im, o).size
            && Prefix(im.blocks, l.chains[o], n) == Take(Flat(im.blocks, l.chains[o]), EntryOf(im, o).size)
  {
    hide Struct, Flat, Prefix;
    assert o == Slot(o.blk, o.idx);
    var c := l.chains[o];
    var n := EntryOf(im, o).size - im.bs * (|c| - 1);
    assert |c| * im.bs == (|c| - 1) * im.bs + im.bs;
    PrefixSize(im, l, o, n);
    FrontFits(im, l, o, n);
  }

  /** Enough free blocks for `size` more bytes behind file `o`. */
  ghost predicate Room(im: Image, l: Layout, o: Owner, size: nat)
    requires o in l.chains
  {
    if l.chains[o] == [] then size <= im.bs * (FreeCount(im.fat) - 1)
    else EntryOf(im, o).size + size <= im.bs * (|l.chains[o]| + FreeCount(im.fat))
  }

  /** What copied bytes end up behind: the file's own bytes, but a whole block of zeros
      when the file had none, because its fresh first block is taken to be full. */
  ghost function Base(im: Image, l: Layout, o: Owner): seq<Byte>
    requires o in l.chains
  {
    if l.chains[o] == [] then seq(im.bs, _ => 0) else Take(Flat(im.blocks, l.chains[o]), EntryOf(im, o).size)
  }

  /** What copy_data does to the destination `o`: the source `p` is appended, or as much of it as there is room for. */
  ghost predicate CopyOutcome(im0: Image, l0: Layout, im: Image, l: Layout, o: Owner, p: Owner, stuck: bool, end: nat,
                              left: nat)
    requires o in l0.chains && p in l0.chains
  {
    && o in l.chains && l.names == l0.names && im.bs == im0.bs && Others(im0, l0, im, l, o)
    && EntryOf(im, o).size == EntryOf(im0, o).size
    && FreeCount(im.fat) + |l.chains[o]| == FreeCount(im0.fat) + |l0.chains[o]|
    && (stuck <==> l0.chains[p] != [] && !Room(im0, l0, o, EntryOf(im0, p).size))
    && (stuck <==> 0 < left) && (stuck ==> FreeSet(im.fat) == {})
    && (if l0.chains[p] == [] then im == im0 && l == l0
        else if l.chains[o] == [] then stuck && im == im0 && l == l0 && left == EntryOf(im0, p).size
        else && 0 < end <= im.bs && left <= EntryOf(im0, p).size && (stuck ==> end == im.bs)
             && Prefix(im.blocks, l.chains[o], end) ==
                Base(im0, l0, o) + Take(Flat(im0.blocks, l0.chains[p]), EntryOf(im0, p).size - left))
  }

  lemma CopiedNothing(im: Image, l: Layout, o: Owner, p: Owner, end: nat)
    requires o in l.chains && p in l.chains && l.chains[p] == []
    ensures CopyOutcome(im, l, im, l, o, p, false, end, 0)
  {
    hide Flat, Prefix, FreeCount, FreeSet, Base, Take, At;
    SelfOthers(im, l, o);
  }

  /** An empty destination and no free block. */
  lemma CopyStuck(im: Image, l: Layout, o: Owner, p: Owner, end: nat)
    requires o in l.chains && p in l.chains && l.chains[p] != [] && l.chains[o] == [] && FreeSet(im.fat) == {}
    requires 0 < EntryOf(im, p).size && 0 < im.bs
    ensures CopyOutcome(im, l, im, l, o, p, true, end, EntryOf(im, p).size)
  {
    SelfOthers(im, l, o);
    RoomForOne(im, l, o, EntryOf(im, p).size);
    hide Flat, Prefix, FreeCount, Base, Take, At, Room, Others, FreeSet;
  }

  lemma CopiedBehind(im0: Image, l0: Layout, k: Copy, im: Image, l: Layout, o: Owner, p: Owner, stuck: bool, end: nat,
                     left: nat)
    requires o in l0.chains && p in l0.chains && l0.chains[p] != [] && k.im.bs == im0.bs == im.bs
    requires o in k.l.chains && p in k.l.chains && Others(im0, l0, k.im, k.l, o) && Others(k.im, k.l, im, l, o)
    requires k.l.names == l0.names == l.names && o in l.chains && l.chains[o] != [] && k.size == EntryOf(im0, p).size
    requires EntryOf(im, o).size == EntryOf(k.im, o).size == EntryOf(im0, o).size
    requires FreeCount(im.fat) + |l.chains[o]| == FreeCount(k.im.fat) + |k.l.chains[o]|
    requires FreeCount(k.im.fat) + |k.l.chains[o]| == FreeCount(im0.fat) + |l0.chains[o]|
    requires Room(im0, l0, o, k.size) <==> !stuck
    requires 0 < end <= im.bs && left <= k.size && (stuck <==> 0 < left)
    requires stuck ==> end == im.bs && FreeSet(im.fat) == {}
    requires Prefix(k.im.blocks, k.l.chains[o], k.at) == Base(im0, l0, o)
    requires Flat(k.im.blocks, k.l.chains[p]) == Flat(im0.blocks, l0.chains[p])
    requires Prefix(im.blocks, l.chains[o], end) ==
             Prefix(k.im.blocks, k.l.chains[o], k.at) + Take(Flat(k.im.blocks, k.l.chains[p]), k.size - left)
    ensures CopyOutcome(im0, l0, im, l, o, p, stuck, end, left)
  {
    hide Flat, Prefix, FreeCount, FreeSet, Base, Take, At, Room, Others, EntryOf;
    OthersTrans(im0, l0, k.im, k.l, im, l, o);
  }

  /** A copy that was not stuck. */
  lemma OutcomeCopied(im0: Image, l0: Layout, im: Image, l: Layout, o: Owner, p: Owner, end: nat, left: nat)
    requires o in l0.chains && p in l0.chains && CopyOutcome(im0, l0, im, l, o, p, false, end, left) && Struct(im, l)
    ensures Copied(im0, l0, im, l, o, p, end)
  {
    hide Struct, Flat, Prefix, FreeCount, FreeSet, Base, Take, At, Room, Others, EntryOf;
  }

  /** copy_data's view of a file with blocks is a valid start of a copy. */
  lemma CopyStart(im: Image, l: Layout, o: Owner, p: Owner)
    requires Struct(im, l) && AllTight(im, l) && o in l.chains && o.Slot? && l.chains[o] != []
    requires p in l.chains && p.Slot? && l.chains[p] != []
    ensures var n := EntryOf(im, o).size - im.bs * (|l.chains[o]| - 1);
            && 0 < n <= im.bs
            && var k := Copy(im, l, o, p, n, EntryOf(im, p).size);
            && k.Pre() && (Room(im, l, o, k.size) <==> k.size <= im.bs - n + im.bs * FreeCount(im.fat))
            && Prefix(im.blocks, l.chains[o], n) == Base(im, l, o)
  {
    hide Struct, Flat, Prefix, FreeCount;
    EndOfFile(im, l, o);
    EndOfFile(im, l, p);
    FlatSize(im, l, p);
    var m := EntryOf(im, p).size - im.bs * (|l.chains[p]| - 1);
    RoomSplit(im.bs, |l.chains[p]|, 0);
    RoomSplit(im.bs, |l.chains[o]|, FreeCount(im.fat));
  }

  lemma RoomSplit(bs: nat, c: nat, f: nat)
    ensures bs * (c + f) == bs * (c - 1) + bs + bs * f && c * bs == bs * (c - 1) + bs
  {
  }

  lemma FlatSize(im: Image, l: Layout, o: Owner)
    requires Struct(im, l) && o in l.chains
    ensures |Flat(im.blocks, l.chains[o])| == |l.chains[o]| * im.bs
  {
    hide Struct;
    ChainBlocks(im, l, o);
    FlatLengthAny(im.blocks, l.chains[o], im.bs);
  }

  /** The same for a file that has just been given its first block: the cursor stands
      behind that whole block. */
  lemma CopyStartEmpty(im0: Image, l0: Layout, im: Image, l: Layout, o: Owner, p: Owner, x: nat)
    requires Struct(im0, l0) && AllTight(im0, l0) && o in l0.chains && o.Slot? && l0.chains[o] == []
    requires p in l0.chains && p.Slot? && l0.chains[p] != []
    requires Struct(im, l) && l == l0.(chains := l0.chains[o := [x]]) && Others(im0, l0, im, l, o)
    requires x < |im.blocks| && |im.blocks[x]| == im.bs && Zero(im.blocks[x])
    requires FreeCount(im.fat) == FreeCount(im0.fat) - 1
    ensures var k := Copy(im, l, o, p, im.bs, EntryOf(im0, p).size);
            && k.Pre() && (Room(im0, l0, o, k.size) <==> k.size <= im.bs - k.at + im.bs * FreeCount(im.fat))
            && Prefix(im.blocks, l.chains[o], im.bs) == Base(im0, l0, o)
            && EntryOf(im0, o).size == 0
            && EntryOf(im, p).size == EntryOf(im0, p).size && l.chains[p] == l0.chains[p]
            && Flat(im.blocks, l.chains[p]) == Flat(im0.blocks, l0.chains[p])
  {
    hide Struct, FreeCount, AllTight, Flat, Prefix, At, Zero, EntryOf;
    EndOfFile(im0, l0, p);
    assert l.chains[p] == l0.chains[p];
    FlatSize(im, l, p);
    TightOf(im0, l0, o);
    assert |l.chains[p]| * im.bs == im.bs * (|l.chains[p]| - 1) + im.bs;
    OneZeroBlock(im.blocks, x, im.bs);
  }

  lemma TightOf(im: Image, l: Layout, o: Owner)
    requires AllTight(im, l) && o in l.chains && o.Slot?
    ensures Tight(l.chains[o], EntryOf(im, o).size, im.bs)
  {
    assert o == Slot(o.blk, o.idx);
  }

  lemma OneZeroBlock(a: seq<seq<Byte>>, x: nat, bs: nat)
    requires x < |a| && |a[x]| == bs && Zero(a[x])
    ensures Prefix(a, [x], bs) == seq(bs, _ => 0)
  {
    assert Front([x]) == [];
  }

  lemma SelfOthers(im: Image, l: Layout, o: Owner)
    ensures Others(im, l, im, l, o)
  {
    hide Flat, At;
  }

  lemma RoomForOne(im: Image, l: Layout, o: Owner, size: nat)
    requires o in l.chains && l.chains[o] == [] && 0 < size && 0 < im.bs
    ensures Room(im, l, o, size) ==> FreeSet(im.fat) != {}
  {
    NoRoom(im.bs, FreeCount(im.fat) - 1);
  }

  lemma NoRoom(bs: nat, n: int)
    requires 0 < bs
    ensures n < 0 ==> bs * n < 0
  {
  }

  /** A chain is shorter than the table, so sizes fit their 32-bit field. */
  lemma SizeFits(im: Image, l: Layout, o: Owner, size: nat)
    requires Struct(im, l) && o in l.chains && size <= |l.chains[o]| * im.bs
    ensures size < 4294967296
  {
    hide Packed, Keys, Names, FreeZero;
    var c := l.chains[o];
    ChainBlocks(im, l, o);
    DistinctCount(c);
    BelowCount(Cells(c), |im.fat|);
    MulMono(|c|, END, im.bs);
    assert im.bs <= 4096;
  }

  lemma {:induction false} BelowCount(s: set<nat>, n: nat)
    requires forall x :: x in s ==> x < n
    ensures |s| <= n
  {
    if n > 0 {
      BelowCount(s - {n - 1}, n - 1);
    } else {
      assert s == {};
    }
  }

  lemma PrefixDirectory(im: Image, l: Layout, o: Owner, b: nat, blk: seq<Byte>, k: nat)
    requires Struct(im, l) && b in l.chains[Root] && b < |im.blocks| && o in l.chains && o != Root && l.chains[o] != []
    ensures Prefix(im.blocks[b := blk], l.chains[o], k) == Prefix(im.blocks, l.chains[o], k)
  {
    hide Struct, Flat, Prefix;
    SlotsOfStruct(im, l);
    ChainBlocks(im, l, Root);
    PrefixOff(im.blocks, b, blk, l.chains[o], k);
  }

  lemma PrefixOff(a: seq<seq<Byte>>, b: nat, blk: seq<Byte>, c: seq<nat>, k: nat)
    requires b < |a| && b !in c && c != []
    ensures Prefix(a[b := blk], c, k) == Prefix(a, c, k)
  {
    assert forall x :: x in Front(c) ==> x in c;
    assert Last(c) in c;
    PrefixFrame(a[b := blk], a, c, k);
  }

  /** The size update that follows a copy completes the append. */
  lemma FinishAppend(im0: Image, l0: Layout, im: Image, l: Layout, o: Owner, n: seq<Byte>, di: nat, data: seq<Byte>)
    requires Inv(im0, l0) && n in l0.names && l0.names[n] == o && o in l0.chains && o.Slot?
    requires Struct(im, l) && o in l.chains && l.chains[o] != [] && l.names == l0.names
    requires Others(im0, l0, im, l, o) && 0 < di <= im.bs == im0.bs && EntryOf(im, o).size == EntryOf(im0, o).size
    requires Prefix(im.blocks, l.chains[o], di) == View(im0, l0)[n] + data
    ensures o.blk < |im.blocks| && ENTRY_SIZE * o.idx + ENTRY_SIZE <= |im.blocks[o.blk]|
    ensures var im' := SetBlock(im, o.blk, PutSize(im.blocks[o.blk], o.idx, EntryOf(im, o).size + |data|));
            && Inv(im', l) && View(im', l) == View(im0, l0)[n := View(im0, l0)[n] + data]
            && im.bs > 0 && |l.chains[o]| == Ceil(|View(im0, l0)[n] + data|, im.bs)
  {
    hide Struct, AllTight, Others, Flat, Prefix, EntryOf, NameOk, View, OnlyEntry, Ceil, Read, At, Live, Outside, Tight;
    ViewSize(im0, l0, n);
    FrontFits(im, l, o, di);
    var size := EntryOf(im, o).size + |data|;
    SizeFits(im, l, o, size);
    FinishSlot(im0, l0, im, l, o, size);
    StructRoot(im, l);
    SlotsOfStruct(im, l);
    var blk := PutSize(im.blocks[o.blk], o.idx, size);
    PrefixDirectory(im, l, o, o.blk, blk, di);
    AppendView(im0, l0, SetBlock(im, o.blk, blk), l, o, n, di, data);
  }

  lemma FinishSlot(im0: Image, l0: Layout, im: Image, l: Layout, o: Owner, size: nat)
    requires Struct(im, l) && o in l.chains && o.Slot? && Others(im0, l0, im, l, o) && size < 4294967296
    ensures o.blk < |im.blocks| && ENTRY_SIZE * o.idx + ENTRY_SIZE <= |im.blocks[o.blk]|
    ensures var im' := SetBlock(im, o.blk, PutSize(im.blocks[o.blk], o.idx, size));
            Struct(im', l) && Others(im0, l0, im', l, o) && EntryOf(im', o).size == size
  {
    hide Struct, Others, Flat, EntryOf, OnlyEntry, Read, At, Live, Outside;
    SetSize(im, l, o, size);
    SlotRange(im, l, o);
    var blk := PutSize(im.blocks[o.blk], o.idx, size);
    AtEdit(im, o.blk, o.idx, blk);
    SlotOthers(im, l, SetBlock(im, o.blk, blk), l, o, blk);
    OthersTrans(im0, l0, im, l, SetBlock(im, o.blk, blk), l, o);
  }

  // ---- outcomes of an append -----------------------------------------------

  /** Free blocks that growing a file from `n` to `n + m` bytes takes. */
  function Needed(n: nat, m: nat, bs: nat): int
    requires bs > 0
  {
    Ceil(n + m, bs) - Ceil(n, bs)
  }

  /** The file `n` now ends in `data`, nothing else changed, and no block too many was taken. */
  ghost predicate Appended(im0: Image, l0: Layout, im: Image, l: Layout, n: seq<Byte>, data: seq<Byte>) {
    var v := View(im0, l0);
    && Inv(im, l) && l.names == l0.names && n in v && View(im, l) == v[n := v[n] + data]
    && im.bs == im0.bs > 0 && FreeCount(im.fat) == FreeCount(im0.fat) - Needed(|v[n]|, |data|, im.bs)
  }

  /** `data` went behind a whole block of zeros, and the file has a block too many. */
  ghost predicate Misplaced(im: Image, l: Layout, n: seq<Byte>, data: seq<Byte>) {
    && Struct(im, l) && !AllTight(im, l) && n in View(im, l)
    && View(im, l)[n] == Take(seq(im.bs, _ => 0) + data, |data|)
  }

  function Resized(im: Image, o: Owner, size: nat): Image {
    if o.Slot? && o.blk < |im.blocks| && ENTRY_SIZE * o.idx + ENTRY_SIZE <= |im.blocks[o.blk]|
    then SetBlock(im, o.blk, PutSize(im.blocks[o.blk], o.idx, size))
    else im
  }

  /** What copy_data guarantees about the destination. */
  ghost predicate Copied(im0: Image, l0: Layout, im: Image, l: Layout, o: Owner, p: Owner, end: nat)
    requires o in l0.chains && p in l0.chains
  {
    && Struct(im, l) && o in l.chains && l.names == l0.names && im.bs == im0.bs
    && Others(im0, l0, im, l, o) && EntryOf(im, o).size == EntryOf(im0, o).size
    && FreeCount(im.fat) + |l.chains[o]| == FreeCount(im0.fat) + |l0.chains[o]|
    && (l0.chains[p] == [] ==> im == im0 && l == l0)
    && (l0.chains[p] != [] ==>
          l.chains[o] != [] && 0 < end <= im.bs
          && Prefix(im.blocks, l.chains[o], end) ==
             Base(im0, l0, o) + Take(Flat(im0.blocks, l0.chains[p]), EntryOf(im0, p).size))
  }

  /** Appending file `m` to file `n` is right unless `n` was empty and `m` was not. */
  ghost predicate ConcatOutcome(im0: Image, l0: Layout, im: Image, l: Layout, n: seq<Byte>, m: seq<Byte>) {
    && n in View(im0, l0) && m in View(im0, l0)
    && var data := View(im0, l0)[m];
       if data == [] || View(im0, l0)[n] != [] then Appended(im0, l0, im, l, n, data)
       else Misplaced(im, l, n, data)
  }

  lemma ConcatDone(im0: Image, l0: Layout, im: Image, l: Layout, n: seq<Byte>, m: seq<Byte>, end: nat)
    requires Inv(im0, l0) && n in l0.names && m in l0.names && l0.names[n] in l0.chains && l0.names[m] in l0.chains
    requires Copied(im0, l0, im, l, l0.names[n], l0.names[m], end)
    ensures var o := l0.names[n];
            var im' := Resized(im, o, EntryOf(im, o).size + EntryOf(im0, l0.names[m]).size);
            Struct(im', l) && ConcatOutcome(im0, l0, im', l, n, m)
  {
    hide Inv, Struct, AllTight, Others, Flat, Prefix, EntryOf, NameOk, View, OnlyEntry, Ceil, Read, At, Live,
         FreeCount, Resized, Appended, Misplaced, Take, FreeSet, PutSize, Outside, SetBlock, Tight, Base;
    var o, p := l0.names[n], l0.names[m];
    NoBytes(im0, l0, n);
    NoBytes(im0, l0, m);
    var data := View(im0, l0)[m];
    if data == [] {
      SizeKept(im0, l0, o, n);
    } else if View(im0, l0)[n] != [] {
      FinishAppend(im0, l0, im, l, o, n, end, data);
      ResizedIs(im, l, o, EntryOf(im, o).size + |data|);
      IsAppended(im0, l0, im, l, o, n, data);
    } else {
      FinishMisplaced(im0, l0, im, l, o, n, end, data);
    }
    OutcomeStruct(im0, l0, Resized(im, o, EntryOf(im, o).size + |data|), l, n, data);
  }

  /** A file without bytes has no blocks, and the other way round. */
  lemma NoBytes(im: Image, l: Layout, n: seq<Byte>)
    requires Inv(im, l) && n in l.names
    ensures n in View(im, l) && l.names[n] in l.chains && l.names[n].Slot? && im.bs > 0 && Struct(im, l)
    ensures var o := l.names[n];
            && (View(im, l)[n] == [] <==> l.chains[o] == [])
            && |View(im, l)[n]| == EntryOf(im, o).size
            && View(im, l)[n] == Take(Flat(im.blocks, l.chains[o]), EntryOf(im, o).size)
            && (View(im, l)[n] != [] ==> Base(im, l, o) == View(im, l)[n])
  {
    hide Struct, Flat, EntryOf, NameOk, View, Ceil, At, AllTight, Take, Prefix;
    InvParts(im, l);
    ViewSize(im, l, n);
  }

  lemma OutcomeStruct(im0: Image, l0: Layout, im: Image, l: Layout, n: seq<Byte>, data: seq<Byte>)
    requires Appended(im0, l0, im, l, n, data) || Misplaced(im, l, n, data)
    ensures Struct(im, l)
  {
    hide Struct, View, Flat, AllTight;
  }

  lemma InvParts(im: Image, l: Layout)
    requires Inv(im, l)
    ensures Struct(im, l) && AllTight(im, l)
  {
  }

  lemma ResizedIs(im: Image, l: Layout, o: Owner, size: nat)
    requires Struct(im, l) && o in l.chains && o.Slot?
    ensures o.blk < |im.blocks| && ENTRY_SIZE * o.idx + ENTRY_SIZE <= |im.blocks[o.blk]|
    ensures Resized(im, o, size) == SetBlock(im, o.blk, PutSize(im.blocks[o.blk], o.idx, size))
    ensures Resized(im, o, size).bs == im.bs && Resized(im, o, size).fat == im.fat
  {
    hide Struct;
    SlotRange(im, l, o);
  }

  lemma IsAppended(im0: Image, l0: Layout, im: Image, l: Layout, o: Owner, n: seq<Byte>, data: seq<Byte>)
    requires Inv(im0, l0) && n in l0.names && l0.names[n] == o && o in l0.chains && o.Slot?
    requires Struct(im, l) && o in l.chains && l.names == l0.names && im.bs == im0.bs > 0
    requires FreeCount(im.fat) + |l.chains[o]| == FreeCount(im0.fat) + |l0.chains[o]|
    requires var im' := Resized(im, o, EntryOf(im, o).size + |data|);
             Inv(im', l) && View(im', l) == View(im0, l0)[n := View(im0, l0)[n] + data]
             && |l.chains[o]| == Ceil(|View(im0, l0)[n] + data|, im.bs)
    ensures Appended(im0, l0, Resized(im, o, EntryOf(im, o).size + |data|), l, n, data)
  {
    hide Inv, Struct, Flat, Prefix, EntryOf, NameOk, View, OnlyEntry, Ceil, FreeCount, Resized;
    ViewSize(im0, l0, n) by { InvParts(im0, l0); }
    ResizedIs(im, l, o, EntryOf(im, o).size + |data|);
  }

  lemma SizeKept(im: Image, l: Layout, o: Owner, n: seq<Byte>)
    requires Inv(im, l) && n in l.names && l.names[n] == o && o in l.chains && o.Slot?
    ensures Appended(im, l, Resized(im, o, EntryOf(im, o).size + 0), l, n, [])
  {
    hide Struct, Flat, EntryOf, NameOk, View, OnlyEntry, Ceil, FreeCount, Resized, AllTight, At, Read, Others, Tight;
    var size := EntryOf(im, o).size;
    ViewSize(im, l, n);
    SizeFits(im, l, o, size);
    ResizedKeeps(im, l, o, size);
    var im' := Resized(im, o, size);
    TightOthers(im, l, im', l, o);
    ViewSize(im', l, n);
    SameBytes(im, l, o, size);
    OneChanged(im, l, im', l, o, n);
    assert View(im, l)[n] + [] == View(im, l)[n];
  }

  lemma SameBytes(im: Image, l: Layout, o: Owner, size: nat)
    requires Struct(im, l) && o in l.chains && o.Slot?
    ensures Flat(Resized(im, o, size).blocks, l.chains[o]) == Flat(im.blocks, l.chains[o])
  {
    hide Struct, Flat;
    SlotRange(im, l, o);
    ResizedIs(im, l, o, size);
    FlatDirectory(im, l, o.blk, PutSize(im.blocks[o.blk], o.idx, size));
  }

  lemma FinishMisplaced(im0: Image, l0: Layout, im: Image, l: Layout, o: Owner, n: seq<Byte>, di: nat, data: seq<Byte>)
    requires Inv(im0, l0) && n in l0.names && l0.names[n] == o && o in l0.chains && o.Slot? && l0.chains[o] == []
    requires Struct(im, l) && o in l.chains && l.chains[o] != [] && l.names == l0.names && data != []
    requires 0 < di <= im.bs == im0.bs && EntryOf(im, o).size == EntryOf(im0, o).size
    requires Prefix(im.blocks, l.chains[o], di) == Base(im0, l0, o) + data
    ensures Misplaced(Resized(im, o, EntryOf(im, o).size + |data|), l, n, data)
  {
    hide Struct, Flat, Prefix, EntryOf, NameOk, OnlyEntry, FreeCount, Resized, At, Read, Others, AllTight, Take,
         Outside;
    ViewSize(im0, l0, n);
    var c := l.chains[o];
    FrontFits(im, l, o, di);
    var size := EntryOf(im, o).size + |data|;
    SizeFits(im, l, o, size);
    SetSize(im, l, o, size);
    ResizedIs(im, l, o, size);
    SlotRange(im, l, o);
    var im' := Resized(im, o, size);
    FlatDirectory(im, l, o.blk, PutSize(im.blocks[o.blk], o.idx, size));
    TakeOfTake(Flat(im.blocks, c), im.bs + |data|, |data|);
    NotTight(im', l, o, |data|);
  }

  lemma TakeOfTake(s: seq<Byte>, k: nat, j: nat)
    requires j <= k
    ensures Take(Take(s, k), j) == Take(s, j)
  {
  }

  /** A chain sized for one block more than its data breaks tightness. */
  lemma NotTight(im: Image, l: Layout, o: Owner, size: nat)
    requires Struct(im, l) && o in l.chains && o.Slot? && EntryOf(im, o).size == size && im.bs > 0
    requires Tight(l.chains[o], im.bs + size, im.bs)
    ensures !AllTight(im, l)
  {
    hide Struct;
    var c := l.chains[o];
    assert o == Slot(o.blk, o.idx);
    assert |c| * im.bs == (|c| - 1) * im.bs + im.bs;
  }

  lemma ResizedKeeps(im: Image, l: Layout, o: Owner, size: nat)
    requires Struct(im, l) && o in l.chains && o.Slot? && size < 4294967296
    ensures var im' := Resized(im, o, size);
            && Struct(im', l) && Others(im, l, im', l, o) && EntryOf(im', o) == EntryOf(im, o).(size := size)
            && im'.bs == im.bs && im'.fat == im.fat
    ensures l.chains[o] != [] ==>
              forall k :: Prefix(Resized(im, o, size).blocks, l.chains[o], k) == Prefix(im.blocks, l.chains[o], k)
  {
    hide Struct, Others, Prefix, OnlyEntry, At, Read, Live, Resized;
    SlotRange(im, l, o);
    SetSize(im, l, o, size);
    ResizedIs(im, l, o, size);
    var blk := PutSize(im.blocks[o.blk], o.idx, size);
    AtEdit(im, o.blk, o.idx, blk);
    SlotOthers(im, l, SetBlock(im, o.blk, blk), l, o, blk);
    if l.chains[o] != [] {
      forall k | 0 <= k ensures Prefix(im.blocks[o.blk := blk], l.chains[o], k) == Prefix(im.blocks, l.chains[o], k) {
        PrefixDirectory(im, l, o, o.blk, blk, k);
      }
    }
  }

  lemma CellsFit(f: seq<nat>, c: seq<nat>)
    requires (forall x :: x in c ==> 1 <= x < |f| && f[x] != 0) && forall i, j :: 0 <= i < j < |c| ==> c[i] != c[j]
    ensures |c| + FreeCount(f) <= |f|
  {
    DistinctCount(c);
    assert Cells(c) !! FreeSet(f);
    BelowCount(Cells(c) + FreeSet(f), |f|);
  }

  /** Free blocks and the blocks of a chain are distinct cells of the table. */
  lemma CountFits(im: Image, l: Layout, o: Owner)
    requires Struct(im, l) && o in l.chains
    ensures |l.chains[o]| + FreeCount(im.fat) <= END && im.bs <= 4096
  {
    ChainUsed(im, l, o);
    hide *;
    CellsFit(im.fat, l.chains[o]);
  }

  lemma ChainUsed(im: Image, l: Layout, o: Owner)
    requires Struct(im, l) && o in l.chains
    ensures forall x :: x in l.chains[o] ==> 1 <= x < |im.fat| && im.fat[x] != 0
    ensures forall i, j :: 0 <= i < j < |l.chains[o]| ==> l.chains[o][i] != l.chains[o][j]
    ensures |im.fat| <= END && im.bs <= 4096
  {
    hide Packed, Keys, Names, FreeZero;
    ChainCells(im.fat, l.chains, o);
    assert Chain(im.fat, l.chains[o]);
  }

  /** The state do_cat_append starts writing in: the size field already updated, the cursor
      behind the last byte. */
  lemma AppendSetup(im: Image, l: Layout, n: seq<Byte>, o: Owner, m: nat) returns (at: nat)
    requires Inv(im, l) && n in l.names && o == l.names[n] && n in View(im, l) && View(im, l)[n] != [] && im.bs > 0
    requires m < 0x8000_0000
    ensures o in l.chains && o.Slot? && l.chains[o] != []
    ensures 0 < at <= im.bs && at == EntryOf(im, o).size - im.bs * (|l.chains[o]| - 1)
    ensures Struct(Resized(im, o, EntryOf(im, o).size + m), l)
    ensures Others(im, l, Resized(im, o, EntryOf(im, o).size + m), l, o)
    ensures EntryOf(Resized(im, o, EntryOf(im, o).size + m), o).size == |View(im, l)[n]| + m
    ensures Resized(im, o, EntryOf(im, o).size + m).fat == im.fat && Resized(im, o, EntryOf(im, o).size + m).bs == im.bs
    ensures Prefix(Resized(im, o, EntryOf(im, o).size + m).blocks, l.chains[o], at) == View(im, l)[n]
    ensures var im1 := Resized(im, o, EntryOf(im, o).size + m);
            Writing(Copy(im1, l, o, o, at, 0), im1, l, at, [])
  {
    hide Struct, AllTight, View, Flat, Prefix, Ceil, Others, FreeCount, Resized, Writing, EntryOf;
    ViewSize(im, l, n);
    EndOfFile(im, l, o);
    CountFits(im, l, o);
    var size := EntryOf(im, o).size + m;
    MulMono(|l.chains[o]|, END, im.bs);
    ResizedKeeps(im, l, o, size);
    at := EntryOf(im, o).size - im.bs * (|l.chains[o]| - 1);
    StartWriting(Copy(Resized(im, o, size), l, o, o, at, 0));
  }

  lemma CeilLeast(n: nat, k: nat, bs: nat)
    requires bs > 0
    ensures n <= Ceil(n, bs) * bs && (n <= k ==> Ceil(n, bs) <= Ceil(k, bs))
  {
    var q, r := (n + bs - 1) / bs, (n + bs - 1) % bs;
    assert n + bs - 1 == q * bs + r;
    var q', r' := (k + bs - 1) / bs, (k + bs - 1) % bs;
    assert k + bs - 1 == q' * bs + r';
    assert (q' + 1) * bs == q' * bs + bs;
    if q' < q { MulMono(q' + 1, q, bs); }
  }

  /** Bytes written behind a file whose size field already counts them complete an append. */
  lemma AppendFinish(im0: Image, l0: Layout, k: Copy, im: Image, l: Layout, n: seq<Byte>, end: nat, data: seq<Byte>)
    requires Inv(im0, l0) && n in l0.names && k.dest == l0.names[n] && k.dest in l0.chains && k.l == l0
    requires Others(im0, l0, k.im, l0, k.dest) && k.im.fat == im0.fat && k.im.bs == im0.bs
    requires n in View(im0, l0) && EntryOf(k.im, k.dest).size == |View(im0, l0)[n]| + |data|
    requires Writing(k, im, l, end, data) && 0 < end
    requires Prefix(k.im.blocks, l0.chains[k.dest], k.at) == View(im0, l0)[n]
    ensures Appended(im0, l0, im, l, n, data)
  {
    hide Struct, AllTight, View, Flat, Prefix, Ceil, Others, FreeCount, EntryOf, FreeSet, Take;
    ViewSize(im0, l0, n);
    TailOthers(k, im, l);
    OthersTrans(im0, l0, k.im, l0, im, l, k.dest);
    AppendView(im0, l0, im, l, k.dest, n, end, data);
  }

  /** A file whose size field runs past its last block reads as its whole blocks. */
  lemma Overfull(im: Image, l: Layout, n: seq<Byte>, o: Owner, data: seq<Byte>)
    requires Struct(im, l) && n in l.names && o == l.names[n] && o in l.chains && l.chains[o] != []
    requires Prefix(im.blocks, l.chains[o], im.bs) == data && EntryOf(im, o).size > |data|
    ensures !AllTight(im, l) && n in View(im, l) && View(im, l)[n] == data
  {
    hide Struct, At;
    var c := l.chains[o];
    NamedIs(im, l, n);
    ChainBlocks(im, l, o);
    FlatSize(im, l, o);
    PrefixFull(im.blocks, c, 0, im.bs);
  }

  /** A file of size 0 with a block is empty but not tight. */
  lemma Hollow(im: Image, l: Layout, n: seq<Byte>, o: Owner)
    requires Struct(im, l) && n in l.names && o == l.names[n] && o in l.chains && l.chains[o] != []
    requires EntryOf(im, o).size == 0
    ensures !AllTight(im, l) && n in View(im, l) && View(im, l)[n] == []
  {
    hide Struct, At, Flat;
    NamedIs(im, l, n);
  }

  lemma NamedIs(im: Image, l: Layout, n: seq<Byte>)
    requires Struct(im, l) && n in l.names
    ensures l.names[n] in l.chains && l.names[n].Slot? && l.names[n] == Slot(l.names[n].blk, l.names[n].idx)
  {
    NameSlot(im, l, n);
  }

  /** The outcome of do_cat_append when the blocks run out: everything that had room is there. */
  lemma AppendFull(im0: Image, l0: Layout, k: Copy, im: Image, l: Layout, n: seq<Byte>, data: seq<Byte>)
    requires Inv(im0, l0) && n in l0.names && k.dest == l0.names[n] && k.dest in l0.chains && k.l == l0
    requires Others(im0, l0, k.im, l0, k.dest) && k.im.bs == im0.bs && n in View(im0, l0)
    requires Writing(k, im, l, im.bs, data) && EntryOf(k.im, k.dest).size > |View(im0, l0)[n]| + |data|
    requires Prefix(k.im.blocks, l0.chains[k.dest], k.at) == View(im0, l0)[n]
    ensures Struct(im, l) && l.names == l0.names && !AllTight(im, l)
    ensures View(im, l) == View(im0, l0)[n := View(im0, l0)[n] + data]
  {
    hide Struct, AllTight, View, Flat, Prefix, Others, FreeCount, EntryOf, FreeSet, Take;
    TailOthers(k, im, l);
    OthersTrans(im0, l0, k.im, l0, im, l, k.dest);
    Overfull(im, l, n, k.dest, View(im0, l0)[n] + data);
    OneChanged(im0, l0, im, l, k.dest, n);
  }

  /** The append fits exactly when the free blocks cover what the new length needs. */
  lemma FitsIff(n: nat, m: nat, c: nat, free: nat, bs: nat)
    requires bs > 0 && c > 0 && c == Ceil(n, bs)
    ensures m <= bs * c - n + bs * free <==> Needed(n, m, bs) <= free
  {
    CeilIff(n + m, bs, c + free);
    RoomSplit(bs, c, free);
    assert bs * (c + free) == bs * c + bs * free;
  }

  lemma CeilIff(n: nat, bs: nat, k: nat)
    requires bs > 0
    ensures Ceil(n, bs) <= k <==> n <= bs * k
  {
    CeilLeast(n, n, bs);
    if Ceil(n, bs) <= k { MulMono(Ceil(n, bs), k, bs); }
    if n <= bs * k {
      CeilLeast(n, bs * k, bs);
      CeilExact(k, bs);
    }
  }

  lemma CeilExact(k: nat, bs: nat)
    requires bs > 0
    ensures Ceil(bs * k, bs) == k
  {
    assert bs * k + bs - 1 == k * bs + (bs - 1);
    DivUnique(bs * k + bs - 1, bs, k, bs - 1);
  }

  /** The bytes that fit behind a file of `size` bytes: the rest of its last block and all free blocks. */
  function SpaceBehind(size: nat, free: nat, bs: nat): int
    requires bs > 0
  {
    bs * Ceil(size, bs) - size + bs * free
  }

  /** Bytes written so far, in terms of the space there was. */
  lemma AppendSpace(im0: Image, l0: Layout, k: Copy, im: Image, l: Layout, n: seq<Byte>, end: nat, data: seq<Byte>)
    requires Inv(im0, l0) && n in l0.names && k.dest == l0.names[n] && k.dest in l0.chains && k.l == l0
    requires k.im.fat == im0.fat && k.im.bs == im0.bs && n in View(im0, l0) && View(im0, l0)[n] != []
    requires k.at == |View(im0, l0)[n]| - im0.bs * (|l0.chains[k.dest]| - 1)
    requires Writing(k, im, l, end, data)
    ensures im.bs == im0.bs > 0 && end <= im.bs
    ensures |data| + (im.bs - end) + im.bs * FreeCount(im.fat) ==
            SpaceBehind(|View(im0, l0)[n]|, FreeCount(im0.fat), im.bs)
  {
    hide Struct, AllTight, View, Flat, Prefix, Others, FreeCount, EntryOf, FreeSet, Take, Ceil;
    ViewSize(im0, l0, n);
    WriteRoom(k, im, l, end, data);
    RoomSplit(im.bs, |l0.chains[k.dest]|, 0);
  }

  lemma SpaceIff(n: nat, m: nat, free: nat, bs: nat)
    requires bs > 0 && n > 0
    ensures m <= SpaceBehind(n, free, bs) <==> Needed(n, m, bs) <= free
    ensures SpaceBehind(n, free, bs) >= 0
  {
    CeilLeast(1, n, bs);
    CeilLeast(n, n, bs);
    CeilOne(bs);
    FitsIff(n, m, Ceil(n, bs), free, bs);
    assert bs * free >= 0 by { MulMono(0, free, bs); }
  }

  /** The write loop came to its end: the input fits. */
  lemma AppendFits(im0: Image, l0: Layout, k: Copy, im: Image, l: Layout, n: seq<Byte>, end: nat, data: seq<Byte>)
    requires Inv(im0, l0) && n in l0.names && k.dest == l0.names[n] && k.dest in l0.chains && k.l == l0
    requires k.im.fat == im0.fat && k.im.bs == im0.bs && n in View(im0, l0) && View(im0, l0)[n] != []
    requires k.at == |View(im0, l0)[n]| - im0.bs * (|l0.chains[k.dest]| - 1)
    requires Writing(k, im, l, end, data)
    ensures im.bs > 0 && Needed(|View(im0, l0)[n]|, |data|, im.bs) <= FreeCount(im0.fat)
  {
    hide *;
    AppendSpace(im0, l0, k, im, l, n, end, data);
    SpaceIff(|View(im0, l0)[n]|, |data|, FreeCount(im0.fat), im.bs);
    MulMono(0, FreeCount(im.fat), im.bs);
  }

  /** It stopped for lack of blocks: what fits has been written, and the size field claims more. */
  lemma AppendSpills(im0: Image, l0: Layout, k: Copy, im: Image, l: Layout, n: seq<Byte>, data: seq<Byte>, done: nat)
    requires Inv(im0, l0) && n in l0.names && k.dest == l0.names[n] && k.dest in l0.chains && k.l == l0
    requires Others(im0, l0, k.im, l0, k.dest) && k.im.fat == im0.fat && k.im.bs == im0.bs
    requires n in View(im0, l0) && View(im0, l0)[n] != []
    requires k.at == |View(im0, l0)[n]| - im0.bs * (|l0.chains[k.dest]| - 1)
    requires Prefix(k.im.blocks, l0.chains[k.dest], k.at) == View(im0, l0)[n]
    requires EntryOf(k.im, k.dest).size == |View(im0, l0)[n]| + |data|
    requires done < |data| && Writing(k, im, l, im.bs, data[..done]) && FreeCount(im.fat) == 0
    ensures im.bs > 0 && Needed(|View(im0, l0)[n]|, |data|, im.bs) > FreeCount(im0.fat)
    ensures done == SpaceBehind(|View(im0, l0)[n]|, FreeCount(im0.fat), im.bs)
    ensures Struct(im, l) && !AllTight(im, l)
    ensures View(im, l) == View(im0, l0)[n := View(im0, l0)[n] + data[..done]]
  {
    hide *;
    AppendSpace(im0, l0, k, im, l, n, im.bs, data[..done]);
    SpaceIff(|View(im0, l0)[n]|, |data|, FreeCount(im0.fat), im.bs);
    AppendFull(im0, l0, k, im, l, n, data[..done]);
  }

  // ---- creating, removing and renaming -------------------------------------

  /** A slot was filled and nothing else changed: the map gains that name. */
  lemma CreateView(im0: Image, l0: Layout, im: Image, l: Layout, o: Owner, n: seq<Byte>, data: seq<Byte>)
    requires Inv(im0, l0) && Struct(im, l) && Others(im0, l0, im, l, o) && o.Slot? && o in l.chains
    requires n !in l0.names && l.names == l0.names[n := o]
    requires Tight(l.chains[o], EntryOf(im, o).size, im.bs)
    requires Take(Flat(im.blocks, l.chains[o]), EntryOf(im, o).size) == data
    ensures Inv(im, l) && View(im, l) == View(im0, l0)[n := data]
  {
    hide Struct, AllTight, Others, Flat, Tight, EntryOf, NameOk, Take;
    OthersBs(im0, l0, im, l, o);
    TightOthers(im0, l0, im, l, o);
    ViewSize(im, l, n);
    OneNew(im0, l0, im, l, o, n);
  }

  /** When only a file called `n` was added, the maps differ at `n` only. */
  lemma OneNew(im0: Image, l0: Layout, im: Image, l: Layout, o: Owner, n: seq<Byte>)
    requires Struct(im0, l0) && Struct(im, l) && Others(im0, l0, im, l, o)
    requires n !in l0.names && l.names == l0.names[n := o]
    ensures n in View(im, l) && View(im, l) == View(im0, l0)[n := View(im, l)[n]]
  {
    hide Struct, Others, Flat, EntryOf, NameOk;
    ViewKeys(im, l);
    ViewKeys(im0, l0);
    forall m | m in l0.names ensures m in View(im, l) && View(im, l)[m] == View(im0, l0)[m] {
      NameDiffer(im, l, m, n);
      ViewOthers(im0, l0, im, l, o, m);
    }
  }

  lemma OthersBs(im0: Image, l0: Layout, im: Image, l: Layout, o: Owner)
    requires Others(im0, l0, im, l, o)
    ensures im.bs == im0.bs
  {
  }

  /** What follows for the files when an entry is removed with its chain. */
  lemma RemoveView(im0: Image, l0: Layout, im: Image, n: seq<Byte>, o: Owner, c: seq<nat>)
    requires Inv(im0, l0) && n in l0.names && o == l0.names[n] && o in l0.chains && o.Slot? && c == l0.chains[o]
    requires ENTRY_SIZE * o.idx + ENTRY_SIZE <= im0.bs && RemovedFrom(im0, im, o, c)
    ensures n in View(im0, l0) && im.bs == im0.bs > 0
    ensures Inv(im, Removed(l0, n)) && View(im, Removed(l0, n)) == View(im0, l0) - {n}
    ensures FreeCount(im.fat) == FreeCount(im0.fat) + Ceil(|View(im0, l0)[n]|, im.bs)
  {
    hide Struct, AllTight, Others, Flat, Tight, EntryOf, NameOk, RemovedFrom, Ceil, FreeCount;
    var l := Removed(l0, n);
    ViewSize(im0, l0, n);
    DeleteEntry(im0, im, l0, n, o, c);
    RemoveOthers(im0, l0, im, n, o, c);
    OthersBs(im0, l0, im, l, o);
    TightOthers(im0, l0, im, l, o);
    ViewKeys(im, l);
    ViewKeys(im0, l0);
    forall m | m in l.names ensures m in View(im, l) && View(im, l)[m] == View(im0, l0)[m] {
      NameDiffer(im0, l0, m, n);
      ViewOthers(im0, l0, im, l, o, m);
    }
  }

  lemma RemoveOthers(im0: Image, l0: Layout, im: Image, n: seq<Byte>, o: Owner, c: seq<nat>)
    requires Struct(im0, l0) && n in l0.names && o == l0.names[n] && o in l0.chains && o.Slot? && c == l0.chains[o]
    requires ENTRY_SIZE * o.idx + ENTRY_SIZE <= im0.bs && RemovedFrom(im0, im, o, c)
    ensures Others(im0, l0, im, Removed(l0, n), o)
  {
    hide Struct, Flat, At;
    DeleteEntry(im0, im, l0, n, o, c);
    SlotsOfStruct(im0, l0);
    SlotRange(im0, l0, o);
    BlocksKept(im0, l0, im, o, c);
    forall p | p in l0.chains && p.Slot? && p != o
      ensures EntryOf(im, p).size == EntryOf(im0, p).size
      ensures Flat(im.blocks, l0.chains[p]) == Flat(im0.blocks, l0.chains[p])
    {
      ChainBlocks(im0, l0, p);
      OffChain(im0.blocks, im.blocks, l0.chains[p], c, o.blk);
    }
  }

  lemma BlocksKept(im: Image, l: Layout, im': Image, o: Owner, c: seq<nat>)
    requires Struct(im, l) && o.Slot? && ENTRY_SIZE * o.idx + ENTRY_SIZE <= im.bs && RemovedFrom(im, im', o, c)
    ensures im'.bs == im.bs && |im'.blocks| == |im.blocks|
    ensures forall x :: 0 <= x < |im.blocks| && x !in c && x != o.blk ==> im'.blocks[x] == im.blocks[x]
  {
  }

  lemma OffChain(a: seq<seq<Byte>>, b: seq<seq<Byte>>, c: seq<nat>, d: seq<nat>, y: nat)
    requires |a| == |b| && forall x :: 0 <= x < |a| && x !in d && x != y ==> b[x] == a[x]
    requires y !in c && forall x :: x in c ==> x !in d
    ensures Flat(b, c) == Flat(a, c)
  {
    FlatFrame(a, b, c);
  }

  /** Renaming a file to an unused name moves its bytes to that name. */
  lemma RenameView(im0: Image, l0: Layout, im: Image, l: Layout, o: Owner, n: seq<Byte>, m: seq<Byte>)
    requires Inv(im0, l0) && n in l0.names && l0.names[n] == o && NameOk(m) && m !in l0.names
    requires o in l0.chains && o.Slot? && o.blk < |im0.blocks| && ENTRY_SIZE * o.idx + ENTRY_SIZE <= |im0.blocks[o.blk]|
    requires im == SetBlock(im0, o.blk, PutName(im0.blocks[o.blk], o.idx, m))
    requires l == l0.(names := (l0.names - {n})[m := o])
    ensures n in View(im0, l0) && Inv(im, l) && View(im, l) == (View(im0, l0) - {n})[m := View(im0, l0)[n]]
  {
    hide Struct, AllTight, Others, Flat, Tight, NameOk, Ceil, FreeCount, At, Read, OnlyEntry, Live, View;
    SlotRange(im0, l0, o);
    RenameEntry(im0, l0, o, n, m);
    var blk := PutName(im0.blocks[o.blk], o.idx, m);
    AtEdit(im0, o.blk, o.idx, blk);
    SlotOthers(im0, l0, im, l, o, blk);
    FlatDirectory(im0, l0, o.blk, blk);
    TightOf(im0, l0, o);
    OthersBs(im0, l0, im, l, o);
    TightOthers(im0, l0, im, l, o);
    ViewSize(im0, l0, n);
    ViewSize(im, l, m);
    ViewKeys(im, l);
    ViewKeys(im0, l0);
    forall k | k in l.names && k != m ensures k in View(im, l) && View(im, l)[k] == View(im0, l0)[k] {
      NameDiffer(im0, l0, k, n);
      ViewOthers(im0, l0, im, l, o, k);
    }
  }

  /** A pending chain that is empty asks nothing of the table. */
  lemma PendingNothing(f: seq<nat>, ch: Chains)
    requires Forest(f, ch) && Limbo !in ch
    ensures Forest(f, ch[Limbo := []])
  {
    forall x | 1 <= x < |f| && f[x] != 0 ensures Owned(ch[Limbo := []], x) {
      OwnedStill(f, ch, ch[Limbo := []], x);
    }
  }

  /** The directory has a free slot, and taking the first one cuts no directory block off. */
  ghost predicate Placeable(im: Image, l: Layout)
    requires Root in l.chains
  {
    && (exists d, i :: FirstVacant(im, l.chains[Root], d, i))
    && (forall d, i :: FirstVacant(im, l.chains[Root], d, i) && LastSlot(im, i) ==> d == |l.chains[Root]| - 1)
  }

  /** What add_root_entry means for the files, `pend` being the image it starts from:
      the one before, except that blocks of the new file may already be marked. */
  lemma PlaceOthers(im0: Image, l0: Layout, pend: Image, im: Image, d: nat, i: nat, x: int, name: seq<Byte>,
                    c: seq<nat>, index: nat, size: nat, kind: Byte, perm: Byte)
    requires Struct(im0, l0) && pend.bs == im0.bs && pend.blocks == im0.blocks
    requires EntryAdded(pend, im, l0.chains[Root], d, i, x, name, index, size, kind, perm)
    requires Slot(l0.chains[Root][d], i) !in l0.chains
    ensures var o := Slot(l0.chains[Root][d], i);
            var l := Placed(pend, l0, d, i, name, c, x);
            && Others(im0, l0, im, l, o) && l.names == l0.names[name := o]
            && o in l.chains && l.chains[o] == c && EntryOf(im, o).size == size % 4294967296
  {
    hide Struct, Others, Live, Flat;
    SlotsOfStruct(im0, l0);
    var b := l0.chains[Root][d];
    var o := Slot(b, i);
    var blk := Filled(im0.blocks[b], i, name, index, size, kind, perm);
    var l := Placed(pend, l0, d, i, name, c, x);
    AtEdit(im0, b, i, blk);
    SameAt(SetBlock(im0, b, blk), im);
    hide At, Read, OnlyEntry, Filled;
    SlotOthers(im0, l0, im, l, o, blk);
  }

  lemma NoneVacant(im: Image, dir: seq<nat>)
    requires forall e :: 0 <= e < |dir| ==> AllLive(im, dir[e], im.bs)
    ensures forall d, i :: !FirstVacant(im, dir, d, i)
  {
  }

  /** Only one slot is the first vacant one. */
  lemma FirstVacantUnique(im: Image, dir: seq<nat>, d: nat, i: nat, e: nat, j: nat)
    requires FirstVacant(im, dir, d, i) && FirstVacant(im, dir, e, j)
    ensures d == e && i == j
  {
    assert d < e ==> AllLive(im, dir[d], im.bs);
    assert e < d ==> AllLive(im, dir[e], im.bs);
  }

  lemma VacantIsNew(im: Image, l: Layout, d: nat, i: nat)
    requires Struct(im, l) && FirstVacant(im, l.chains[Root], d, i)
    ensures Slot(l.chains[Root][d], i) !in l.chains
  {
    hide Forest, FreeZero, Packed, Names, AllLive, Live;
  }

  /** The first free slot is the last one of a directory block that has a successor. */
  ghost predicate CutsOff(im: Image, l: Layout)
    requires Root in l.chains
  {
    exists d: nat, i: nat :: FirstVacant(im, l.chains[Root], d, i) && LastSlot(im, i) && d + 1 < |l.chains[Root]|
  }

  /** A file was created in free blocks and one directory block, and nothing else was touched. */
  ghost predicate CreatedOnly(im0: Image, l0: Layout, im: Image, l: Layout, o: Owner)
    requires Root in l0.chains && o in l.chains
  {
    && o !in l0.chains && o.Slot? && o.blk in l0.chains[Root] && l.chains == l0.chains[o := l.chains[o]]
    && |im.blocks| == |im0.blocks|
    && (forall x :: 0 <= x < |im.blocks| && x !in l.chains[o] && x != o.blk ==> im.blocks[x] == im0.blocks[x])
    && (forall x :: x in l.chains[o] ==> x in FreeSet(im0.fat))
  }

  lemma IsCreatedOnly(im0: Image, l0: Layout, pend: Image, d: int, i: nat, x: int, name: seq<Byte>, index: nat,
                      size: nat, k: Copy, im: Image, l: Layout)
    requires Struct(im0, l0) && Root in l0.chains && index in FreeSet(im0.fat)
    requires pend.fat == im0.fat[index := END] && pend.blocks == im0.blocks && !LastSlot(pend, i)
    requires EntryAdded(pend, k.im, l0.chains[Root], d, i, x, name, index, size, REGULAR, RDWR)
    requires k.l == Placed(pend, l0, d, i, name, [index], x) && k.dest == Slot(l0.chains[Root][d], i)
    requires k.dest !in l0.chains
    requires k.dest in l.chains && k.Tail(im, l)
    ensures CreatedOnly(im0, l0, im, l, k.dest)
  {
    hide Struct, FreeCount, At, Filled, NameOk, Take;
    var d0, c := k.l.chains[k.dest], l.chains[k.dest];
    assert d0 == [index] && k.l.chains == l0.chains[k.dest := [index]];
    assert Front(d0) == [];
    assert l.chains == l0.chains[k.dest := c];
    forall y | y in c ensures y in FreeSet(im0.fat) {
      if y !in d0 { assert y in FreeSet(k.im.fat); }
    }
  }

  /** A block marked for a file that has no entry yet is a chain in limbo. */
  lemma StartPending(im: Image, l: Layout, x: nat)
    requires Struct(im, l) && 1 <= x < |im.fat| && im.fat[x] == 0
    ensures Limbo !in l.chains
    ensures Frame(SetFat(im, im.fat[x := END]), l)
    ensures Forest(im.fat[x := END], l.chains[Limbo := [x]]) && FreeCount(im.fat[x := END]) == FreeCount(im.fat) - 1
  {
    hide Packed, Keys, Names, Forest, Shape, FreeZero, At, FreeCount;
    SlotsOfStruct(im, l);
    Start(im.fat, l.chains, Limbo, x);
    MarkShape(im, x);
    SameAt(im, SetFat(im, im.fat[x := END]));
    FrameKeep(im, SetFat(im, im.fat[x := END]), l, l);
  }

  /** The next new entry takes the last slot of a directory block. */
  ghost predicate FillsBlock(im: Image, l: Layout)
    requires Root in l.chains
  {
    exists d, i :: FirstVacant(im, l.chains[Root], d, i) && LastSlot(im, i)
  }

  /** Enough free blocks for a new file of `n` bytes; a directory block may be taken before
      its second block is. */
  ghost predicate RoomToCreate(im: Image, l: Layout, n: nat)
    requires Root in l.chains && im.bs > 0
  {
    && Ceil(n, im.bs) <= FreeCount(im.fat)
    && (FillsBlock(im, l) && 1 < Ceil(n, im.bs) ==> Ceil(n, im.bs) < FreeCount(im.fat))
  }

  lemma CeilOne(bs: nat)
    requires bs > 0
    ensures Ceil(1, bs) == 1
  {
  }

  /** The bytes of a new file are in place. */
  lemma CreateFinish(im0: Image, l0: Layout, k: Copy, im: Image, l: Layout, n: seq<Byte>, end: nat, data: seq<Byte>)
    requires Inv(im0, l0) && Others(im0, l0, k.im, k.l, k.dest) && n !in l0.names && k.l.names == l0.names[n := k.dest]
    requires Writing(k, im, l, end, data) && 0 < end && k.at == 0 && |k.l.chains[k.dest]| == 1
    requires EntryOf(k.im, k.dest).size == |data|
    ensures Inv(im, l) && View(im, l) == View(im0, l0)[n := data]
    ensures im.bs > 0 && FreeCount(im.fat) + Ceil(|data|, im.bs) == FreeCount(k.im.fat) + 1
  {
    hide Struct, AllTight, View, Flat, Ceil, Others, FreeCount, EntryOf, FreeSet;
    var c := k.l.chains[k.dest];
    NewPrefix(k);
    TailOthers(k, im, l);
    OthersTrans(im0, l0, k.im, k.l, im, l, k.dest);
    FrontFits(im, l, k.dest, end);
    CreateView(im0, l0, im, l, k.dest, n, data);
    TightCeil(l.chains[k.dest], |data|, im.bs);
  }

  /** The new file when the blocks run out: what fits is there, and the size field claims more. */
  lemma CreateFull(im0: Image, l0: Layout, k: Copy, im: Image, l: Layout, n: seq<Byte>, data: seq<Byte>)
    requires Inv(im0, l0) && Others(im0, l0, k.im, k.l, k.dest) && n !in l0.names && k.l.names == l0.names[n := k.dest]
    requires Writing(k, im, l, im.bs, data) && k.at == 0 && |k.l.chains[k.dest]| == 1
    requires EntryOf(k.im, k.dest).size > |data|
    ensures Struct(im, l) && !AllTight(im, l) && View(im, l) == View(im0, l0)[n := data]
  {
    hide Struct, AllTight, View, Flat, Ceil, Others, FreeCount, EntryOf, FreeSet;
    NewPrefix(k);
    TailOthers(k, im, l);
    OthersTrans(im0, l0, k.im, k.l, im, l, k.dest);
    Overfull(im, l, n, k.dest, data);
    OneNew(im0, l0, im, l, k.dest, n);
  }

  /** The new file when there is no input: its block stays with it. */
  lemma CreateHollow(im0: Image, l0: Layout, im: Image, l: Layout, o: Owner, n: seq<Byte>)
    requires Inv(im0, l0) && Others(im0, l0, im, l, o) && n !in l0.names && l.names == l0.names[n := o]
    requires Struct(im, l) && o in l.chains && l.chains[o] != [] && EntryOf(im, o).size == 0
    ensures !AllTight(im, l) && View(im, l) == View(im0, l0)[n := []]
  {
    hide Struct, AllTight, View, Flat, Others, EntryOf;
    Hollow(im, l, n, o);
    OneNew(im0, l0, im, l, o, n);
  }

  lemma NewPrefix(k: Copy)
    requires k.Begun() && k.at == 0 && |k.l.chains[k.dest]| == 1
    ensures Prefix(k.im.blocks, k.l.chains[k.dest], 0) == []
  {
    hide Struct, Flat;
    var c := k.l.chains[k.dest];
    assert Front(c) == [] && Take(BlockAt(k.im.blocks, Last(c)), 0) == [];
    FlatNothing(k.im.blocks);
  }

  /** The bytes a new file can take; its entry may use up a directory block and take another. */
  ghost function SpaceToCreate(im: Image, l: Layout): nat
    requires Root in l.chains
  {
    im.bs * if FillsBlock(im, l) && 1 < FreeCount(im.fat) then FreeCount(im.fat) - 1 else FreeCount(im.fat)
  }

  /** A new file's entry and its first block `index` are there, nothing is written yet. */
  ghost predicate Started(k: Copy, im0: Image, l0: Layout, name: seq<Byte>, index: nat, size: nat) {
    && Inv(im0, l0) && k.Begun() && k.at == 0 && k.l.chains[k.dest] == [index]
    && Others(im0, l0, k.im, k.l, k.dest) && name !in l0.names && k.l.names == l0.names[name := k.dest]
    && EntryOf(k.im, k.dest).size == size
  }

  /** Every chain is as it was, and so are all bytes on it, the directory's included. */
  ghost predicate Untouched(im0: Image, l0: Layout, im: Image) {
    && |im.fat| == |im0.fat| && |im.blocks| == |im0.blocks|
    && (forall q, x :: q in l0.chains && x in l0.chains[q] && x < |im.fat| ==> im.fat[x] == im0.fat[x])
    && (forall q, x :: q in l0.chains && x in l0.chains[q] && x < |im.blocks| ==> im.blocks[x] == im0.blocks[x])
  }

  /** The layout a write loop leaves behind. */
  ghost predicate Kept(k: Copy, im: Image, l: Layout) {
    k.Begun() && Struct(im, l) && k.dest in l.chains && k.Tail(im, l) && l.names == k.l.names && im.bs == k.im.bs
  }

  /** What the write loop of a new file does to the files. */
  ghost predicate Written(im0: Image, l0: Layout, im: Image, l: Layout, free: nat, name: seq<Byte>, data: seq<Byte>,
                          r: int)
    requires im.bs > 0
  {
    var space := im.bs + im.bs * free;
    && r == (if |data| <= space then 0 else -1)
    && View(im, l) == View(im0, l0)[name := Take(data, space)]
    && (AllTight(im, l) <==> r == 0 && data != [])
    && FreeCount(im.fat) == if r == -1 then 0 else free + 1 - BlocksFor(|data|, im.bs)
  }

  /** The blocks of a new file of `n` bytes; it has one even without input. */
  function BlocksFor(n: nat, bs: nat): nat
    requires bs > 0
  {
    if n == 0 then 1 else Ceil(n, bs)
  }

  /** What do_cat_overwrite does to a name that does not exist: the input, or as much of it as there is
      space for, becomes a file; it is tight only if there was input and all of it fits. */
  ghost predicate CreateOutcome(im0: Image, l0: Layout, im: Image, l: Layout, name: seq<Byte>, data: seq<Byte>, r: int)
    requires Root in l0.chains && im0.bs > 0
  {
    var free, more := FreeCount(im0.fat), if FillsBlock(im0, l0) && 1 < FreeCount(im0.fat) then 1 else 0;
    && r == (if free > 0 && RoomToCreate(im0, l0, |data|) then 0 else -1)
    && if free == 0 then im == im0 && l == l0
       else
         && Struct(im, l) && (AllTight(im, l) <==> r == 0 && data != []) && im.bs == im0.bs
         && View(im, l) == View(im0, l0)[name := Take(data, SpaceToCreate(im0, l0))]
         && (r == 0 <==> |data| <= SpaceToCreate(im0, l0))
         && FreeCount(im.fat) == (if r == -1 then 0 else free - more - BlocksFor(|data|, im0.bs))
         && name in l.names && l.names[name] in l.chains
         && (!FillsBlock(im0, l0) ==> CreatedOnly(im0, l0, im, l, l.names[name]))
  }

  /** What it does when a block is free but add_root_entry finds no vacant slot, or only one that cuts off a
      directory block: the bytes are written and 0 is returned as if all was well, but no layout fits the
      result. Without a vacant slot the file does not exist, and its blocks are lost. */
  ghost predicate CreateLost(im0: Image, l0: Layout, im: Image, data: seq<Byte>, r: int)
    requires Root in l0.chains && im0.bs > 0
  {
    var free, more := FreeCount(im0.fat), if FillsBlock(im0, l0) && 1 < FreeCount(im0.fat) then 1 else 0;
    && r == (if |data| <= SpaceToCreate(im0, l0) then 0 else -1)
    && FreeCount(im.fat) == (if r == -1 then 0 else free - more - BlocksFor(|data|, im0.bs))
    && (forall l :: !Struct(im, l))
    && ((forall d, i :: !FirstVacant(im0, l0.chains[Root], d, i)) ==> Untouched(im0, l0, im))
  }

  /** How much of the input a new chain takes, and the blocks that leaves. */
  lemma NewChain(p: Spot, im: Image, c: seq<nat>, end: nat, data: seq<Byte>, n: nat, ok: bool)
    requires Poured(p, im, c, end, data) && |p.chain| == 1 && Chain(p.im.fat, p.chain) && p.at == 0 && p.im.bs > 0
    requires |data| <= n && (ok <==> |data| == n) && (n > 0 ==> 0 < end)
    requires !ok ==> end == im.bs && FreeCount(im.fat) == 0
    ensures ok <==> n <= p.im.bs + p.im.bs * FreeCount(p.im.fat)
    ensures FreeCount(im.fat) == if ok then FreeCount(p.im.fat) + 1 - BlocksFor(n, p.im.bs) else 0
  {
    hide Prefix, Take, Chain, Beside, Ceil, FreeCount;
    PourRoom(p, im, c, end, data);
    PourLast(p, im, c, end, data);
    MulMono(0, FreeCount(im.fat), im.bs);
    if ok {
      if n == 0 {
        if |c| > 1 { MulMono(1, |c| - 1, im.bs); }
      } else {
        TightCeil(c, n, im.bs);
      }
    }
  }

  lemma CreateDone(im0: Image, l0: Layout, k: Copy, im: Image, l: Layout, name: seq<Byte>, data: seq<Byte>, r: int)
    requires Root in l0.chains && im0.bs > 0 && FreeCount(im0.fat) > 0 && k.im.bs == im0.bs == im.bs
    requires Kept(k, im, l) && Written(im0, l0, im, l, FreeCount(k.im.fat), name, data, r)
    requires k.l.names == l0.names[name := k.dest]
    requires FreeCount(k.im.fat) + 1 ==
             if FillsBlock(im0, l0) && 1 < FreeCount(im0.fat) then FreeCount(im0.fat) - 1 else FreeCount(im0.fat)
    requires !FillsBlock(im0, l0) ==> k.dest in l.chains && CreatedOnly(im0, l0, im, l, k.dest)
    ensures CreateOutcome(im0, l0, im, l, name, data, r)
  {
    hide Struct, View, AllTight, FreeCount, Ceil, RoomToCreate, FillsBlock, CreatedOnly, Take, BlocksFor, At;
    CreateFitsIff(im0, l0, |data|);
    RoomSplit(im0.bs, 1, FreeCount(k.im.fat));
  }

  lemma CreateFitsIff(im: Image, l: Layout, n: nat)
    requires im.bs > 0 && Root in l.chains && FreeCount(im.fat) > 0
    ensures RoomToCreate(im, l, n) <==> n <= SpaceToCreate(im, l)
  {
    hide FillsBlock, FreeCount, Ceil;
    var f := FreeCount(im.fat);
    CeilIff(n, im.bs, f);
    CeilIff(n, im.bs, f - 1);
    CeilIff(n, im.bs, 1);
  }

  lemma FlatNothing(a: seq<seq<Byte>>)
    ensures Flat(a, []) == []
  {
  }

  /** The slot add_root_entry found, in terms of the image before the file's first block was marked. */
  lemma VacancyFound(im: Image, pend: Image, l: Layout, d: int, i: nat)
    requires Root in l.chains && pend.blocks == im.blocks && pend.bs == im.bs
    requires d == -1 ==> forall e :: 0 <= e < |l.chains[Root]| ==> AllLive(pend, l.chains[Root][e], pend.bs)
    requires d != -1 ==> 0 <= d && FirstVacant(pend, l.chains[Root], d, i)
    ensures d == -1 <==> forall e, j :: !FirstVacant(im, l.chains[Root], e, j)
    ensures d != -1 ==> FirstVacant(im, l.chains[Root], d, i)
    ensures Placeable(im, l) <==> d != -1 && (LastSlot(im, i) ==> d == |l.chains[Root]| - 1)
    ensures (FillsBlock(im, l) <==> d != -1 && LastSlot(im, i)) && (LastSlot(pend, i) <==> LastSlot(im, i))
  {
    hide FirstVacant, AllLive;
    var dir := l.chains[Root];
    if d == -1 {
      NoneVacant(pend, dir);
      forall e, j ensures !FirstVacant(im, dir, e, j) {
        if FirstVacant(im, dir, e, j) { SameVacant(im, pend, dir, e, j); }
      }
    } else {
      SameVacant(pend, im, dir, d, i);
      forall e, j | FirstVacant(im, dir, e, j) ensures d == e && i == j {
        FirstVacantUnique(im, dir, d, i, e, j);
      }
    }
  }

  lemma SameVacant(im: Image, im': Image, dir: seq<nat>, d: nat, i: nat)
    requires im.blocks == im'.blocks && im.bs == im'.bs && FirstVacant(im, dir, d, i)
    ensures FirstVacant(im', dir, d, i)
  {
    SameAt(im, im');
  }

  /** A directory block was taken exactly when one was left. */
  lemma GrewIff(pend: Image, im: Image, dir: seq<nat>, d: int, i: nat, x: int, name: seq<Byte>, index: nat, size: nat)
    requires EntryAdded(pend, im, dir, d, i, x, name, index, size, REGULAR, RDWR) && LastSlot(pend, i)
    ensures x != -1 <==> 0 < FreeCount(pend.fat)
  {
    hide Filled, NameOk, Relinked;
  }

  lemma FreeIff(f: seq<nat>, x: int)
    ensures FreeSet(f) == {} ==> FreeCount(f) == 0
    ensures 1 <= x < |f| && f[x] == 0 ==> 0 < FreeCount(f)
  {
    if 1 <= x < |f| && f[x] == 0 {
      assert x in FreeSet(f);
    }
  }

  // ---- images no layout fits -----------------------------------------------

  /** A live entry whose first block is free fits no layout. */
  lemma Dangling(im: Image, dir: seq<nat>, o: Owner, l: Layout)
    requires Chain(im.fat, dir) && dir != [] && dir[0] == 1 && o.Slot? && o.blk in dir && Live(EntryOf(im, o))
    requires var h := EntryOf(im, o).first; h != 0 && (h < |im.fat| ==> im.fat[h] == 0)
    ensures !Struct(im, l)
  {
    if Struct(im, l) {
      RootIs(im, l, dir);
      LiveSlot(im, l, o.blk, o.idx);
      SlotRange(im, l, o);
      Member(im.fat, l.chains, o, EntryOf(im, o).first);
    }
  }

  /** The table alone determines the directory chain. */
  lemma RootIs(im: Image, l: Layout, dir: seq<nat>)
    requires Struct(im, l) && Chain(im.fat, dir) && dir != [] && dir[0] == 1
    ensures l.chains[Root] == dir
  {
    ChainUnique(im.fat, l.chains[Root], dir);
  }

  /** Rewriting an entry with what it already says changes nothing for users. */
  lemma EditSame(im: Image, l: Layout, o: Owner, blk: seq<Byte>)
    requires Inv(im, l) && o in l.chains && o.Slot? && o.blk < |im.blocks| && |blk| == im.bs
    requires ENTRY_SIZE * o.idx + ENTRY_SIZE <= |im.blocks[o.blk]|
    requires OnlyEntry(im.blocks[o.blk], blk, o.idx) && Read(blk, o.idx) == EntryOf(im, o)
    ensures Inv(SetBlock(im, o.blk, blk), l) && View(SetBlock(im, o.blk, blk), l) == View(im, l)
  {
    hide Struct, Flat, NameOk, View, OnlyEntry, AllTight, At, Read, Others, Live;
    var im' := SetBlock(im, o.blk, blk);
    SlotRange(im, l, o);
    var n := EntryOf(im, o).name;
    ViewSize(im, l, n);
    EditEntry(im, l, o, blk);
    AtEdit(im, o.blk, o.idx, blk);
    SlotOthers(im, l, im', l, o, blk);
    TightOf(im, l, o);
    TightOthers(im, l, im', l, o);
    FlatDirectory(im, l, o.blk, blk);
    ViewSize(im', l, n);
    OneChanged(im, l, im', l, o, n);
  }

  /** do_mv on one name: do_rm, then the name is written back. */
  lemma MoveToItself(im0: Image, l0: Layout, im1: Image, n: seq<Byte>, o: Owner, c: seq<nat>, im: Image)
    requires Inv(im0, l0) && n in l0.names && o == l0.names[n] && o in l0.chains && o.Slot? && c == l0.chains[o]
    requires NameOk(n)
    requires ENTRY_SIZE * o.idx + ENTRY_SIZE <= im0.bs && RemovedFrom(im0, im1, o, c)
    requires o.blk < |im1.blocks| && ENTRY_SIZE * o.idx + ENTRY_SIZE <= |im1.blocks[o.blk]|
    requires im == SetBlock(im1, o.blk, PutName(im1.blocks[o.blk], o.idx, n))
    ensures c == [] ==> Inv(im, l0) && View(im, l0) == View(im0, l0)
    ensures c != [] ==> forall l :: !Struct(im, l)
  {
    hide Struct, Flat, View, AllTight, Live, Names, Packed, FreeZero;
    SlotRange(im0, l0, o);
    ChainBlocks(im0, l0, o);
    NameSlot(im0, l0, n) by { StructNames(im0, l0); }
    MovedBlock(im0, l0, im1, o, c);
    var blk := PutName(im1.blocks[o.blk], o.idx, n);
    var marked := MarkDeleted(im0.blocks[o.blk], o.idx);
    AtRead(im0, o.blk, o.idx);
    MarkIs(im0.blocks[o.blk], o.idx, n);
    if c == [] {
      assert OnlyEntry(im0.blocks[o.blk], blk, o.idx);
      EditSame(im0, l0, o, blk);
      assert im1.blocks == im0.blocks[o.blk := marked];
      assert im1.fat == im0.fat;
      assert im == SetBlock(im0, o.blk, blk);
    } else {
      StructRoot(im0, l0);
      var dir := l0.chains[Root];
      ChainFrame(im0.fat, im.fat, dir) by { ChainBlocks(im0, l0, Root); SlotsOfStruct(im0, l0); }
      AtRead(im, o.blk, o.idx);
      LiveMark(n, blk, o.idx);
      assert EntryOf(im, o).first == Head(c);
      assert Head(c) in c;
      forall l ensures !Struct(im, l) {
        Dangling(im, dir, o, l);
      }
    }
  }

  lemma StructNames(im: Image, l: Layout)
    requires Struct(im, l)
    ensures Names(im, l)
  {
  }

  lemma StructRoot(im: Image, l: Layout)
    requires Struct(im, l)
    ensures Root in l.chains && l.chains[Root] != [] && l.chains[Root][0] == 1 && Chain(im.fat, l.chains[Root])
  {
  }

  lemma MarkIs(b: seq<Byte>, i: nat, n: seq<Byte>)
    requires ENTRY_SIZE * i + ENTRY_SIZE <= |b| && NameOk(n) && Read(b, i).name == n
    ensures Read(b, i).mark == n[0]
  {
  }

  lemma MovedBlock(im: Image, l: Layout, im': Image, o: Owner, c: seq<nat>)
    requires Struct(im, l) && o in l.chains && o.Slot? && c == l.chains[o] && ENTRY_SIZE * o.idx + ENTRY_SIZE <= im.bs
    requires RemovedFrom(im, im', o, c)
    ensures o.blk < |im.blocks| == |im'.blocks| && |im.blocks[o.blk]| == im.bs
    ensures im'.blocks[o.blk] == MarkDeleted(im.blocks[o.blk], o.idx)
    ensures im'.bs == im.bs && im'.fat == Clear(im.fat, c)
    ensures c == [] ==> im'.blocks == im.blocks[o.blk := MarkDeleted(im.blocks[o.blk], o.idx)]
  {
    hide Packed, Keys, Names, FreeZero, Forest, Live, At;
    SlotRange(im, l, o);
  }

  /** The table after the link of the d-th directory block was overwritten. */
  lemma CutTable(f: seq<nat>, ch: Chains, d: nat, x: int)
    requires Forest(f, ch) && Root in ch && d + 1 < |ch[Root]| && (x == -1 || (1 <= x < |f| && f[x] == 0))
    ensures ch[Root][d] < |f| && ch[Root][d + 1] < |f|
    ensures var dir := ch[Root];
            var g := Relinked(f, dir[d], x);
            && g[dir[d + 1]] != 0 && |g| == |f|
            && Chain(g, if x == -1 then dir[..d + 1] else dir[..d + 1] + [x])
            && dir[d + 1] !in dir[..d + 1] && dir[d + 1] != x
            && forall o :: o in ch && o != Root ==> Chain(g, ch[o]) && dir[d + 1] !in ch[o]
  {
    var dir := ch[Root];
    assert Chain(f, dir) && dir[d] in dir && dir[d + 1] in dir;
    ChainCells(f, ch, Root);
    if x != -1 { FreeUnowned(f, ch, x); }
    var g := Relinked(f, dir[d], x);
    CutChain(f, dir, d, x);
    forall o | o in ch && o != Root ensures Chain(g, ch[o]) {
      ChainFrame(f, g, ch[o]);
    }
  }

  lemma CutChain(f: seq<nat>, dir: seq<nat>, d: nat, x: int)
    requires Chain(f, dir) && |f| <= END && d < |dir| && (x == -1 || (1 <= x < |f| && f[x] == 0 && x !in dir))
    ensures dir[d] < |f|
    ensures Chain(Relinked(f, dir[d], x), if x == -1 then dir[..d + 1] else dir[..d + 1] + [x])
  {
    var e := dir[..d + 1];
    var f1: seq<nat> := f[dir[d] := END];
    CutPrefix(f, dir, d);
    if x != -1 {
      assert x !in e;
      ChainExtend(f1, e, x);
      assert f1[x := END][dir[d] := x] == Relinked(f, dir[d], x);
    }
  }

  lemma CutPrefix(f: seq<nat>, dir: seq<nat>, d: nat)
    requires Chain(f, dir) && |f| <= END && d < |dir|
    ensures dir[d] < |f| && Chain(f[dir[d] := END], dir[..d + 1])
  {
    var g, e := f[dir[d] := END], dir[..d + 1];
    forall i | 0 <= i < |e| ensures g[e[i]] == Next(e, i) {
      if i < d {
        assert f[dir[i]] == Next(dir, i);
      }
    }
  }

  lemma SameHead(im: Image, l: Layout, o: Owner, c: seq<nat>)
    requires Struct(im, l) && o in l.chains && o.Slot? && Chain(im.fat, c) && EntryOf(im, o).first == Head(c)
    ensures l.chains[o] == c
  {
    hide Struct, Chain, Head, EntryOf;
    SlotRange(im, l, o);
    ChainBlocks(im, l, o);
    ChainUnique(im.fat, l.chains[o], c);
  }

  /** Some chain from `h` misses block `y`. */
  ghost predicate Misses(f: seq<nat>, h: nat, y: nat) {
    exists c :: Chain(f, c) && Head(c) == h && y !in c
  }

  /** A used block that no chain of the directory or of an entry holds is lost: no layout fits. */
  lemma Leaked(im: Image, dir: seq<nat>, y: nat, l: Layout)
    requires Chain(im.fat, dir) && dir != [] && dir[0] == 1 && 1 <= y < |im.fat| && im.fat[y] != 0 && y !in dir
    requires forall b, i :: b in dir && Live(At(im, b, i)) ==> Misses(im.fat, At(im, b, i).first, y)
    ensures !Struct(im, l)
  {
    hide Struct, Chain, At, Live, Head;
    if Struct(im, l) {
      RootIs(im, l, dir);
      forall o | o in l.chains ensures y !in l.chains[o] {
        SlotsOfStruct(im, l);
        if o.Slot? {
          SlotRange(im, l, o);
          assert o == Slot(o.blk, o.idx) && Live(At(im, o.blk, o.idx));
          var c :| Chain(im.fat, c) && Head(c) == At(im, o.blk, o.idx).first && y !in c;
          SameHead(im, l, o, c);
        }
      }
      NotOwned(im, l, y);
    }
  }

  /** Bytes written to the chain of an entry: from `c` it grew to `e`, and nothing beside it changed. */
  ghost predicate Pours(ent: Image, c: seq<nat>, im: Image, e: seq<nat>) {
    Beside(Spot(ent, c, 0), im, e) && Chain(im.fat, e) && Head(e) == Head(c)
  }

  /** The entry of an old file still leads to its chain, which holds no lost block. */
  lemma OldMisses(im0: Image, l0: Layout, ent: Image, c: seq<nat>, im: Image, e: seq<nat>, b: nat, i: nat, y: nat)
    requires Struct(im0, l0) && b in l0.chains[Root] && Live(At(im0, b, i)) && Pours(ent, c, im, e)
    requires forall p :: p in l0.chains && p != Root ==>
               Chain(ent.fat, l0.chains[p]) && y !in l0.chains[p] && forall x :: x in l0.chains[p] ==> x !in c
    ensures Misses(im.fat, At(im0, b, i).first, y)
  {
    hide Struct, Chain, At, Head, Beside, Live;
    LiveSlot(im0, l0, b, i);
    SlotRange(im0, l0, Slot(b, i));
    ApartChain(Spot(ent, c, 0), im, e, l0.chains[Slot(b, i)]);
  }

  /** Overwriting the link of a directory block that has a successor loses the successor:
      its cell stays in use, but no chain of any layout can hold it, whatever is then written to the new file. */
  lemma CutOff(im0: Image, l0: Layout, pend: Image, c: seq<nat>, ent: Image, d: int, i: nat, x: int, name: seq<Byte>,
               index: nat, size: nat, im: Image, e: seq<nat>, l: Layout)
    requires Struct(im0, l0) && pend.blocks == im0.blocks && pend.bs == im0.bs
    requires Forest(pend.fat, l0.chains[Limbo := c]) && index == Head(c)
    requires forall y :: 1 <= y < |pend.fat| && pend.fat[y] == 0 ==> |im0.fat| == |pend.fat| && im0.fat[y] == 0
    requires EntryAdded(pend, ent, l0.chains[Root], d, i, x, name, index, size, REGULAR, RDWR)
    requires LastSlot(pend, i) && d + 1 < |l0.chains[Root]| && Pours(ent, c, im, e)
    ensures !Struct(im, l)
  {
    hide Struct, Forest, FreeZero, At, Filled, NameOk, OnlyEntry, Relinked, Chain, LastSlot, FirstVacant, AllLive,
         Live, Read, Shape, Beside;
    StructRoot(im0, l0);
    var ch := l0.chains[Limbo := c];
    var dir := l0.chains[Root];
    var y := dir[d + 1];
    CutTable(pend.fat, ch, d, x);
    assert 0 <= d && ent.fat == Relinked(pend.fat, dir[d], x);
    CutEntry(im0, l0, pend, c, ent, d, i, x, name, index, size);
    hide EntryAdded;
    HeadFits(pend.fat, ch, Limbo);
    SlotsOfStruct(im0, l0);
    var newDir := if x == -1 then dir[..d + 1] else dir[..d + 1] + [x];
    CutApart(pend.fat, l0.chains, c, d, x);
    ApartChain(Spot(ent, c, 0), im, e, newDir);
    LostCell(ent, c, im, e, y);
    assert forall p :: p in l0.chains ==> p in ch && ch[p] == l0.chains[p];
    hide Pours, Head, Misses;
    forall b, j | b in newDir && Live(At(im, b, j)) ensures Misses(im.fat, At(im, b, j).first, y) {
      CutMisses(im0, l0, ent, c, im, e, d, i, x, index, y, b, j);
    }
    Leaked(im, newDir, y, l);
  }

  /** Each entry in front of the cut leads to a chain without the lost block. */
  lemma CutMisses(im0: Image, l0: Layout, ent: Image, c: seq<nat>, im: Image, e: seq<nat>, d: nat, i: nat, x: int,
                  index: nat, y: nat, b: nat, j: nat)
    requires Struct(im0, l0) && Root in l0.chains && d < |l0.chains[Root]| && Live(At(im, b, j))
    requires var dir := l0.chains[Root]; b in (if x == -1 then dir[..d + 1] else dir[..d + 1] + [x])
    requires Pours(ent, c, im, e) && y !in e && index == Head(c) && |im.blocks| == |ent.blocks|
    requires b < |im.blocks| ==> im.blocks[b] == ent.blocks[b]
    requires forall a, k :: a != l0.chains[Root][d] || k != i ==> At(ent, a, k) == At(im0, a, k)
    requires At(ent, l0.chains[Root][d], i).first == index
    requires x != -1 ==> l0.chains[Root][d] != x && forall k :: 0 <= x ==> At(im0, x, k).mark == 0
    requires forall p :: p in l0.chains && p != Root ==>
               Chain(ent.fat, l0.chains[p]) && y !in l0.chains[p] && forall z :: z in l0.chains[p] ==> z !in c
    ensures Misses(im.fat, At(im, b, j).first, y)
  {
    hide Struct, Chain, At, Live, Beside, Head;
    SameBlock(ent, im, b, j);
    if b != l0.chains[Root][d] || j != i {
      CutLive(im0, ent, l0.chains[Root], d, x, b, j);
      OldMisses(im0, l0, ent, c, im, e, b, j, y);
    }
  }

  /** Where the live slots behind the cut come from. */
  lemma CutLive(im0: Image, ent: Image, dir: seq<nat>, d: nat, x: int, b: nat, j: nat)
    requires d < |dir| && b in (if x == -1 then dir[..d + 1] else dir[..d + 1] + [x]) && Live(At(ent, b, j))
    requires At(ent, b, j) == At(im0, b, j) && (x != -1 ==> forall k :: 0 <= x ==> At(im0, x, k).mark == 0)
    ensures b in dir
  {
    hide At;
  }

  lemma SameBlock(im: Image, im': Image, b: nat, i: nat)
    requires |im.blocks| == |im'.blocks| && (b < |im.blocks| ==> im'.blocks[b] == im.blocks[b])
    ensures At(im', b, i) == At(im, b, i)
  {
  }

  /** A used block outside the entry's chain is not touched by what is written to it. */
  lemma LostCell(ent: Image, c: seq<nat>, im: Image, e: seq<nat>, y: nat)
    requires Pours(ent, c, im, e) && y < |ent.fat| && ent.fat[y] != 0 && y !in c
    ensures |im.fat| == |ent.fat| && |im.blocks| == |ent.blocks| && im.fat[y] == ent.fat[y] && y !in e
  {
  }

  /** The chain of the new entry lies apart from the directory and from every file. */
  lemma CutApart(f: seq<nat>, chains: Chains, c: seq<nat>, d: nat, x: int)
    requires Forest(f, chains[Limbo := c]) && Root in chains && d < |chains[Root]| && Limbo !in chains
    requires x == -1 || (0 <= x < |f| && f[x] == 0)
    ensures forall p, z :: p in chains && z in chains[p] ==> z !in c
    ensures forall z :: z in chains[Root][..d + 1] ==> z !in c
    ensures x != -1 ==> x !in c
  {
    var ch := chains[Limbo := c];
    assert Chain(f, ch[Limbo]);
    if x != -1 { FreshCell(f, c, x); }
    forall p, z | p in chains && z in chains[p] ensures z !in c {
      assert ch[p] == chains[p] && ch[Limbo] == c;
    }
  }

  /** A file created while no slot is vacant: its blocks are in use, but it has no entry. */
  lemma NoEntry(im0: Image, l0: Layout, p: Spot, im: Image, c: seq<nat>, index: nat, end: nat, data: seq<Byte>,
                l: Layout)
    requires Struct(im0, l0) && 1 <= index < |im0.fat| && im0.fat[index] == 0
    requires p == Spot(SetFat(im0, im0.fat[index := END]), [index], 0) && Poured(p, im, c, end, data)
    ensures !Struct(im, l) && Untouched(im0, l0, im)
  {
    hide Struct, Chain, At, Live, Head, Forest, Frame, Prefix, Take, FreeCount;
    StructRoot(im0, l0);
    SlotsOfStruct(im0, l0);
    StartPending(im0, l0, index);
    var dir, ch := l0.chains[Root], l0.chains[Limbo := [index]];
    FreeSlots(im0, l0, index);
    forall q | q in l0.chains
      ensures Chain(im.fat, l0.chains[q]) && index !in l0.chains[q]
      ensures forall x :: x in l0.chains[q] ==> x < |im.fat| == |im0.fat| && im.fat[x] == im0.fat[x]
      ensures forall x :: x in l0.chains[q] && x < |im.blocks| ==> im.blocks[x] == im0.blocks[x]
    {
      assert ch[q] == l0.chains[q] && ch[Limbo] == [index];
      FreeOff(im0, l0, index, q);
      BesideChain(p, im, c, ch, Limbo, q);
    }
    HeadUsed(p, im, c, end, data);
    forall b, i | b in dir && Live(At(im, b, i)) ensures Misses(im.fat, At(im, b, i).first, index) {
      SameBlock(im0, im, b, i);
      LiveSlot(im0, l0, b, i);
      SlotRange(im0, l0, Slot(b, i));
      assert Chain(im.fat, l0.chains[Slot(b, i)]);
    }
    Leaked(im, dir, index, l);
  }

  lemma FreeOff(im: Image, l: Layout, x: nat, q: Owner)
    requires Struct(im, l) && 1 <= x < |im.fat| && im.fat[x] == 0 && q in l.chains
    ensures x !in l.chains[q]
  {
    FreeUnowned(im.fat, l.chains, x);
  }

  lemma HeadUsed(p: Spot, im: Image, c: seq<nat>, end: nat, data: seq<Byte>)
    requires Poured(p, im, c, end, data)
    ensures c != [] && c[0] == p.chain[0] && 1 <= c[0] < |im.fat| && im.fat[c[0]] != 0
    ensures |im.blocks| == |p.im.blocks|
  {
    hide Prefix, Take, FreeCount;
    assert im.fat[c[0]] == Next(c, 0);
  }

  lemma NotOwned(im: Image, l: Layout, y: nat)
    requires Struct(im, l) && 1 <= y < |im.fat| && im.fat[y] != 0
    ensures exists o :: o in l.chains && y in l.chains[o]
  {
    OwnedExactly(im.fat, l.chains, y);
  }

  /** The slots of the image after the new entry was written. */
  lemma CutEntry(im0: Image, l0: Layout, pend: Image, c: seq<nat>, im: Image, d: int, i: nat, x: int, name: seq<Byte>,
                 index: nat, size: nat)
    requires Struct(im0, l0) && pend.blocks == im0.blocks && pend.bs == im0.bs
    requires forall y :: 1 <= y < |pend.fat| && pend.fat[y] == 0 ==> |im0.fat| == |pend.fat| && im0.fat[y] == 0
    requires EntryAdded(pend, im, l0.chains[Root], d, i, x, name, index, size, REGULAR, RDWR)
    requires LastSlot(pend, i)
    ensures var b := l0.chains[Root][d];
            && (forall a, j :: a != b || j != i ==> At(im, a, j) == At(im0, a, j))
            && EntryOf(im, Slot(b, i)).first == index % 65536
            && (x != -1 ==> b != x && forall j :: 0 <= x ==> At(im0, x, j).mark == 0)
  {
    hide Struct, Relinked;
    SlotsOfStruct(im0, l0);
    var b := l0.chains[Root][d];
    var blk := Filled(im0.blocks[b], i, name, index, size, REGULAR, RDWR);
    AtEdit(im0, b, i, blk);
    SameAt(SetBlock(im0, b, blk), im);
    if x != -1 {
      FreeSlots(im0, l0, x);
    }
  }

  lemma FreeSlots(im: Image, l: Layout, x: nat)
    requires Struct(im, l) && 1 <= x < |im.fat| && im.fat[x] == 0
    ensures forall j :: At(im, x, j).mark == 0
    ensures x !in l.chains[Root]
  {
    FreeUnowned(im.fat, l.chains, x);
    ZeroSlots(im, x);
  }

  // ---- the layout is a function of the image -------------------------------

  lemma SameSlotChain(im: Image, l: Layout, m: Layout, o: Owner)
    requires Struct(im, l) && Struct(im, m) && l.chains[Root] == m.chains[Root] && o in l.chains && o.Slot?
    ensures o in m.chains && l.chains[o] == m.chains[o]
  {
    hide Packed, Names, FreeZero;
    SlotRange(im, l, o);
    LiveSlot(im, m, o.blk, o.idx);
    SlotRange(im, m, o);
    ChainUnique(im.fat, l.chains[o], m.chains[o]);
  }

  lemma SameNames(im: Image, l: Layout, m: Layout, n: seq<Byte>)
    requires Struct(im, l) && Struct(im, m) && l.chains == m.chains && n in l.names
    ensures n in m.names && m.names[n] == l.names[n]
  {
    hide Packed, Keys, FreeZero, Forest;
    NameSlot(im, l, n);
    SlotRange(im, m, l.names[n]);
  }

  /** The bytes on disk leave no choice: no two layouts fit one image. */
  lemma LayoutUnique(im: Image, l: Layout, m: Layout)
    requires Struct(im, l) && Struct(im, m)
    ensures l.chains == m.chains && l.names == m.names && View(im, l) == View(im, m)
  {
    hide Struct, View;
    StructRoot(im, l);
    StructRoot(im, m);
    RootIs(im, l, m.chains[Root]);
    SlotsOfStruct(im, l);
    SlotsOfStruct(im, m);
    forall o | o in l.chains ensures o in m.chains && m.chains[o] == l.chains[o] {
      if o.Slot? { SameSlotChain(im, l, m, o); }
    }
    forall o | o in m.chains ensures o in l.chains {
      if o.Slot? { SameSlotChain(im, m, l, o); }
    }
    forall n | n in l.names ensures n in m.names && m.names[n] == l.names[n] { SameNames(im, l, m, n); }
    forall n | n in m.names ensures n in l.names { SameNames(im, m, l, n); }
    SameView(im, l, m);
  }

  lemma SameView(im: Image, l: Layout, m: Layout)
    requires l.chains == m.chains && l.names == m.names
    ensures View(im, l) == View(im, m)
  {
  }

  /** Creating a file and removing it leaves the table and every block outside the
      directory as they were. */
  lemma CreateRemoveIdentity(im0: Image, l0: Layout, im1: Image, l1: Layout, im2: Image, l2: Layout, o: Owner,
                             c: seq<nat>)
    requires Struct(im0, l0) && Struct(im2, l2) && Root in l0.chains && o in l1.chains && c == l1.chains[o]
    requires CreatedOnly(im0, l0, im1, l1, o) && l2.chains == l1.chains - {o} && |im2.fat| == |im0.fat|
    requires im2.bs == im0.bs && im2.fat[0] / 256 == im0.fat[0] / 256
    requires |im2.blocks| == |im1.blocks| && forall x :: 0 <= x < |im2.blocks| && x in c ==> Zero(im2.blocks[x])
    requires forall x :: 0 <= x < |im2.blocks| && x !in c && x != o.blk ==> im2.blocks[x] == im1.blocks[x]
    ensures im2.fat == im0.fat
    ensures forall x :: 1 <= x < |im0.blocks| && x !in l0.chains[Root] ==> im2.blocks[x] == im0.blocks[x]
  {
    hide Packed, Keys, Names, Forest, At, Zero;
    assert l2.chains == l0.chains;
    forall x | 0 <= x < |im0.fat| ensures im2.fat[x] == im0.fat[x] {
      if x > 0 {
        SameTable(im0.fat, im2.fat, l0.chains, x);
      } else {
        SuperCell(im0.fat[0], im2.fat[0]);
      }
    }
    forall x | 1 <= x < |im0.blocks| && x !in l0.chains[Root] ensures im2.blocks[x] == im0.blocks[x] {
      if x in c {
        assert x in FreeSet(im0.fat);
        ZeroSame(im0.blocks[x], im2.blocks[x]);
      }
    }
  }

  lemma SuperCell(a: nat, b: nat)
    requires a / 256 == b / 256 && a % 256 <= 4 && b % 256 <= 4 && BlockSizeOf(a % 256) == BlockSizeOf(b % 256)
    ensures a == b
  {
  }

  lemma ZeroSame(a: seq<Byte>, b: seq<Byte>)
    requires |a| == |b| && Zero(a) && Zero(b)
    ensures a == b
  {
  }
}
