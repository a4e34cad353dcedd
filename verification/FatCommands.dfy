/**
 The commands of commands.c. Each works on the mounted store and is specified
 by what it does to the map of names to byte strings.
 */
module FatCommands {
  import opened Bytes
  import opened FatTable
  import opened Disk
  import opened DiskSteps
  import opened FileCopy
  import opened Views
  import opened FatFs

  type Name = n: seq<Byte> | NameOk(n) witness [97]
  type Files = map<seq<Byte>, seq<Byte>>

  ghost predicate Valid(fs: Store)
    reads fs, fs.fat, fs.disk
  {
    fs.Ok() && AllTight(fs.Img(), fs.lay)
  }

  /** Valid, and what that says about the block size and the root directory. */
  ghost predicate Mounted(fs: Store)
    reads fs, fs.fat, fs.disk
  {
    Valid(fs) && fs.bs > 0 && Root in fs.lay.chains
  }

  lemma StillMounted(fs: Store)
    requires Valid(fs)
    ensures Mounted(fs)
  {
  }

  ghost function Contents(fs: Store): Files
    reads fs, fs.fat, fs.disk
  {
    View(fs.Img(), fs.lay)
  }

  ghost function Free(fs: Store): nat
    reads fs.fat
  {
    FreeCount(fs.fat[..])
  }

  /** Reading a command's slot back from the offset locate_file_entry returned. */
  method Decode(fs: Store, offset: int, ghost name: seq<Byte>) returns (blk: nat, idx: nat)
    requires fs.Ok() && name in fs.lay.names && offset == fs.OffsetOf(fs.lay.names[name])
    ensures fs.lay.names[name] == Slot(blk, idx) && Slot(blk, idx) in fs.lay.chains
    ensures blk < fs.disk.Length && ENTRY_SIZE * idx + ENTRY_SIZE <= |fs.disk[blk]| == fs.bs
    ensures Read(fs.disk[blk], idx) == EntryOf(fs.Img(), Slot(blk, idx))
  {
    hide Struct, At, Read;
    NamedSlot(fs.Img(), fs.lay, name);
    ghost var g := fs.lay.names[name];
    SlotRange(fs.Img(), fs.lay, g);
    fs.SlotDecode(g);
    blk := fs.FindBlockIndex(offset);
    idx := fs.FindEntryIndex(offset, blk);
    AtRead(fs.Img(), blk, idx);
  }

  lemma NamedSlot(im: Image, l: Layout, name: seq<Byte>)
    requires Struct(im, l) && name in l.names
    ensures l.names[name].Slot? && l.names[name] in l.chains && NameOk(name)
  {
  }

  /** One source of do_concat_append. A destination without blocks is the one case that
      goes wrong: its bytes land behind a block of zeros and the file is no longer tight. */
  method AppendFile(fs: Store, file: Name, dest: Name, destOffset: int) returns (found: bool, stuck: bool)
    requires Valid(fs) && dest in fs.lay.names && destOffset == fs.OffsetOf(fs.lay.names[dest])
    modifies fs.fat, fs.disk, fs`lay
    ensures found <==> file in old(fs.lay.names)
    ensures !found ==> !stuck && fs.Img() == old(fs.Img()) && fs.lay == old(fs.lay)
    ensures found ==> (stuck <==> !old(Fits(fs, dest, file)))
    ensures stuck ==> FreeSet(fs.fat[..]) == {}
    ensures fs.Ok() && (found && !stuck ==> ConcatOutcome(old(fs.Img()), old(fs.lay), fs.Img(), fs.lay, dest, file))
  {
    hide Struct, Read, At, Flat, Prefix, FreeCount, Others, Room, View, AllTight, NameOk, OnlyEntry, ConcatOutcome;
    var offset := fs.LocateFileEntry(file);
    if offset == -1 {
      return false, false;
    }
    var sb, si := Decode(fs, offset, file);
    var db, di := Decode(fs, destOffset, dest);
    stuck := AppendSlots(fs, db, di, sb, si, dest, file);
    return true, stuck;
  }

  /** The free blocks suffice for appending `file` to `dest`. */
  ghost predicate Fits(fs: Store, dest: seq<Byte>, file: seq<Byte>)
    reads fs, fs.fat, fs.disk
  {
    dest in fs.lay.names && file in fs.lay.names && fs.lay.names[dest] in fs.lay.chains &&
    fs.lay.names[file] in fs.lay.chains &&
    (fs.lay.chains[fs.lay.names[file]] == [] ||
     Room(fs.Img(), fs.lay, fs.lay.names[dest], EntryOf(fs.Img(), fs.lay.names[file]).size))
  }

  /** The copy and the size update, once both slots are known. */
  method AppendSlots(fs: Store, db: nat, di: nat, sb: nat, si: nat, ghost dest: Name, ghost file: Name)
    returns (stuck: bool)
    requires Valid(fs) && dest in fs.lay.names && file in fs.lay.names
    requires fs.lay.names[dest] == Slot(db, di) && Slot(db, di) in fs.lay.chains
    requires fs.lay.names[file] == Slot(sb, si) && Slot(sb, si) in fs.lay.chains
    modifies fs.fat, fs.disk, fs`lay
    ensures (stuck <==> !old(Fits(fs, dest, file))) && (stuck ==> FreeSet(fs.fat[..]) == {})
    ensures fs.Ok() && (!stuck ==> ConcatOutcome(old(fs.Img()), old(fs.lay), fs.Img(), fs.lay, dest, file))
  {
    hide Struct, Read, At, Flat, Prefix, FreeCount, Others, Room, AllTight, NameOk, OnlyEntry, ConcatOutcome,
         Resized, Live, Base, Take;
    ghost var im0, l0 := fs.Img(), fs.lay;
    SlotRange(im0, l0, Slot(sb, si));
    AtRead(im0, sb, si);
    var size := Read(fs.disk[sb], si).size;
    ghost var end, left;
    stuck, end, left := fs.CopyData(db, di, sb, si, Slot(db, di), Slot(sb, si));
    if stuck {
      return;
    }
    OutcomeCopied(im0, l0, fs.Img(), fs.lay, Slot(db, di), Slot(sb, si), end, left);
    ConcatDone(im0, l0, fs.Img(), fs.lay, dest, file, end);
    AddSize(fs, db, di, size);
  }

  /** entry->size += amount. */
  method AddSize(fs: Store, blk: nat, idx: nat, amount: nat)
    requires fs.Ok() && Slot(blk, idx) in fs.lay.chains
    modifies fs.disk
    ensures fs.Img() == Resized(old(fs.Img()), Slot(blk, idx), EntryOf(old(fs.Img()), Slot(blk, idx)).size + amount)
  {
    hide Struct, At, Read, OnlyEntry, Live;
    ghost var im := fs.Img();
    SlotRange(im, fs.lay, Slot(blk, idx));
    AtRead(im, blk, idx);
    fs.disk[blk] := PutSize(fs.disk[blk], idx, Read(fs.disk[blk], idx).size + amount);
    assert fs.Img() == SetBlock(im, blk, fs.disk[blk]);
  }

  /** What do_concat_append should do to the map: append each source in turn, as it then
      is, and stop at the first name that does not exist. */
  function ConcatAll(v: Files, files: seq<Name>, dest: Name): (w: Files)
    requires dest in v
    ensures w.Keys == v.Keys && v[dest] <= w[dest] && w == v[dest := w[dest]]
  {
    if files == [] || files[0] !in v then v
    else
      var w := v[dest := v[dest] + v[files[0]]];
      ConcatAll(w, files[1..], dest)
  }

  lemma ConcatNone(v: Files, dest: Name)
    requires dest in v
    ensures ConcatAll(v, [], dest) == v
  {
  }

  lemma ConcatNext(v: Files, files: seq<Name>, i: nat, dest: Name)
    requires dest in v && i < |files|
    ensures files[i] !in v ==> ConcatAll(v, files[i..], dest) == v
    ensures files[i] in v ==>
      var w := v[dest := v[dest] + v[files[i]]];
      && ConcatAll(v, files[i..], dest) == ConcatAll(w, files[i + 1..], dest)
      && |v[dest]| + |v[files[i]]| <= |ConcatAll(v, files[i..], dest)[dest]|
  {
    assert files[i..][0] == files[i] && files[i..][1..] == files[i + 1..];
  }

  /** Enough free blocks for the final length is enough room for each step. */
  lemma RoomFor(im: Image, l: Layout, n: seq<Byte>, m: seq<Byte>, final: nat)
    requires Inv(im, l) && n in l.names && m in l.names && n in View(im, l) && m in View(im, l) && im.bs > 0
    requires View(im, l)[n] != [] && |View(im, l)[n]| + |View(im, l)[m]| <= final
    requires Ceil(final, im.bs) - Ceil(|View(im, l)[n]|, im.bs) <= FreeCount(im.fat)
    ensures l.names[n] in l.chains && l.names[m] in l.chains && Room(im, l, l.names[n], EntryOf(im, l.names[m]).size)
  {
    hide Struct, AllTight, View, Flat, FreeCount, Ceil;
    ViewSize(im, l, n);
    ViewSize(im, l, m);
    FinalFits(final, im.bs, |l.chains[l.names[n]]| + FreeCount(im.fat));
  }

  lemma FinalFits(final: nat, bs: nat, blocks: nat)
    requires bs > 0 && Ceil(final, bs) <= blocks
    ensures final <= bs * blocks
  {
    CeilIff(final, bs, blocks);
  }

  lemma RightOutcome(im0: Image, l0: Layout, im: Image, l: Layout, n: seq<Byte>, m: seq<Byte>)
    requires ConcatOutcome(im0, l0, im, l, n, m) && View(im0, l0)[n] != []
    ensures var u := View(im0, l0);
            && Inv(im, l) && l.names == l0.names && im.bs == im0.bs > 0 && View(im, l) == u[n := u[n] + u[m]]
            && FreeCount(im.fat) == FreeCount(im0.fat) - Needed(|u[n]|, |u[m]|, im.bs)
  {
    hide Struct, AllTight, View, FreeCount, Ceil;
  }

  /** One source of do_concat_append when the destination is not empty and blocks
      suffice for a length of `final`. */
  method AppendNext(fs: Store, file: Name, dest: Name, destOffset: int, ghost final: nat) returns (found: bool)
    requires Mounted(fs) && dest in Contents(fs) && dest in fs.lay.names
    requires destOffset == fs.OffsetOf(fs.lay.names[dest]) && Contents(fs)[dest] != []
    requires file in Contents(fs) ==> |Contents(fs)[dest]| + |Contents(fs)[file]| <= final
    requires Ceil(final, fs.bs) - Ceil(|Contents(fs)[dest]|, fs.bs) <= Free(fs)
    modifies fs.fat, fs.disk, fs`lay
    ensures Valid(fs) && fs.lay.names == old(fs.lay.names) && (found <==> file in old(Contents(fs)))
    ensures !found ==> fs.Img() == old(fs.Img()) && fs.lay == old(fs.lay)
    ensures found ==>
      var u := old(Contents(fs));
      && Contents(fs) == u[dest := u[dest] + u[file]]
      && Free(fs) == old(Free(fs)) - Needed(|u[dest]|, |u[file]|, fs.bs)
  {
    hide Struct, AllTight, View, FreeCount, Room, ConcatOutcome, Ceil, NameOk;
    ghost var im, l := fs.Img(), fs.lay;
    ViewKeys(im, l);
    if file in l.names {
      RoomFor(im, l, dest, file, final);
      assert Fits(fs, dest, file);
    }
    var stuck;
    found, stuck := AppendFile(fs, file, dest, destOffset);
    if found {
      RightOutcome(im, l, fs.Img(), fs.lay, dest, file);
    }
  }

  method ConcatAppend(fs: Store, files: seq<Name>, dest: Name)
    requires Mounted(fs)
    requires dest in Contents(fs) ==>
      && Contents(fs)[dest] != []
      && var n := |Contents(fs)[dest]|;
         Needed(n, |ConcatAll(Contents(fs), files, dest)[dest]| - n, fs.bs) <= Free(fs)
    modifies fs.fat, fs.disk, fs`lay
    ensures Valid(fs)
    ensures dest !in old(Contents(fs)) ==> fs.Img() == old(fs.Img()) && fs.lay == old(fs.lay)
    ensures dest in old(Contents(fs)) ==>
      var v := old(Contents(fs));
      var w := ConcatAll(v, files, dest);
      Contents(fs) == w && Free(fs) == old(Free(fs)) - Needed(|v[dest]|, |w[dest]| - |v[dest]|, fs.bs)
  {
    hide Struct, AllTight, View, FreeCount, Ceil, NameOk, ConcatAll;
    ViewKeys(fs.Img(), fs.lay);
    var destOffset := fs.LocateFileEntry(dest);
    if destOffset == -1 {
      return;
    }
    ghost var v := Contents(fs);
    ghost var w := ConcatAll(v, files, dest);
    ghost var free := Free(fs);
    var index := 0;
    assert files[0..] == files;
    while index < |files|
      invariant 0 <= index <= |files|
      invariant Valid(fs) && fs.lay.names == old(fs.lay.names)
      invariant dest in Contents(fs) && Contents(fs)[dest] != [] && ConcatAll(Contents(fs), files[index..], dest) == w
      invariant Free(fs) + Ceil(|Contents(fs)[dest]|, fs.bs) == free + Ceil(|v[dest]|, fs.bs)
    {
      ConcatNext(Contents(fs), files, index, dest);
      StillMounted(fs);
      var found := AppendNext(fs, files[index], dest, destOffset, |w[dest]|);
      if !found {
        return;
      }
      index := index + 1;
    }
    assert files[index..] == [];
    ConcatNone(Contents(fs), dest);
  }

  /** do_cat_append ran out of blocks: as much of the input as fits is there, but the size
      field counts all of it, so the file is no longer tight. */
  ghost predicate Spilled(fs: Store, v: Files, name: seq<Byte>, buffer: seq<Byte>, space: int)
    reads fs, fs.fat, fs.disk
  {
    && fs.Ok() && Free(fs) == 0 && !AllTight(fs.Img(), fs.lay)
    && 0 <= space < |buffer| && name in v && Contents(fs) == v[name := v[name] + buffer[..space]]
  }

  /** do_cat_append on a file with data. The input's length is an int. */
  method CatAppend(fs: Store, buffer: seq<Byte>, name: Name) returns (r: int)
    requires Mounted(fs) && |buffer| < 0x8000_0000
    requires name in Contents(fs) ==> Contents(fs)[name] != []
    modifies fs.fat, fs.disk, fs`lay
    ensures name !in old(Contents(fs)) ==> r == -1 && fs.Img() == old(fs.Img()) && fs.lay == old(fs.lay)
    ensures name in old(Contents(fs)) ==>
      var v := old(Contents(fs));
      if Needed(|v[name]|, |buffer|, fs.bs) <= old(Free(fs)) then
        r == 0 && Valid(fs) && Appended(old(fs.Img()), old(fs.lay), fs.Img(), fs.lay, name, buffer)
      else r == -1 && Spilled(fs, v, name, buffer, SpaceBehind(|v[name]|, old(Free(fs)), fs.bs))
  {
    hide Struct, AllTight, View, FreeCount, Ceil, NameOk, Flat, Prefix, Others, Writing, Appended, At, Read, Resized;
    ghost var im0, l0 := fs.Img(), fs.lay;
    ViewKeys(im0, l0);
    var offset := fs.LocateFileEntry(name);
    if offset == -1 {
      return -1;
    }
    var blk, idx := Decode(fs, offset, name);
    ghost var o := fs.lay.names[name];
    ghost var at := AppendSetup(im0, l0, name, o, |buffer|);
    ChainBlocks(im0, l0, o);
    SlotRange(im0, l0, o);
    var fileEndOffset := fs.LocateEndOfFile(blk, idx, l0.chains[o]);
    var headOfFile := Read(fs.disk[blk], idx).first;
    AddSize(fs, blk, idx, |buffer|);
    ghost var k := Copy(fs.Img(), l0, o, o, at, 0);
    StartPouring(k);
    ghost var c := l0.chains[o];
    var first: int := fs.GetLastBlock(headOfFile, c);
    fs.OffsetEnd(first, at);
    var endPoint := (fileEndOffset - fs.FatSize()) % fs.bs;
    ViewSize(im0, l0, name);
    if |buffer| > 0 && endPoint == 0 {
      first := fs.WriteNext(first, [], SpotOf(k), c);
      if first == -1 {
        assert buffer[..0] == [];
        AppendSpills(im0, l0, k, fs.Img(), fs.lay, name, buffer, 0);
        return -1;
      }
      c := c + [first];
    }
    if |buffer| > 0 {
      var ok;
      ghost var end, done;
      ok, c, end, done := fs.WriteBuffer(buffer, first, endPoint, SpotOf(k), c);
      WrittenBehind(fs, k, c, end, buffer[..done]);
      fs.lay := Regrown(k, c);
      assert buffer[..|buffer|] == buffer;
      if !ok {
        AppendSpills(im0, l0, k, fs.Img(), fs.lay, name, buffer, done);
        return -1;
      }
      AppendFits(im0, l0, k, fs.Img(), fs.lay, name, end, buffer);
      AppendFinish(im0, l0, k, fs.Img(), fs.lay, name, end, buffer);
    } else {
      assert buffer == [];
      AppendFits(im0, l0, k, fs.Img(), fs.lay, name, at, []);
      AppendFinish(im0, l0, k, fs.Img(), fs.lay, name, at, []);
    }
    AppendedInv(im0, l0, fs.Img(), fs.lay, name, buffer);
    return 0;
  }

  /** The layout follows what was written behind a file. */
  lemma WrittenBehind(fs: Store, k: Copy, c: seq<nat>, end: nat, data: seq<Byte>)
    requires k.Begun() && Poured(SpotOf(k), fs.Img(), c, end, data)
    ensures Writing(k, fs.Img(), Regrown(k, c), end, data) && Struct(fs.Img(), Regrown(k, c))
    ensures 0 < fs.fat.Length == |k.im.fat| && fs.fat[0] == k.im.fat[0]
  {
    hide Struct, Poured, Copy.Tail, Prefix;
    PouredWriting(k, fs.Img(), c, end, data);
    PourLast(SpotOf(k), fs.Img(), c, end, data);
  }

  /** C's remainder, which takes the sign of the dividend. */
  function Rem(a: int, b: nat): int
    requires b > 0
  {
    if a >= 0 then a % b else -((-a) % b)
  }

  /** The write cursor do_cat_append computes lies inside a block exactly when the file has data:
      for an empty file locate_end_of_file reports -1, and the cursor is one byte before a block. */
  lemma AppendCursor(fs: Store, name: Name)
    requires Valid(fs) && fs.bs > 1 && name in Contents(fs) && name in fs.lay.names
    requires fs.lay.names[name] in fs.lay.chains
    ensures var c := fs.lay.chains[fs.lay.names[name]];
            var size := |Contents(fs)[name]|;
            var end := if c == [] then -1 else fs.BlockOffset(Last(c)) + size - fs.bs * (|c| - 1);
            && (Contents(fs)[name] != [] ==> 0 <= Rem(end - fs.FatSize(), fs.bs) < fs.bs)
            && (Contents(fs)[name] == [] ==> Rem(end - fs.FatSize(), fs.bs) == -1)
  {
    hide Struct, AllTight, View, Ceil, Flat, At, Rem, Chain, NameOk;
    ghost var im, o := fs.Img(), fs.lay.names[name];
    ViewSize(im, fs.lay, name);
    var c := fs.lay.chains[o];
    if c != [] {
      ChainBlocks(im, fs.lay, o);
      EndOfFile(im, fs.lay, o);
      hide *;
      CursorInside(fs.bs, Last(c), EntryOf(im, o).size - fs.bs * (|c| - 1));
    } else {
      MinusOne(fs.numBlocks, fs.bs);
    }
  }

  lemma CursorInside(bs: nat, b: nat, at: int)
    requires bs > 0 && 1 <= b && 0 <= at
    ensures 0 <= Rem(bs * (b - 1) + at, bs) < bs
  {
    MulMono(0, b - 1, bs);
    assert bs * (b - 1) >= 0;
  }

  lemma MinusOne(n: nat, b: nat)
    requires b > 1
    ensures Rem(-1 - n * b, b) == -1 && Rem(-1, b) == -1
  {
    assert (1 + n * b) % b == 1 by { DivUnique(1 + n * b, b, n, 1); }
  }

  lemma AppendedInv(im0: Image, l0: Layout, im: Image, l: Layout, n: seq<Byte>, data: seq<Byte>)
    requires Appended(im0, l0, im, l, n, data)
    ensures Inv(im, l)
  {
    hide Struct, AllTight, View;
  }

  /** do_rm. */
  method Rm(fs: Store, name: Name) returns (r: int)
    requires Valid(fs)
    modifies fs.fat, fs.disk, fs`lay
    ensures r == (if name in old(Contents(fs)) then 0 else -1)
    ensures r == -1 ==> fs.Img() == old(fs.Img()) && fs.lay == old(fs.lay)
    ensures r == 0 ==> Valid(fs) && Contents(fs) == old(Contents(fs)) - {name} && fs.bs > 0
                       && Free(fs) == old(Free(fs)) + Ceil(|old(Contents(fs))[name]|, fs.bs)
    ensures r == 0 ==>
      && name in old(fs.lay.names) && fs.lay == Removed(old(fs.lay), name)
      && var o := old(fs.lay.names[name]);
         o in old(fs.lay.chains) && o.Slot?
         && Erased(old(fs.Img()), fs.Img(), o, old(fs.lay).chains[o])
  {
    hide Struct, AllTight, View, FreeCount, Ceil, NameOk, At, Read, Live, OnlyEntry, Forest, Frame;
    ghost var im0, l0 := fs.Img(), fs.lay;
    ViewKeys(im0, l0);
    var offset := fs.LocateFileEntry(name);
    if offset == -1 {
      return -1;
    }
    var blk, idx := Decode(fs, offset, name);
    ghost var o := fs.lay.names[name];
    EraseEntry(fs, blk, idx, o);
    fs.lay := Removed(l0, name);
    ErasedIs(im0, l0, fs.Img(), o, l0.chains[o]);
    RemoveView(im0, l0, fs.Img(), name, o, l0.chains[o]);
    return 0;
  }

  /** The effect of do_rm on the image: see RemovedFrom. */
  ghost predicate Erased(im: Image, im': Image, o: Owner, c: seq<nat>)
    requires o.Slot?
  {
    && ENTRY_SIZE * o.idx + ENTRY_SIZE <= im.bs && |im.blocks| == |im.fat|
    && (forall x :: 0 <= x < |im.blocks| ==> |im.blocks[x]| == im.bs)
    && RemovedFrom(im, im', o, c)
  }

  lemma ErasedIs(im0: Image, l0: Layout, im: Image, o: Owner, c: seq<nat>)
    requires Struct(im0, l0) && o.Slot? && Erased(im0, im, o, c)
    ensures ENTRY_SIZE * o.idx + ENTRY_SIZE <= im0.bs && RemovedFrom(im0, im, o, c)
    ensures im.fat == Clear(im0.fat, c) && im.bs == im0.bs && (0 !in c ==> im.fat[0] == im0.fat[0])
  {
    hide Packed, Keys, Names, FreeZero, Forest;
  }

  /** The three stores of do_rm. */
  method EraseEntry(fs: Store, blk: nat, idx: nat, ghost o: Owner)
    requires fs.Ok() && o == Slot(blk, idx) && o in fs.lay.chains
    modifies fs.fat, fs.disk
    ensures Erased(old(fs.Img()), fs.Img(), o, fs.lay.chains[o]) && fs.fat[0] == old(fs.fat[0])
  {
    hide Struct, Read, Live, OnlyEntry, Forest, At, Chain, Erased, RemovedFrom, MarkDeleted;
    ghost var im, c := fs.Img(), fs.lay.chains[o];
    SlotRange(im, fs.lay, o);
    AtRead(im, blk, idx);
    ChainBlocks(im, fs.lay, o);
    SlotsOfStruct(im, fs.lay);
    MarkedShape(im, fs.lay, o);
    var first := Read(fs.disk[blk], idx).first;
    fs.disk[blk] := MarkDeleted(fs.disk[blk], idx);
    assert fs.Img() == SetBlock(im, blk, MarkDeleted(im.blocks[blk], idx));
    ghost var marked := fs.disk[..];
    DropChain(fs, first, c);
    EraseDone(im, fs.lay, o, marked, fs.Img());
  }

  /** Zero and release a chain, if there is one. */
  method DropChain(fs: Store, first: nat, ghost c: seq<nat>)
    requires Shape(fs.Img()) && Chain(fs.fat[..], c) && first == if c == [] then 0 else c[0]
    modifies fs.fat, fs.disk
    ensures fs.fat[..] == Clear(old(fs.fat[..]), c)
    ensures forall x :: 0 <= x < fs.disk.Length ==>
      |old(fs.disk[x])| == fs.bs &&
      fs.disk[x] == if x !in c then old(fs.disk[x]) else ZeroFrom(old(fs.disk[x]), 0)
  {
    if first != 0 {
      fs.RemoveData(0, first, c);
      fs.RemoveFatEntry(first, c);
    }
  }

  lemma EraseDone(im: Image, l: Layout, o: Owner, marked: seq<seq<Byte>>, im': Image)
    requires Struct(im, l) && o in l.chains && o.Slot? && o.blk < |im.blocks|
    requires ENTRY_SIZE * o.idx + ENTRY_SIZE <= |im.blocks[o.blk]|
    requires marked == im.blocks[o.blk := MarkDeleted(im.blocks[o.blk], o.idx)]
    requires im'.bs == im.bs && im'.fat == Clear(im.fat, l.chains[o]) && |im'.blocks| == |im.blocks|
    requires forall x :: 0 <= x < |im.blocks| ==>
      |marked[x]| == im.bs && im'.blocks[x] == if x !in l.chains[o] then marked[x] else ZeroFrom(marked[x], 0)
    ensures Erased(im, im', o, l.chains[o])
  {
    hide Struct, Live, At, Read, OnlyEntry;
    SlotRange(im, l, o);
    ChainBlocks(im, l, o);
  }

  lemma MarkedShape(im: Image, l: Layout, o: Owner)
    requires Struct(im, l) && o in l.chains && o.Slot?
    ensures o.blk < |im.blocks| && ENTRY_SIZE * o.idx + ENTRY_SIZE <= |im.blocks[o.blk]|
    ensures Shape(SetBlock(im, o.blk, MarkDeleted(im.blocks[o.blk], o.idx)))
  {
    hide Packed, Keys, Names, Forest, OnlyEntry, At, Live, FreeZero;
    SlotRange(im, l, o);
    BlockShape(im, o.blk, MarkDeleted(im.blocks[o.blk], o.idx));
  }

  /** do_touch. A new entry goes into the first vacant slot; if there is none nothing happens. */
  method Touch(fs: Store, name: Name)
    requires Mounted(fs)
    modifies fs.fat, fs.disk, fs`lay
    ensures name in old(Contents(fs)) ==> fs.Img() == old(fs.Img()) && fs.lay == old(fs.lay)
    ensures name !in old(Contents(fs)) &&
            (forall d, i :: !FirstVacant(old(fs.Img()), old(fs.lay.chains[Root]), d, i)) ==>
              fs.Img() == old(fs.Img()) && fs.lay == old(fs.lay)
    ensures name !in old(Contents(fs)) && old(Placeable(fs.Img(), fs.lay)) ==>
              Valid(fs) && Contents(fs) == old(Contents(fs))[name := []]
    ensures name !in old(Contents(fs)) && old(CutsOff(fs.Img(), fs.lay)) ==> forall l :: !Struct(fs.Img(), l)
  {
    hide Struct, AllTight, View, FreeCount, NameOk, EntryAdded, Placed, Others, FirstVacant, LastSlot, Flat, AllLive;
    ghost var im0, l0 := fs.Img(), fs.lay;
    ViewKeys(im0, l0);
    RootOf(im0, l0);
    var offset := fs.LocateFileEntry(name);
    if offset == -1 {
      PendingNothing(im0.fat, l0.chains);
      ghost var d, i, x := AddEntry(fs, name, 0, 0, [], im0);
      if d == -1 {
        NoneVacant(im0, l0.chains[Root]);
      } else if LastSlot(im0, i) ==> d == |l0.chains[Root]| - 1 {
        CreateView(im0, l0, fs.Img(), fs.lay, Slot(l0.chains[Root][d], i), name, []);
        OnlyVacancy(im0, l0, d, i);
      } else {
        forall l ensures !Struct(fs.Img(), l) {
          CutOff(im0, l0, im0, [], fs.Img(), d, i, x, name, 0, 0, fs.Img(), [], l);
        }
      }
    }
  }

  lemma OnlyVacancy(im: Image, l: Layout, d: nat, i: nat)
    requires Root in l.chains && FirstVacant(im, l.chains[Root], d, i)
    requires LastSlot(im, i) ==> d == |l.chains[Root]| - 1
    ensures !CutsOff(im, l)
  {
    hide FirstVacant, LastSlot;
    if CutsOff(im, l) {
      var e: nat, j: nat :| FirstVacant(im, l.chains[Root], e, j) && LastSlot(im, j) && e + 1 < |l.chains[Root]|;
      FirstVacantUnique(im, l.chains[Root], d, i, e, j);
    }
  }

  lemma RootOf(im: Image, l: Layout)
    requires Struct(im, l)
    ensures Root in l.chains && Limbo !in l.chains && Frame(im, l) && Forest(im.fat, l.chains) && 0 < |im.fat| <= END
  {
  }

  lemma CellZero(im: Image, im': Image, dir: seq<nat>, d: int, i: nat, x: int, name: seq<Byte>, index: nat, size: nat)
    requires EntryAdded(im, im', dir, d, i, x, name, index, size, REGULAR, RDWR) && dir[d] != 0 && 0 < |im.fat|
    ensures |im'.fat| == |im.fat| && im'.fat[0] == im.fat[0]
  {
  }

  /** add_root_entry with the values every caller passes, and what it means for the files. */
  method AddEntry(fs: Store, name: Name, index: nat, size: nat, ghost c: seq<nat>, ghost im0: Image)
    returns (ghost d: int, ghost i: nat, ghost x: int)
    requires Frame(fs.Img(), fs.lay) && Forest(fs.fat[..], fs.lay.chains[Limbo := c]) && index == Head(c)
    requires fs.fat[0] / 256 == fs.numBlocks && 0 < fs.fat.Length
    requires name !in fs.lay.names && Struct(im0, fs.lay) && im0.blocks == fs.disk[..] && im0.bs == fs.bs
    requires size < 4294967296
    modifies fs.fat, fs.disk, fs`lay
    ensures Root in old(fs.lay.chains) && fs.fat[0] / 256 == fs.numBlocks
    ensures d == -1 ==> fs.Img() == old(fs.Img()) && fs.lay == old(fs.lay)
                        && forall e :: 0 <= e < |fs.lay.chains[Root]| ==>
                          AllLive(fs.Img(), fs.lay.chains[Root][e], fs.bs)
    ensures d != -1 ==>
      && 0 <= d < |old(fs.lay.chains)[Root]| && FirstVacant(old(fs.Img()), old(fs.lay.chains)[Root], d, i)
      && EntryAdded(old(fs.Img()), fs.Img(), old(fs.lay.chains)[Root], d, i, x, name, index, size, REGULAR, RDWR)
    ensures d != -1 && (LastSlot(im0, i) ==> d == |old(fs.lay.chains)[Root]| - 1) ==>
      var o := Slot(old(fs.lay.chains)[Root][d], i);
      && fs.Ok() && Others(im0, old(fs.lay), fs.Img(), fs.lay, o) && fs.lay.names == old(fs.lay.names)[name := o]
      && o in fs.lay.chains && fs.lay.chains[o] == c && EntryOf(fs.Img(), o).size == size
      && Free(fs) == old(Free(fs)) - (if LastSlot(im0, i) && x != -1 then 1 else 0)
      && fs.lay == Placed(old(fs.Img()), old(fs.lay), d, i, name, c, x) && o !in old(fs.lay.chains)
  {
    hide Struct, Frame, Forest, FreeCount, Placed, Others, FirstVacant, At, EntryAdded, AllLive, NameOk, Live;
    ghost var pend, l0 := fs.Img(), fs.lay;
    RootOf(im0, l0);
    ChainBlocks(im0, l0, Root);
    d, i, x := fs.AddRootEntry(name, index, size, REGULAR, RDWR, c);
    if d != -1 {
      assert l0.chains[Root][d] in l0.chains[Root];
      CellZero(pend, fs.Img(), l0.chains[Root], d, i, x, name, index, size);
    }
    if d != -1 && (LastSlot(im0, i) ==> d == |l0.chains[Root]| - 1) {
      SameAt(pend, im0);
      SameVacant(pend, im0, l0.chains[Root], d, i);
      VacantIsNew(im0, l0, d, i);
      PlaceOthers(im0, l0, pend, fs.Img(), d, i, x, name, c, index, size, REGULAR, RDWR);
    }
  }

  /** A block is free for a new file, but no slot for its entry is vacant, or only one that cuts off a
      directory block. */
  ghost predicate NoPlace(fs: Store)
    reads fs, fs.fat, fs.disk
    requires Root in fs.lay.chains
  {
    Free(fs) > 0 && !Placeable(fs.Img(), fs.lay)
  }

  /** do_cat_overwrite on a name that does not exist: its bytes become a new file. Without input, or when
      the blocks run out, the entry's size and its blocks do not match and the file is not tight. With a free
      block a layout fits afterwards exactly if the entry had a slot and cut nothing off. */
  method CreateFile(fs: Store, buffer: seq<Byte>, name: Name) returns (r: int)
    requires Mounted(fs) && name !in Contents(fs) && |buffer| < 0x8000_0000
    modifies fs.fat, fs.disk, fs`lay
    ensures !old(NoPlace(fs)) ==>
              CreateOutcome(old(fs.Img()), old(fs.lay), fs.Img(), fs.lay, name, buffer, r) && fs.Ok()
    ensures old(NoPlace(fs)) ==> CreateLost(old(fs.Img()), old(fs.lay), fs.Img(), buffer, r)
    ensures old(NoPlace(fs)) <==> forall l :: !Struct(fs.Img(), l)
  {
    hide Struct, AllTight, View, FreeCount, NameOk, EntryAdded, Placed, Others, FirstVacant, LastSlot, Flat, AllLive,
         Frame, Forest, RoomToCreate, Poured, Ceil, FreeSet, FillsBlock, Placeable, CreatedOnly, Written, CreateLost;
    ghost var im0, l0 := fs.Img(), fs.lay;
    ViewKeys(im0, l0);
    RootOf(im0, l0);
    var index := fs.AddFatEntry();
    FreeIff(im0.fat, index);
    if index == -1 {
      return -1;
    }
    StartPending(im0, l0, index);
    ghost var pend := fs.Img();
    assert pend == SetFat(im0, im0.fat[index := END]);
    ghost var d, i, x := AddEntry(fs, name, index, |buffer|, [index], im0);
    ghost var p := Spot(fs.Img(), [index], 0);
    EntryPlain(im0, l0, pend, p.im, d, i, x, name, index, |buffer|);
    PourStart(p);
    var ok;
    ghost var c, end, done;
    ok, c, end, done := fs.WriteBuffer(buffer, index, 0, p, [index]);
    r := if ok then 0 else -1;
    assert buffer[..|buffer|] == buffer;
    VacancyFound(im0, pend, l0, d, i);
    if d != -1 && LastSlot(im0, i) {
      GrewIff(pend, p.im, l0.chains[Root], d, i, x, name, index, |buffer|);
    }
    if Placeable(im0, l0) {
      ghost var k := Copy(p.im, fs.lay, Slot(l0.chains[Root][d], i), Slot(l0.chains[Root][d], i), 0, 0);
      WrittenBehind(fs, k, c, end, buffer[..done]);
      fs.lay := Regrown(k, c);
      FillNew(im0, l0, k, fs.Img(), fs.lay, name, index, buffer, end, done, ok);
      if !LastSlot(im0, i) {
        NewIsFree(im0.fat, index);
        IsCreatedOnly(im0, l0, pend, d, i, x, name, index, |buffer|, k, fs.Img(), fs.lay);
      }
      CreateDone(im0, l0, k, fs.Img(), fs.lay, name, buffer, r);
    } else {
      Lost(im0, l0, pend, p, d, i, x, name, index, buffer, fs.Img(), c, end, done, r);
    }
  }

  /** Whatever add_root_entry did, the chain of the new file is its first block. */
  lemma EntryPlain(im0: Image, l0: Layout, pend: Image, ent: Image, d: int, i: nat, x: int, name: seq<Byte>, index: nat,
                   size: nat)
    requires Struct(im0, l0) && 1 <= index < |im0.fat| && im0.fat[index] == 0
    requires Root in l0.chains && pend == SetFat(im0, im0.fat[index := END])
    requires if d == -1 then ent == pend
             else EntryAdded(pend, ent, l0.chains[Root], d, i, x, name, index, size, REGULAR, RDWR)
    ensures Plain(ent) && Chain(ent.fat, [index]) && |ent.fat| == |im0.fat|
    ensures FreeCount(ent.fat) + 1 == FreeCount(im0.fat) - if d != -1 && LastSlot(pend, i) && x != -1 then 1 else 0
  {
    hide Struct, Filled, NameOk, FreeCount;
    ChainBlocks(im0, l0, Root);
    TakeBlock(im0.fat, index, END);
    if d != -1 {
      var b := l0.chains[Root][d];
      assert b in l0.chains[Root];
      DirUsed(im0, l0, b);
      if LastSlot(pend, i) {
        if x == -1 {
          KeepFree(pend.fat, b, END);
          SameFree(pend.fat, pend.fat[b := END]);
        } else {
          LinkedCells(pend.fat, b, x);
        }
      }
    }
  }

  lemma DirUsed(im: Image, l: Layout, b: nat)
    requires Struct(im, l) && Root in l.chains && b in l.chains[Root]
    ensures 1 <= b < |im.fat| && im.fat[b] != 0
  {
    Member(im.fat, l.chains, Root, b);
  }

  /** A file created without a slot for it, or with one that cuts a directory block off. */
  lemma Lost(im0: Image, l0: Layout, pend: Image, p: Spot, d: int, i: nat, x: int, name: seq<Byte>, index: nat,
             buffer: seq<Byte>, im: Image, c: seq<nat>, end: nat, done: nat, r: int)
    requires Struct(im0, l0) && Root in l0.chains && im0.bs > 0 && 1 <= index < |im0.fat| && im0.fat[index] == 0
    requires pend == SetFat(im0, im0.fat[index := END]) && p.chain == [index] && p.at == 0 && !Placeable(im0, l0)
    requires if d == -1 then p.im == pend
             else EntryAdded(pend, p.im, l0.chains[Root], d, i, x, name, index, |buffer|, REGULAR, RDWR)
    requires Placeable(im0, l0) <==> d != -1 && (LastSlot(im0, i) ==> d == |l0.chains[Root]| - 1)
    requires FillsBlock(im0, l0) <==> d != -1 && LastSlot(im0, i)
    requires d == -1 <==> forall e, j :: !FirstVacant(im0, l0.chains[Root], e, j)
    requires LastSlot(pend, i) <==> LastSlot(im0, i)
    requires d != -1 && LastSlot(im0, i) ==> (x != -1 <==> 0 < FreeCount(pend.fat))
    requires done <= |buffer| && Poured(p, im, c, end, buffer[..done]) && (buffer != [] ==> 0 < end)
    requires r == (if done == |buffer| then 0 else -1) && (r == -1 ==> end == im.bs && FreeCount(im.fat) == 0)
    ensures CreateLost(im0, l0, im, buffer, r) && forall l :: !Struct(im, l)
  {
    hide Struct, EntryAdded, Poured, FirstVacant, LastSlot, Placeable, FillsBlock, FreeCount, BlocksFor;
    EntryPlain(im0, l0, pend, p.im, d, i, x, name, index, |buffer|);
    PourLast(p, im, c, end, buffer[..done]);
    EntryBlocks(im0, l0, pend, p.im, d, i, x, name, index, |buffer|);
    NewChain(p, im, c, end, buffer[..done], |buffer|, r == 0);
    RoomSplit(im0.bs, 1, FreeCount(p.im.fat));
    PendingFree(im0, l0, index);
    forall l ensures !Struct(im, l) {
      if d == -1 {
        NoEntry(im0, l0, p, im, c, index, end, buffer[..done], l);
      } else {
        StartPending(im0, l0, index);
        PouredPours(p, im, c, end, buffer[..done]);
        CutOff(im0, l0, pend, [index], p.im, d, i, x, name, index, |buffer|, im, c, l);
      }
    }
    if d == -1 { NoEntry(im0, l0, p, im, c, index, end, buffer[..done], l0); }
  }

  lemma PouredPours(p: Spot, im: Image, c: seq<nat>, end: nat, data: seq<Byte>)
    requires Poured(p, im, c, end, data) && p.at == 0
    ensures Pours(p.im, p.chain, im, c)
  {
    hide Prefix, Take, FreeCount, Beside;
  }

  lemma PendingFree(im: Image, l: Layout, x: nat)
    requires Struct(im, l) && 1 <= x < |im.fat| && im.fat[x] == 0
    ensures FreeCount(im.fat[x := END]) == FreeCount(im.fat) - 1
    ensures forall y :: 1 <= y < |im.fat| && im.fat[x := END][y] == 0 ==> im.fat[y] == 0
  {
    hide Struct, FreeCount;
    TakeBlock(im.fat, x, END);
  }

  lemma EntryBlocks(im0: Image, l0: Layout, pend: Image, ent: Image, d: int, i: nat, x: int, name: seq<Byte>,
                    index: nat, size: nat)
    requires Struct(im0, l0) && Root in l0.chains && pend.bs == im0.bs
    requires if d == -1 then ent == pend
             else EntryAdded(pend, ent, l0.chains[Root], d, i, x, name, index, size, REGULAR, RDWR)
    ensures ent.bs == im0.bs && (d != -1 ==> 0 <= d < |l0.chains[Root]|)
  {
    hide Struct, Filled, NameOk;
  }

  /** What the write loop of a new file leaves, its entry and first block having been there. */
  lemma FillNew(im0: Image, l0: Layout, k: Copy, im: Image, l: Layout, name: seq<Byte>, index: nat, buffer: seq<Byte>,
                end: nat, done: nat, ok: bool)
    requires Started(k, im0, l0, name, index, |buffer|) && im.bs > 0
    requires done <= |buffer| && Writing(k, im, l, end, buffer[..done]) && (buffer != [] ==> 0 < end)
    requires (ok <==> done == |buffer|) && (!ok ==> end == im.bs && FreeCount(im.fat) == 0)
    ensures Kept(k, im, l) && Written(im0, l0, im, l, FreeCount(k.im.fat), name, buffer, if ok then 0 else -1)
  {
    hide Struct, AllTight, View, FreeCount, Others, Flat, Ceil, Prefix, Chain, Writing, EntryOf, FreeSet;
    WritingTail(k, im, l, end, buffer[..done]);
    WriteRoom(k, im, l, end, buffer[..done]);
    MulMono(0, FreeCount(im.fat), im.bs);
    assert buffer[..|buffer|] == buffer;
    if !ok {
      CreateFull(im0, l0, k, im, l, name, buffer[..done]);
    } else if buffer == [] {
      StillOne(k, im, l, end);
      TailOthers(k, im, l);
      OthersTrans(im0, l0, k.im, k.l, im, l, k.dest);
      CreateHollow(im0, l0, im, l, k.dest, name);
    } else {
      CreateFinish(im0, l0, k, im, l, name, end, buffer);
      InvParts(im, l);
    }
  }

  lemma WritingTail(k: Copy, im: Image, l: Layout, end: nat, data: seq<Byte>)
    requires Writing(k, im, l, end, data)
    ensures k.dest in l.chains && k.dest in k.l.chains && k.l.chains[k.dest] != [] && k.Tail(im, l) && end <= im.bs
    ensures l.names == k.l.names && l.chains[k.dest] != [] && Kept(k, im, l)
    ensures EntryOf(im, k.dest) == EntryOf(k.im, k.dest)
  {
    hide Struct, At;
  }

  /** With nothing written the chain has not grown. */
  lemma StillOne(k: Copy, im: Image, l: Layout, end: nat)
    requires Writing(k, im, l, end, []) && k.at == 0 && |k.l.chains[k.dest]| == 1 && im.bs > 0
    ensures FreeCount(im.fat) == FreeCount(k.im.fat)
  {
    hide Struct, Flat, Prefix, At, FreeSet;
    NewPrefix(k);
    PrefixSize(im, l, k.dest, end);
    var c := |l.chains[k.dest]|;
    if c > 1 { MulMono(1, c - 1, im.bs); }
  }

  /** do_mv. Renaming a file to itself first removes it and then brings the entry back with
      its blocks released, which is harmless only for a file without blocks. */
  method Mv(fs: Store, src: Name, dst: Name) returns (r: int)
    requires Valid(fs)
    modifies fs.fat, fs.disk, fs`lay
    ensures r == (if src in old(Contents(fs)) then 0 else -1)
    ensures r == -1 ==> fs.Img() == old(fs.Img()) && fs.lay == old(fs.lay)
    ensures r == 0 && src != dst ==>
      Valid(fs) && Contents(fs) == (old(Contents(fs)) - {src})[dst := old(Contents(fs))[src]]
    ensures r == 0 && src == dst && old(Contents(fs))[src] == [] ==> Valid(fs) && Contents(fs) == old(Contents(fs))
    ensures r == 0 && src == dst && old(Contents(fs))[src] != [] ==> forall l :: !Struct(fs.Img(), l)
  {
    hide Struct, AllTight, View, FreeCount, Ceil, NameOk, At, Read, Live, OnlyEntry, Forest, Frame, Erased, Flat;
    ghost var im0, l0 := fs.Img(), fs.lay;
    ViewKeys(im0, l0);
    var offset := fs.LocateFileEntry(src);
    if offset == -1 {
      return -1;
    }
    ghost var o := fs.lay.names[src];
    var blk, idx := Decode(fs, offset, src);
    var target := fs.LocateFileEntry(dst);
    if target > 0 {
      var removed := Rm(fs, dst);
    }
    FatCells(im0, l0);
    if src != dst {
      RenameSlot(fs, blk, idx, src, dst);
    } else {
      RestoreName(fs, blk, idx, src, im0, l0);
    }
    return 0;
  }

  /** strcpy(entry->name, dst) for a name that is not in use. */
  method RenameSlot(fs: Store, blk: nat, idx: nat, ghost src: Name, dst: Name)
    requires Valid(fs) && src in fs.lay.names && fs.lay.names[src] == Slot(blk, idx) && dst !in Contents(fs)
    modifies fs.disk, fs`lay
    ensures Valid(fs) && src in old(Contents(fs))
    ensures Contents(fs) == (old(Contents(fs)) - {src})[dst := old(Contents(fs))[src]]
  {
    hide Struct, AllTight, View, NameOk, At, Read, Live, OnlyEntry, Flat, PutName;
    ghost var im, l := fs.Img(), fs.lay;
    ViewKeys(im, l);
    NamedSlot(im, l, src);
    SlotRange(im, l, Slot(blk, idx));
    fs.disk[blk] := PutName(fs.disk[blk], idx, dst);
    fs.lay := l.(names := (l.names - {src})[dst := Slot(blk, idx)]);
    assert fs.Img() == SetBlock(im, blk, PutName(im.blocks[blk], idx, dst));
    RenameView(im, l, fs.Img(), fs.lay, Slot(blk, idx), src, dst);
  }

  /** strcpy(entry->name, src) on the entry do_rm has just marked. */
  method RestoreName(fs: Store, blk: nat, idx: nat, src: Name, ghost im0: Image, ghost l0: Layout)
    requires Inv(im0, l0) && src in l0.names && l0.names[src] == Slot(blk, idx) && Slot(blk, idx) in l0.chains
    requires Erased(im0, fs.Img(), Slot(blk, idx), l0.chains[Slot(blk, idx)]) && src in View(im0, l0)
    requires 0 < fs.fat.Length && fs.fat[0] / 256 == fs.numBlocks
    modifies fs.disk, fs`lay
    ensures View(im0, l0)[src] == [] ==> Valid(fs) && Contents(fs) == View(im0, l0)
    ensures View(im0, l0)[src] != [] ==> forall l :: !Struct(fs.Img(), l)
  {
    hide Struct, AllTight, View, NameOk, At, Read, Live, OnlyEntry, Flat, PutName, Forest, Frame, RemovedFrom, Erased;
    ghost var im1 := fs.Img();
    ghost var o: Owner := Slot(blk, idx);
    ErasedIs(im0, l0, im1, o, l0.chains[o]);
    MovedBlock(im0, l0, im1, o, l0.chains[o]);
    ViewSize(im0, l0, src);
    fs.disk[blk] := PutName(fs.disk[blk], idx, src);
    fs.lay := l0;
    assert fs.Img() == SetBlock(im1, blk, PutName(im1.blocks[blk], idx, src));
    MoveToItself(im0, l0, im1, src, o, l0.chains[o], fs.Img());
  }

  /** do_cpto_host: the bytes written to the host file. */
  method ExportFile(fs: Store, source: Name) returns (found: bool, out: seq<Byte>)
    requires Valid(fs)
    ensures found <==> source in Contents(fs)
    ensures found ==> out == Contents(fs)[source]
    ensures !found ==> out == []
  {
    hide Struct, AllTight, View, NameOk, At, Read, Live, Chain, Flat;
    ghost var im, l := fs.Img(), fs.lay;
    ViewKeys(im, l);
    found, out := true, [];
    var offset := fs.LocateFileEntry(source);
    if offset == -1 {
      return false, [];
    }
    var blk, idx := Decode(fs, offset, source);
    ViewSize(im, l, source);
    ghost var c := l.chains[Slot(blk, idx)];
    ChainBlocks(im, l, Slot(blk, idx));
    var head := Read(fs.disk[blk], idx).first;
    if head == 0 {
      FlatNothing(im.blocks);
      return;
    }
    out := ReadChain(fs, head, Read(fs.disk[blk], idx).size, c);
  }

  /** The block loop of do_cpto_host. */
  method ReadChain(fs: Store, first: nat, total: nat, ghost c: seq<nat>) returns (out: seq<Byte>)
    requires c != [] && first == c[0] && Chain(fs.fat[..], c) && fs.fat.Length == fs.disk.Length <= END
    requires (forall x :: 0 <= x < fs.disk.Length ==> |fs.disk[x]| == fs.bs) && Tight(c, total, fs.bs)
    ensures out == Take(Flat(fs.disk[..], c), total)
  {
    hide Flat;
    var head, size := first, total as int;
    ghost var i, d := 0, fs.disk[..];
    out := [];
    FlatNothing(d);
    while head != END
      invariant 0 <= i <= |c| && head == (if i < |c| then c[i] else END)
      invariant size == total - i * fs.bs
      invariant if i < |c| then out == Flat(d, c[..i]) else out == Take(Flat(d, c), total)
      decreases |c| - i
    {
      assert fs.fat[..][c[i]] == Next(c, i);
      ReadBlock(d, c, i, fs.bs, total);
      var nwrite := size;
      size := size - fs.bs;
      if size >= 0 {
        nwrite := fs.bs;
      }
      out := out + fs.disk[head][..nwrite];
      head := fs.fat[head];
      i := i + 1;
    }
  }

  lemma ReadBlock(a: seq<seq<Byte>>, c: seq<nat>, i: nat, bs: nat, total: nat)
    requires i < |c| && c[i] < |a| && (forall j :: 0 <= j < |c| ==> c[j] < |a|)
    requires forall x :: 0 <= x < |a| ==> |a[x]| == bs
    requires Tight(c, total, bs)
    ensures (i + 1) * bs == i * bs + bs
    ensures Flat(a, c[..i + 1]) == Flat(a, c[..i]) + a[c[i]] && c[..|c|] == c
    ensures i + 1 < |c| ==> total - i * bs >= bs
    ensures i + 1 == |c| ==>
              0 < total - i * bs <= bs && Take(Flat(a, c), total) == Flat(a, c[..i]) + a[c[i]][..total - i * bs]
  {
    assert Front(c[..i + 1]) == c[..i] && Last(c[..i + 1]) == c[i];
    if i + 1 < |c| {
      MulMono(i + 1, |c| - 1, bs);
    } else {
      FlatLengthAny(a, c[..i], bs);
      assert c[..i + 1] == c;
    }
  }

  /** A new file followed by its removal: the table and all blocks outside the directory
      are back as they were, unless the entry filled a directory block. */
  method CreateThenRemove(fs: Store, buffer: seq<Byte>, name: Name)
    requires Mounted(fs) && name !in Contents(fs) && buffer != [] && Free(fs) > 0
    requires Placeable(fs.Img(), fs.lay) && !FillsBlock(fs.Img(), fs.lay) && RoomToCreate(fs.Img(), fs.lay, |buffer|)
    requires |buffer| < 0x8000_0000
    modifies fs.fat, fs.disk, fs`lay
    ensures Valid(fs) && Contents(fs) == old(Contents(fs)) && fs.fat[..] == old(fs.fat[..])
    ensures forall x :: 1 <= x < fs.disk.Length && x !in old(fs.lay.chains)[Root] ==>
              fs.disk[..][x] == old(fs.disk[..])[x]
  {
    hide Struct, AllTight, View, FreeCount, NameOk, Placeable, FillsBlock, RoomToCreate, Ceil, CreatedOnly,
         RemovedFrom, Erased;
    ghost var im0, l0 := fs.Img(), fs.lay;
    FatCells(im0, l0);
    var r := CreateFile(fs, buffer, name);
    ghost var im1, l1 := fs.Img(), fs.lay;
    r := Rm(fs, name);
    ErasedBlocks(im1, l1, fs.Img(), l1.names[name]);
    FatCells(fs.Img(), fs.lay);
    CreateRemoveIdentity(im0, l0, im1, l1, fs.Img(), fs.lay, l1.names[name], l1.chains[l1.names[name]]);
  }

  lemma ErasedBlocks(im: Image, l: Layout, im': Image, o: Owner)
    requires Struct(im, l) && o in l.chains && o.Slot? && Erased(im, im', o, l.chains[o])
    ensures im'.bs == im.bs && |im'.blocks| == |im.blocks|
    ensures forall x :: 0 <= x < |im'.blocks| && x in l.chains[o] ==> Zero(im'.blocks[x])
    ensures forall x :: 0 <= x < |im'.blocks| && x !in l.chains[o] && x != o.blk ==> im'.blocks[x] == im.blocks[x]
  {
    hide Struct;
  }
}
