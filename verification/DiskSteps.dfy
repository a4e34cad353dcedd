/**
 How each elementary change to the image keeps the layout: growing a file,
 writing file bytes, changing, adding, renaming and removing directory entries,
 and growing the directory.
 */
module DiskSteps {
  import opened Bytes
  import opened FatTable
  import opened Disk

  function SetBlock(im: Image, b: nat, blk: seq<Byte>): Image
    requires b < |im.blocks|
  {
    im.(blocks := im.blocks[b := blk])
  }

  /** The layout after the chain of `o` grew by `x`. */
  function Longer(l: Layout, o: Owner, x: nat): Layout
    requires o in l.chains
  {
    l.(chains := l.chains[o := l.chains[o] + [x]])
  }

  /** The image after bytes `s` are stored from byte `at` of block `h`. */
  function Overwrite(im: Image, h: nat, at: nat, s: seq<Byte>): Image {
    if h < |im.blocks| && at + |s| <= |im.blocks[h]| then SetBlock(im, h, Splice(im.blocks[h], at, s)) else im
  }

  function SetFat(im: Image, f: seq<nat>): Image {
    im.(fat := f)
  }

  /** A store into one directory entry leaves all other slots as they were. */
  lemma AtEdit(im: Image, b: nat, i: nat, blk: seq<Byte>)
    requires b < |im.blocks| && ENTRY_SIZE * i + ENTRY_SIZE <= |im.blocks[b]|
    requires OnlyEntry(im.blocks[b], blk, i)
    ensures At(SetBlock(im, b, blk), b, i) == Read(blk, i)
    ensures forall c, j :: c != b || j != i ==> At(SetBlock(im, b, blk), c, j) == At(im, c, j)
  {
  }

  lemma Member(f: seq<nat>, ch: Chains, o: Owner, x: nat)
    requires Forest(f, ch) && o in ch && x in ch[o]
    ensures 1 <= x < |f| && f[x] != 0
    ensures forall p :: p in ch && p != o ==> x !in ch[p]
  {
    assert Chain(f, ch[o]);
    var i :| 0 <= i < |ch[o]| && ch[o][i] == x;
    assert f[ch[o][i]] == Next(ch[o], i);
    if i + 1 < |ch[o]| { assert 1 <= ch[o][i + 1]; }
  }

  /** The slots of `dir` read the same in both images, sizes aside. */
  ghost predicate SameSlots(im: Image, im': Image, dir: seq<nat>) {
    forall b, i :: b in dir ==>
      At(im', b, i) == At(im, b, i).(size := At(im', b, i).size)
  }

  /** The layouts agree on everything the directory records. */
  ghost predicate SameHeads(l: Layout, l': Layout) {
    && l'.names == l.names && l'.used == l.used && l'.chains.Keys == l.chains.Keys
    && (forall o :: o in l.chains ==> Head(l'.chains[o]) == Head(l.chains[o]))
  }

  lemma PackedKeep(im: Image, im': Image, l: Layout, l': Layout, dir: seq<nat>)
    requires dir != [] && Packed(im, l, dir) && SameSlots(im, im', dir) && im'.bs == im.bs && l'.used == l.used
    ensures Packed(im', l', dir)
  {
  }

  lemma KeysKeep(im: Image, im': Image, l: Layout, l': Layout, dir: seq<nat>)
    requires Keys(im, l, dir) && SameSlots(im, im', dir) && SameHeads(l, l')
    ensures Keys(im', l', dir)
  {
    assert forall b, i :: Slot(b, i) in l'.chains <==> Slot(b, i) in l.chains;
  }

  lemma NamesKeep(im: Image, im': Image, l: Layout, l': Layout, dir: seq<nat>)
    requires Keys(im, l, dir) && Names(im, l) && SameSlots(im, im', dir) && SameHeads(l, l')
    ensures Names(im', l')
  {
    assert forall b, i :: Slot(b, i) in l.chains ==> b in dir;
    forall n | n in l'.names
      ensures NameOk(n) && l'.names[n].Slot? && l'.names[n] in l'.chains && EntryOf(im', l'.names[n]).name == n
    {
      var o := l.names[n];
      assert o == Slot(o.blk, o.idx) && o in l.chains;
    }
  }

  lemma FrameKeep(im: Image, im': Image, l: Layout, l': Layout)
    requires Frame(im, l) && Shape(im') && FreeZero(im') && im'.bs == im.bs
    requires SameHeads(l, l') && l'.chains[Root] == l.chains[Root] && SameSlots(im, im', l.chains[Root])
    ensures Frame(im', l')
  {
    var dir := l.chains[Root];
    hide Packed, Keys, Names, Shape, FreeZero, SameSlots;
    PackedKeep(im, im', l, l', dir);
    KeysKeep(im, im', l, l', dir);
    NamesKeep(im, im', l, l', dir);
  }

  lemma BlockShape(im: Image, x: nat, blk: seq<Byte>)
    requires Shape(im) && FreeZero(im) && 1 <= x < |im.fat| && im.fat[x] != 0 && |blk| == im.bs
    ensures Shape(SetBlock(im, x, blk)) && FreeZero(SetBlock(im, x, blk))
  {
  }

  /** Writing inside a file's own block keeps the layout and every slot. */
  lemma WriteData(im: Image, l: Layout, o: Owner, x: nat, blk: seq<Byte>)
    requires Struct(im, l) && o in l.chains && o.Slot? && x in l.chains[o] && |blk| == im.bs
    ensures x < |im.blocks| && Struct(SetBlock(im, x, blk), l)
    ensures forall b, i :: b in l.chains[Root] ==> At(SetBlock(im, x, blk), b, i) == At(im, b, i)
  {
    hide Packed, Keys, Names, Forest, FreeZero;
    Member(im.fat, l.chains, o, x);
    var im' := SetBlock(im, x, blk);
    BlockShape(im, x, blk);
    assert forall b, i :: b in l.chains[Root] ==> At(im', b, i) == At(im, b, i);
    FrameKeep(im, im', l, l);
  }

  lemma LinkShape(im: Image, x: nat, y: nat)
    requires Shape(im) && FreeZero(im) && 1 <= x < |im.fat| && 1 <= y < |im.fat| && im.fat[y] != 0
    ensures var im' := SetFat(im, Link(im.fat, y, x));
            Shape(im') && FreeZero(im') && forall b, i :: At(im', b, i) == At(im, b, i)
  {
  }

  /** Linking a free block behind a file's chain keeps the layout. */
  lemma GrowFile(im: Image, l: Layout, o: Owner, x: nat)
    requires Struct(im, l) && o in l.chains && o.Slot? && l.chains[o] != []
    requires 1 <= x < |im.fat| && im.fat[x] == 0
    ensures var c := l.chains[o];
            var g := Link(im.fat, Last(c), x);
            Struct(SetFat(im, g), Longer(l, o, x)) && FreeCount(g) == FreeCount(im.fat) - 1
  {
    hide Packed, Keys, Names, Forest, Shape, FreeZero, At;
    var c := l.chains[o];
    Extend(im.fat, l.chains, o, x);
    Member(im.fat, l.chains, o, Last(c));
    LinkShape(im, x, Last(c));
    FrameKeep(im, SetFat(im, Link(im.fat, Last(c), x)), l, Longer(l, o, x));
  }

  lemma ZeroSlots(im: Image, x: nat)
    requires x < |im.blocks| && Zero(im.blocks[x])
    ensures forall i :: At(im, x, i).mark == 0
  {
  }

  lemma PackedGrow(im: Image, l: Layout, l': Layout, dir: seq<nat>, x: nat)
    requires dir != [] && Packed(im, l, dir) && im.bs < ENTRY_SIZE * l.used + ENTRY_SIZE && l'.used == 0
    requires x !in dir && forall i :: At(im, x, i).mark == 0
    ensures Packed(im, l', dir + [x])
  {
  }

  lemma KeysGrow(im: Image, l: Layout, l': Layout, dir: seq<nat>, x: nat)
    requires dir != [] && Keys(im, l, dir) && (forall i :: At(im, x, i).mark == 0)
    requires l'.chains.Keys == l.chains.Keys && forall o :: o in l.chains && o.Slot? ==> l'.chains[o] == l.chains[o]
    ensures Keys(im, l', dir + [x])
  {
  }

  lemma NamesGrow(im: Image, l: Layout, l': Layout)
    requires Names(im, l) && l'.chains.Keys == l.chains.Keys && l'.names == l.names
    ensures Names(im, l')
  {
    assert forall o :: o in l'.chains <==> o in l.chains;
  }

  /** Growing the directory by a free block: it is all zero, hence an empty directory block. */
  lemma GrowDirectory(im: Image, l: Layout, x: nat)
    requires Struct(im, l) && im.bs < ENTRY_SIZE * l.used + ENTRY_SIZE
    requires 1 <= x < |im.fat| && im.fat[x] == 0
    ensures var c := l.chains[Root];
            var g := Link(im.fat, Last(c), x);
            Struct(SetFat(im, g), Longer(l, Root, x).(used := 0))
            && FreeCount(g) == FreeCount(im.fat) - 1
  {
    var c := l.chains[Root];
    var l' := Longer(l, Root, x).(used := 0);
    var im' := SetFat(im, Link(im.fat, Last(c), x));
    assert Zero(im.blocks[x]);
    ZeroSlots(im, x);
    hide Packed, Keys, Names, Forest, Shape, FreeZero, At, Zero;
    Extend(im.fat, l.chains, Root, x);
    FreeUnowned(im.fat, l.chains, x);
    Member(im.fat, l.chains, Root, Last(c));
    LinkShape(im, x, Last(c));
    PackedKeep(im, im', l, l, c);
    KeysKeep(im, im', l, l, c);
    NamesKeep(im, im', l, l, c);
    PackedGrow(im', l, l', c, x);
    KeysGrow(im', l, l', c, x);
    NamesGrow(im', l, l');
  }

  /** Where a live slot is: in range, inside a directory block and inside no file. */
  lemma SlotRange(im: Image, l: Layout, o: Owner)
    requires Struct(im, l) && o in l.chains && o.Slot?
    ensures o.blk in l.chains[Root] && Live(EntryOf(im, o)) && 1 <= o.blk < |im.blocks| == |im.fat|
    ensures |im.blocks[o.blk]| == im.bs && ENTRY_SIZE * o.idx + ENTRY_SIZE <= im.bs && im.fat[o.blk] != 0
    ensures forall p :: p in l.chains && p != Root ==> o.blk !in l.chains[p]
    ensures EntryOf(im, o).first == Head(l.chains[o])
    ensures EntryOf(im, o).name in l.names && l.names[EntryOf(im, o).name] == o
  {
    hide Packed, Forest, FreeZero;
    assert o == Slot(o.blk, o.idx);
    Member(im.fat, l.chains, Root, o.blk);
  }

  /** An edit of one live entry that keeps its name and first block. */
  lemma EditEntry(im: Image, l: Layout, o: Owner, blk: seq<Byte>)
    requires Struct(im, l) && o in l.chains && o.Slot? && o.blk < |im.blocks|
    requires ENTRY_SIZE * o.idx + ENTRY_SIZE <= |im.blocks[o.blk]|
    requires OnlyEntry(im.blocks[o.blk], blk, o.idx) && |blk| == im.bs
    requires Read(blk, o.idx) == EntryOf(im, o).(size := Read(blk, o.idx).size)
    ensures Struct(SetBlock(im, o.blk, blk), l)
    ensures forall p :: p in l.chains && p != o ==> EntryOf(SetBlock(im, o.blk, blk), p) == EntryOf(im, p)
  {
    hide Packed, Keys, Names, Forest, At, OnlyEntry, Shape, FreeZero, Read, Live, Head, Chain, Owned;
    var im' := SetBlock(im, o.blk, blk);
    AtEdit(im, o.blk, o.idx, blk);
    SlotRange(im, l, o);
    BlockShape(im, o.blk, blk);
    FrameKeep(im, im', l, l);
  }

  /** Changing only the size field of a live entry. */
  lemma SetSize(im: Image, l: Layout, o: Owner, n: nat)
    requires Struct(im, l) && o in l.chains && o.Slot?
    ensures o.blk < |im.blocks| && ENTRY_SIZE * o.idx + ENTRY_SIZE <= |im.blocks[o.blk]|
    ensures var im' := SetBlock(im, o.blk, PutSize(im.blocks[o.blk], o.idx, n));
            && Struct(im', l)
            && EntryOf(im', o) == EntryOf(im, o).(size := n % 4294967296)
            && (forall p :: p in l.chains && p != o ==> EntryOf(im', p) == EntryOf(im, p))
  {
    hide Struct, OnlyEntry;
    SlotRange(im, l, o);
    var blk := PutSize(im.blocks[o.blk], o.idx, n);
    AtEdit(im, o.blk, o.idx, blk);
    EditEntry(im, l, o, blk);
  }

  /** All slots but (b, i) read the same. */
  ghost predicate OnlySlot(im: Image, im': Image, b: nat, i: nat) {
    forall c, j :: c != b || j != i ==> At(im', c, j) == At(im, c, j)
  }

  /** A slot add_root_entry may take: deleted, or the first one never used. */
  ghost predicate Vacant(im: Image, l: Layout, b: nat, i: nat)
    requires Root in l.chains && l.chains[Root] != []
  {
    && b in l.chains[Root] && ENTRY_SIZE * i + ENTRY_SIZE <= im.bs
    && (At(im, b, i).mark == DELETED || (At(im, b, i).mark == 0 && b == Last(l.chains[Root]) && i == l.used))
  }

  function Created(im: Image, l: Layout, b: nat, i: nat, name: seq<Byte>, c: seq<nat>): Layout {
    Layout(l.chains[Slot(b, i) := c], l.names[name := Slot(b, i)],
           if At(im, b, i).mark == 0 then l.used + 1 else l.used)
  }

  lemma PackedCreate(im: Image, im': Image, l: Layout, b: nat, i: nat, name: seq<Byte>, c: seq<nat>)
    requires Root in l.chains && l.chains[Root] != []
    requires Packed(im, l, l.chains[Root]) && Vacant(im, l, b, i) && OnlySlot(im, im', b, i) && im'.bs == im.bs
    requires At(im', b, i).mark != 0
    ensures Packed(im', Created(im, l, b, i, name, c), l.chains[Root])
  {
  }

  lemma KeysCreate(im: Image, im': Image, l: Layout, b: nat, i: nat, name: seq<Byte>, c: seq<nat>, dir: seq<nat>)
    requires Keys(im, l, dir) && b in dir && OnlySlot(im, im', b, i)
    requires Live(At(im', b, i)) && At(im', b, i).first == Head(c)
    ensures Keys(im', Created(im, l, b, i, name, c), dir)
  {
  }

  lemma NamesCreate(im: Image, im': Image, l: Layout, b: nat, i: nat, name: seq<Byte>, c: seq<nat>)
    requires Names(im, l) && OnlySlot(im, im', b, i) && Slot(b, i) !in l.chains
    requires name !in l.names && NameOk(name) && At(im', b, i).name == name
    ensures Names(im', Created(im, l, b, i, name, c))
  {
    var l' := Created(im, l, b, i, name, c);
    forall n | n in l'.names
      ensures NameOk(n) && l'.names[n].Slot? && l'.names[n] in l'.chains && EntryOf(im', l'.names[n]).name == n
    {
      if n != name {
        var o := l.names[n];
        assert o in l.chains && o != Slot(b, i) && o == Slot(o.blk, o.idx);
      }
    }
  }

  lemma NotYetLive(im: Image, l: Layout, b: nat, i: nat)
    requires Root in l.chains && l.chains[Root] != [] && Keys(im, l, l.chains[Root]) && Vacant(im, l, b, i)
    ensures Slot(b, i) !in l.chains && Limbo !in l.chains
  {
  }

  lemma AtRead(im: Image, b: nat, i: nat)
    requires b < |im.blocks| && ENTRY_SIZE * i + ENTRY_SIZE <= |im.blocks[b]|
    ensures At(im, b, i) == Read(im.blocks[b], i)
  {
  }

  lemma MarkOfName(name: seq<Byte>)
    requires NameOk(name)
    ensures name != [] && name[0] != 0 && name[0] != DELETED
  {
  }

  /** Filling a vacant slot with a new name hands it the pending chain. */
  lemma CreateEntry(im: Image, l: Layout, b: nat, i: nat, blk: seq<Byte>, name: seq<Byte>, c: seq<nat>)
    requires Frame(im, l) && Forest(im.fat, l.chains[Limbo := c]) && Vacant(im, l, b, i)
    requires b < |im.blocks| && ENTRY_SIZE * i + ENTRY_SIZE <= |im.blocks[b]|
    requires OnlyEntry(im.blocks[b], blk, i) && |blk| == im.bs
    requires NameOk(name) && name !in l.names
    requires Read(blk, i).mark == name[0] && Read(blk, i).name == name && Read(blk, i).first == Head(c)
    ensures Struct(SetBlock(im, b, blk), Created(im, l, b, i, name, c))
    ensures OnlySlot(im, SetBlock(im, b, blk), b, i)
    ensures Slot(b, i) !in l.chains
  {
    hide Packed, Keys, Names, Forest, OnlyEntry, Shape, FreeZero, Read, At, NameOk;
    var im' := SetBlock(im, b, blk);
    var dir := l.chains[Root];
    AtEdit(im, b, i, blk);
    AtRead(im, b, i);
    NotYetLive(im, l, b, i);
    Member(im.fat, l.chains[Limbo := c], Root, b);
    MarkOfName(name);
    BlockShape(im, b, blk);
    PackedCreate(im, im', l, b, i, name, c);
    KeysCreate(im, im', l, b, i, name, c, dir);
    NamesCreate(im, im', l, b, i, name, c);
    Rename(im.fat, l.chains[Limbo := c], Limbo, Slot(b, i));
    assert (l.chains[Limbo := c] - {Limbo})[Slot(b, i) := c] == l.chains[Slot(b, i) := c];
  }

  lemma NamesRename(im: Image, im': Image, l: Layout, o: Owner, old_: seq<Byte>, name: seq<Byte>)
    requires Names(im, l) && o.Slot? && o in l.chains && OnlySlot(im, im', o.blk, o.idx)
    requires old_ in l.names && l.names[old_] == o
    requires name !in l.names && NameOk(name) && EntryOf(im', o).name == name
    ensures Names(im', l.(names := (l.names - {old_})[name := o]))
  {
    var l' := l.(names := (l.names - {old_})[name := o]);
    hide NameOk, At;
    forall b, i | Slot(b, i) in l'.chains
      ensures At(im', b, i).name in l'.names && l'.names[At(im', b, i).name] == Slot(b, i)
    {
      if Slot(b, i) != o {
        var n := At(im, b, i).name;
        assert At(im', b, i).name == n && n in l.names && l.names[n] != o;
      }
    }
    forall n | n in l'.names
      ensures NameOk(n) && l'.names[n].Slot? && l'.names[n] in l'.chains && EntryOf(im', l'.names[n]).name == n
    {
      if n != name {
        var p := l.names[n];
        assert EntryOf(im, p).name == n;
        assert p != o;
      }
    }
  }

  lemma NameSlot(im: Image, l: Layout, name: seq<Byte>)
    requires Names(im, l) && name in l.names
    ensures l.names[name].Slot? && l.names[name] in l.chains && NameOk(name) && EntryOf(im, l.names[name]).name == name
  {
  }

  lemma LiveMark(name: seq<Byte>, blk: seq<Byte>, i: nat)
    requires NameOk(name) && ENTRY_SIZE * i + ENTRY_SIZE <= |blk| && Read(blk, i).mark == name[0]
    ensures Live(Read(blk, i))
  {
  }

  lemma MarkOnly(im: Image, im': Image, l: Layout, l': Layout, o: Owner)
    requires Root in l.chains && l.chains[Root] != [] && Packed(im, l, l.chains[Root]) && Keys(im, l, l.chains[Root])
    requires o.Slot? && o in l.chains && OnlySlot(im, im', o.blk, o.idx) && im'.bs == im.bs
    requires Live(EntryOf(im, o)) && Live(EntryOf(im', o)) && EntryOf(im', o).first == EntryOf(im, o).first
    requires l'.chains == l.chains && l'.used == l.used
    ensures Packed(im', l', l.chains[Root]) && Keys(im', l', l.chains[Root])
  {
    assert o == Slot(o.blk, o.idx);
  }

  /** Overwriting the name of a live entry by an unused one moves the file to that name. */
  lemma RenameEntry(im: Image, l: Layout, o: Owner, old_: seq<Byte>, name: seq<Byte>)
    requires Struct(im, l) && old_ in l.names && l.names[old_] == o
    requires NameOk(name) && name !in l.names
    ensures o in l.chains && o.Slot? && o.blk < |im.blocks| && ENTRY_SIZE * o.idx + ENTRY_SIZE <= |im.blocks[o.blk]|
    ensures var im' := SetBlock(im, o.blk, PutName(im.blocks[o.blk], o.idx, name));
            && Struct(im', l.(names := (l.names - {old_})[name := o]))
            && EntryOf(im', o).size == EntryOf(im, o).size
            && (forall p :: p in l.chains && p != o ==> EntryOf(im', p) == EntryOf(im, p))
  {
    hide Packed, Keys, Forest, At, OnlyEntry, Shape, FreeZero, Read, PutName, Live, Head, Chain, Owned, CString, NameOk;
    NameSlot(im, l, old_);
    SlotRange(im, l, o);
    MarkOfName(name);
    AtRead(im, o.blk, o.idx);
    LiveMark(name, PutName(im.blocks[o.blk], o.idx, name), o.idx);
    var blk := PutName(im.blocks[o.blk], o.idx, name);
    var im' := SetBlock(im, o.blk, blk);
    AtEdit(im, o.blk, o.idx, blk);
    var l' := l.(names := (l.names - {old_})[name := o]);
    hide Names;
    BlockShape(im, o.blk, blk);
    NamesRename(im, im', l, o, old_, name);
    MarkOnly(im, im', l, l', o);
  }

  function Removed(l: Layout, name: seq<Byte>): Layout
    requires name in l.names
  {
    l.(chains := l.chains - {l.names[name]}, names := l.names - {name})
  }

  /** The image after the entry of `name` is marked and its blocks are cleared and released. */
  ghost predicate RemovedFrom(im: Image, im': Image, o: Owner, c: seq<nat>)
    requires o.Slot? && ENTRY_SIZE * o.idx + ENTRY_SIZE <= im.bs && |im.blocks| == |im.fat|
    requires forall x :: 0 <= x < |im.blocks| ==> |im.blocks[x]| == im.bs
  {
    && im'.bs == im.bs && im'.fat == Clear(im.fat, c) && |im'.blocks| == |im.blocks|
    && (forall x :: 0 <= x < |im.blocks| ==> |im'.blocks[x]| == im.bs)
    && (forall x :: 0 <= x < |im.blocks| && x in c ==> Zero(im'.blocks[x]))
    && (forall x :: 0 <= x < |im.blocks| && x !in c ==>
          im'.blocks[x] == if x == o.blk then MarkDeleted(im.blocks[x], o.idx) else im.blocks[x])
  }

  lemma RemovedShape(im: Image, im': Image, o: Owner, c: seq<nat>)
    requires Shape(im) && FreeZero(im) && o.Slot? && ENTRY_SIZE * o.idx + ENTRY_SIZE <= im.bs
    requires RemovedFrom(im, im', o, c) && 0 !in c && o.blk < |im.fat| && im.fat[o.blk] != 0 && o.blk !in c
    ensures Shape(im') && FreeZero(im')
  {
  }

  lemma RemovedSlots(im: Image, im': Image, l: Layout, o: Owner, c: seq<nat>)
    requires Shape(im) && o.Slot? && ENTRY_SIZE * o.idx + ENTRY_SIZE <= im.bs
    requires Root in l.chains && forall x :: x in l.chains[Root] ==> x < |im.blocks| && x !in c
    requires RemovedFrom(im, im', o, c) && o.blk in l.chains[Root]
    ensures forall b, i :: b in l.chains[Root] && (b != o.blk || i != o.idx) ==> At(im', b, i) == At(im, b, i)
    ensures EntryOf(im', o).mark == DELETED
  {
    var b := o.blk;
    assert im'.blocks[b] == MarkDeleted(im.blocks[b], o.idx);
    assert OnlyEntry(im.blocks[b], im'.blocks[b], o.idx);
  }

  lemma RemovedDirectory(im: Image, im': Image, l: Layout, name: seq<Byte>)
    requires Root in l.chains && l.chains[Root] != [] && name in l.names
    requires Packed(im, l, l.chains[Root]) && Keys(im, l, l.chains[Root]) && Names(im, l)
    requires var o := l.names[name];
             && im'.bs == im.bs && EntryOf(im', o).mark == DELETED
             && forall b, i :: b in l.chains[Root] && (b != o.blk || i != o.idx) ==> At(im', b, i) == At(im, b, i)
    ensures var l' := Removed(l, name);
            Root in l'.chains && Packed(im', l', l.chains[Root]) && Keys(im', l', l.chains[Root]) && Names(im', l')
  {
    hide Packed, Keys, At, Live;
    assert l.names[name].Slot? && l.names[name] in l.chains && l.names[name] != Root;
    RemovedNames(im, im', l, name);
    RemovedPacked(im, im', l, name);
    RemovedKeys(im, im', l, name);
  }

  lemma RemovedPacked(im: Image, im': Image, l: Layout, name: seq<Byte>)
    requires Root in l.chains && l.chains[Root] != [] && name in l.names
    requires Packed(im, l, l.chains[Root]) && Keys(im, l, l.chains[Root]) && l.names[name].Slot?
    requires l.names[name] in l.chains
    requires var o := l.names[name];
             && im'.bs == im.bs && EntryOf(im', o).mark == DELETED
             && forall b, i :: b in l.chains[Root] && (b != o.blk || i != o.idx) ==> At(im', b, i) == At(im, b, i)
    ensures Packed(im', Removed(l, name), l.chains[Root])
  {
    var o := l.names[name];
    assert o == Slot(o.blk, o.idx);
    assert At(im, o.blk, o.idx).mark != 0;
    hide At, Keys;
  }

  lemma RemovedKeys(im: Image, im': Image, l: Layout, name: seq<Byte>)
    requires Root in l.chains && name in l.names
    requires Keys(im, l, l.chains[Root]) && l.names[name].Slot?
    requires var o := l.names[name];
             && EntryOf(im', o).mark == DELETED
             && forall b, i :: b in l.chains[Root] && (b != o.blk || i != o.idx) ==> At(im', b, i) == At(im, b, i)
    ensures Keys(im', Removed(l, name), l.chains[Root])
  {
    hide At;
    var o := l.names[name];
    assert o == Slot(o.blk, o.idx);
  }

  lemma RemovedNames(im: Image, im': Image, l: Layout, name: seq<Byte>)
    requires Root in l.chains && name in l.names
    requires Keys(im, l, l.chains[Root]) && Names(im, l)
    requires var o := l.names[name];
             forall b, i :: b in l.chains[Root] && (b != o.blk || i != o.idx) ==> At(im', b, i) == At(im, b, i)
    ensures Names(im', Removed(l, name))
  {
    hide NameOk, At;
    var o := l.names[name];
    var l' := Removed(l, name);
    assert o == Slot(o.blk, o.idx) && EntryOf(im, o).name == name;
    forall b, i | Slot(b, i) in l'.chains
      ensures At(im', b, i).name in l'.names && l'.names[At(im', b, i).name] == Slot(b, i)
    {
      assert Slot(b, i) in l.chains && Slot(b, i) != o;
    }
    forall n | n in l'.names
      ensures NameOk(n) && l'.names[n].Slot? && l'.names[n] in l'.chains && EntryOf(im', l'.names[n]).name == n
    {
      var p := l.names[n];
      assert EntryOf(im, p).name == n && p == Slot(p.blk, p.idx);
      assert p != o;
    }
  }

  lemma ChainCells(f: seq<nat>, ch: Chains, o: Owner)
    requires Forest(f, ch) && o in ch
    ensures forall x :: x in ch[o] ==> 1 <= x < |f| && f[x] != 0
    ensures forall p, x :: p in ch && p != o && x in ch[o] ==> x !in ch[p]
  {
    forall x | x in ch[o] ensures 1 <= x < |f| && f[x] != 0 {
      Member(f, ch, o, x);
    }
  }

  lemma SlotsInDirectory(im: Image, l: Layout)
    requires Root in l.chains && Keys(im, l, l.chains[Root])
    ensures forall p :: p in l.chains && p.Slot? ==> p.blk in l.chains[Root]
    ensures Limbo !in l.chains
  {
    forall p | p in l.chains && p.Slot? ensures p.blk in l.chains[Root] {
      assert p == Slot(p.blk, p.idx);
    }
  }

  /** Removing a file keeps the layout of all others. */
  lemma DeleteEntry(im: Image, im': Image, l: Layout, name: seq<Byte>, o: Owner, c: seq<nat>)
    requires Struct(im, l) && name in l.names && o == l.names[name]
    requires o in l.chains && o.Slot? && c == l.chains[o] && ENTRY_SIZE * o.idx + ENTRY_SIZE <= im.bs
    requires RemovedFrom(im, im', o, c)
    ensures Struct(im', Removed(l, name))
    ensures FreeCount(im'.fat) == FreeCount(im.fat) + |c|
    ensures forall b, i :: b in l.chains[Root] && (b != o.blk || i != o.idx) ==> At(im', b, i) == At(im, b, i)
  {
    hide Packed, Keys, Names, Shape, FreeZero, Forest, RemovedFrom, At, EntryOf, Live, Head, FreeCount, Clear, Cells;
    SlotRange(im, l, o);
    ChainCells(im.fat, l.chains, o);
    ChainCells(im.fat, l.chains, Root);
    BlockCount(im, im', o, c);
    RemovedShape(im, im', o, c);
    RemovedSlots(im, im', l, o, c);
    RemovedDirectory(im, im', l, name);
    Release(im.fat, l.chains, o);
  }

  lemma BlockCount(im: Image, im': Image, o: Owner, c: seq<nat>)
    requires Shape(im) && o.Slot? && ENTRY_SIZE * o.idx + ENTRY_SIZE <= im.bs
    requires RemovedFrom(im, im', o, c)
    ensures |im.blocks| == |im.fat| && im'.fat == Clear(im.fat, c) && im'.bs == im.bs
  {
  }

  /** The first `k` slots of block `b` do not hold a live entry called `name`. */
  ghost predicate NoMatch(im: Image, b: nat, name: seq<Byte>, k: nat) {
    forall j: nat :: j < k ==> !(Live(At(im, b, j)) && At(im, b, j).name == name)
  }

  /** A scan that has passed whole blocks and stopped at a never-used slot, or at
      the end of the directory, has seen every live entry. */
  lemma ScanComplete(im: Image, l: Layout, name: seq<Byte>, d: nat, stop: nat)
    requires Struct(im, l)
    requires var dir := l.chains[Root];
             && d <= |dir| && (forall e :: 0 <= e < d ==> NoMatch(im, dir[e], name, im.bs))
             && (d < |dir| ==> ENTRY_SIZE * stop + ENTRY_SIZE <= im.bs && At(im, dir[d], stop).mark == 0
                               && NoMatch(im, dir[d], name, stop))
    ensures name !in l.names
  {
    hide Forest, FreeZero;
    if name in l.names {
      var o := l.names[name];
      NameSlot(im, l, name);
      SlotRange(im, l, o);
      var dir := l.chains[Root];
      var e :| 0 <= e < |dir| && dir[e] == o.blk;
      assert At(im, dir[e], o.idx).name == name;
      if d < |dir| {
        assert dir[d] == Last(dir) && l.used <= stop;
        RootChain(im, l);
      }
    }
  }

  lemma RootChain(im: Image, l: Layout)
    requires Struct(im, l)
    ensures var dir := l.chains[Root];
            Chain(im.fat, dir) && forall i :: 0 <= i < |dir| && dir[i] == Last(dir) ==> i == |dir| - 1
  {
  }

  lemma DirBlock(im: Image, l: Layout, b: nat)
    requires Struct(im, l) && b in l.chains[Root]
    ensures 1 <= b < |im.blocks| == |im.fat| && |im.blocks[b]| == im.bs && im.bs % ENTRY_SIZE == 0
  {
    hide Packed, Keys, Names, FreeZero, Forest;
    Member(im.fat, l.chains, Root, b);
  }

  lemma LiveSlot(im: Image, l: Layout, b: nat, i: nat)
    requires Struct(im, l) && b in l.chains[Root] && Live(At(im, b, i))
    ensures Slot(b, i) in l.chains && 1 <= b && ENTRY_SIZE * i + ENTRY_SIZE <= im.bs
    ensures At(im, b, i).name in l.names && l.names[At(im, b, i).name] == Slot(b, i)
  {
    hide Packed, FreeZero, Forest;
    Member(im.fat, l.chains, Root, b);
  }

  // ---- add_root_entry ------------------------------------------------------

  /** The entry add_root_entry writes. */
  function Filled(b: seq<Byte>, i: nat, name: seq<Byte>, index: nat, size: nat, kind: Byte, perm: Byte): (r: seq<Byte>)
    requires ENTRY_SIZE * i + ENTRY_SIZE <= |b| && NameOk(name)
    ensures |r| == |b| && OnlyEntry(b, r, i)
    ensures Read(r, i) == Entry(name[0], name, size % 4294967296, index % 65536)
  {
    PutTypePerm(PutSize(PutFirst(PutName(b, i, name), i, index), i, size), i, kind, perm)
  }

  /** The first `k` slots of block `b` are in use. */
  ghost predicate AllLive(im: Image, b: nat, k: nat) {
    forall j: nat :: j < k && ENTRY_SIZE * j + ENTRY_SIZE <= im.bs ==> Live(At(im, b, j))
  }

  /** Slot i of the d-th directory block is the first one not in use. */
  ghost predicate FirstVacant(im: Image, dir: seq<nat>, d: nat, i: nat) {
    && d < |dir| && ENTRY_SIZE * i + ENTRY_SIZE <= im.bs && !Live(At(im, dir[d], i))
    && AllLive(im, dir[d], i) && forall e :: 0 <= e < d ==> AllLive(im, dir[e], im.bs)
  }

  lemma MakeFirstVacant(im: Image, dir: seq<nat>, d: nat, i: nat)
    requires d < |dir| && ENTRY_SIZE * i + ENTRY_SIZE <= im.bs && !Live(At(im, dir[d], i))
    requires AllLive(im, dir[d], i) && forall e :: 0 <= e < d ==> AllLive(im, dir[e], im.bs)
    ensures FirstVacant(im, dir, d, i)
  {
  }

  predicate LastSlot(im: Image, i: nat) {
    im.bs < ENTRY_SIZE * i + 2 * ENTRY_SIZE
  }

  /** The table after a last slot was filled: a new block, or END when none is free (x == -1). */
  function Relinked(f: seq<nat>, b: nat, x: int): seq<nat>
    requires b < |f| && x < |f|
  {
    if x < 0 then f[b := END] else Link(f, b, x)
  }

  /** The whole effect of add_root_entry once slot i of the d-th directory block is chosen. */
  ghost predicate EntryAdded(im: Image, im': Image, dir: seq<nat>, d: int, i: nat, x: int, name: seq<Byte>,
                             index: nat, size: nat, kind: Byte, perm: Byte) {
    && 0 <= d < |dir| && dir[d] < |im.blocks| == |im.fat| && ENTRY_SIZE * i + ENTRY_SIZE <= |im.blocks[dir[d]]|
    && NameOk(name)
    && im'.bs == im.bs && im'.blocks == im.blocks[dir[d] := Filled(im.blocks[dir[d]], i, name, index, size, kind, perm)]
    && (LastSlot(im, i) ==> if x == -1 then FreeSet(im.fat) == {} else x in FreeSet(im.fat))
    && im'.fat == if LastSlot(im, i) then Relinked(im.fat, dir[d], x) else im.fat
  }

  lemma FirstIsVacant(im: Image, l: Layout, d: nat, i: nat)
    requires Root in l.chains && l.chains[Root] != [] && Packed(im, l, l.chains[Root])
    requires FirstVacant(im, l.chains[Root], d, i)
    requires forall e :: 0 <= e < |l.chains[Root]| && l.chains[Root][e] == Last(l.chains[Root]) ==>
               e == |l.chains[Root]| - 1
    ensures Vacant(im, l, l.chains[Root][d], i)
    ensures LastSlot(im, i) && d == |l.chains[Root]| - 1 ==>
              im.bs < ENTRY_SIZE * (if At(im, l.chains[Root][d], i).mark == 0 then l.used + 1 else l.used) + ENTRY_SIZE
  {
    var b := l.chains[Root][d];
    assert b in l.chains[Root];
    assert l.used < i ==> Live(At(im, b, l.used));
  }

  /** The layout once the first vacant slot is filled. */
  function Placed(im: Image, l: Layout, d: nat, i: nat, name: seq<Byte>, c: seq<nat>, x: int): Layout
    requires Root in l.chains && d < |l.chains[Root]|
  {
    var l' := Created(im, l, l.chains[Root][d], i, name, c);
    if LastSlot(im, i) && 0 <= x then
      Longer(l', Root, x).(used := 0)
    else l'
  }

  /** add_root_entry keeps the layout unless it fills the last slot of a directory
      block that already has a successor. */
  lemma PlaceEntry(im: Image, l: Layout, d: nat, i: nat, name: seq<Byte>, blk: seq<Byte>, c: seq<nat>, x: int,
                   im': Image)
    requires Frame(im, l) && Forest(im.fat, l.chains[Limbo := c])
    requires d < |l.chains[Root]| && FirstVacant(im, l.chains[Root], d, i)
    requires NameOk(name) && name !in l.names
    requires l.chains[Root][d] < |im.blocks| == |im.fat|
    requires ENTRY_SIZE * i + ENTRY_SIZE <= |im.blocks[l.chains[Root][d]]|
    requires OnlyEntry(im.blocks[l.chains[Root][d]], blk, i) && |blk| == im.bs
    requires Read(blk, i).mark == name[0] && Read(blk, i).name == name && Read(blk, i).first == Head(c)
    requires LastSlot(im, i) ==> d == |l.chains[Root]| - 1
    requires LastSlot(im, i) ==> x == -1 || (1 <= x < |im.fat| && im.fat[x] == 0)
    requires im' == SetFat(SetBlock(im, l.chains[Root][d], blk),
                           if LastSlot(im, i) then Relinked(im.fat, l.chains[Root][d], x) else im.fat)
    ensures Struct(im', Placed(im, l, d, i, name, c, x))
    ensures OnlySlot(im, im', l.chains[Root][d], i) && Slot(l.chains[Root][d], i) !in l.chains
    ensures FreeCount(im'.fat) == FreeCount(im.fat) - if LastSlot(im, i) && 0 <= x then 1 else 0
  {
    hide Packed, Keys, Names, Forest, OnlyEntry, Shape, FreeZero, Read, At, NameOk, FirstVacant, Vacant, Live,
         FreeCount, Struct;
    var dir := l.chains[Root];
    var im1 := SetBlock(im, dir[d], blk);
    var l1 := Created(im, l, dir[d], i, name, c);
    PendingRoot(im, l, c);
    FirstIsVacant(im, l, d, i);
    CreateEntry(im, l, dir[d], i, blk, name, c);
    if LastSlot(im, i) {
      if x < 0 {
        assert im.fat[Last(dir)] == END;
        assert im' == im1;
      } else {
        GrowDirectory(im1, l1, x);
        SameAt(im1, im');
      }
    }
  }

  lemma SameAt(im: Image, im': Image)
    requires im'.blocks == im.blocks
    ensures forall b, i :: At(im', b, i) == At(im, b, i)
  {
  }

  lemma PendingRoot(im: Image, l: Layout, c: seq<nat>)
    requires Root in l.chains && l.chains[Root] != [] && Forest(im.fat, l.chains[Limbo := c])
    ensures var dir := l.chains[Root];
            Chain(im.fat, dir) && im.fat[Last(dir)] == END
            && forall i :: 0 <= i < |dir| && dir[i] == Last(dir) ==> i == |dir| - 1
  {
    var dir := l.chains[Limbo := c][Root];
    assert Chain(im.fat, dir);
    assert im.fat[dir[|dir| - 1]] == Next(dir, |dir| - 1);
  }

  lemma PendingDirectory(im: Image, l: Layout, c: seq<nat>)
    requires Frame(im, l) && Forest(im.fat, l.chains[Limbo := c])
    ensures Root in l.chains && l.chains[Root] != [] && l.chains[Root][0] == 1 && Chain(im.fat, l.chains[Root])
    ensures |im.fat| == |im.blocks| <= END && im.bs % ENTRY_SIZE == 0 && im.bs >= ENTRY_SIZE
    ensures forall x :: 0 <= x < |im.blocks| ==> |im.blocks[x]| == im.bs
  {
    hide Packed, Keys, Names, FreeZero;
    assert l.chains[Limbo := c][Root] == l.chains[Root];
  }

  lemma HeadFits(f: seq<nat>, ch: Chains, o: Owner)
    requires Forest(f, ch) && o in ch
    ensures Head(ch[o]) < 65536
  {
    assert Chain(f, ch[o]);
  }

  lemma AllLiveAll(im: Image, b: nat, k: nat)
    requires AllLive(im, b, k) && k == im.bs / ENTRY_SIZE
    ensures AllLive(im, b, im.bs)
  {
  }

  lemma PlaceAdded(im: Image, l: Layout, d: nat, i: nat, name: seq<Byte>, c: seq<nat>, x: int, im': Image,
                   index: nat, size: nat, kind: Byte, perm: Byte)
    requires Frame(im, l) && Forest(im.fat, l.chains[Limbo := c]) && index == Head(c)
    requires d < |l.chains[Root]| && FirstVacant(im, l.chains[Root], d, i) && name !in l.names
    requires LastSlot(im, i) ==> d == |l.chains[Root]| - 1
    requires EntryAdded(im, im', l.chains[Root], d, i, x, name, index, size, kind, perm)
    ensures Struct(im', Placed(im, l, d, i, name, c, x))
    ensures OnlySlot(im, im', l.chains[Root][d], i) && Slot(l.chains[Root][d], i) !in l.chains
    ensures FreeCount(im'.fat) == FreeCount(im.fat) - if LastSlot(im, i) && x != -1 then 1 else 0
  {
    hide Frame, Forest, OnlyEntry, Read, At, NameOk, FirstVacant, Live, FreeCount, Struct, Placed, OnlySlot,
         Relinked, Head, LastSlot;
    PendingDirectory(im, l, c);
    HeadFits(im.fat, l.chains[Limbo := c], Limbo);
    var b := l.chains[Root][d];
    PlaceEntry(im, l, d, i, name, Filled(im.blocks[b], i, name, index, size, kind, perm), c, x, im');
  }

  lemma FatCells(im: Image, l: Layout)
    requires Struct(im, l)
    ensures 0 < |im.fat| == |im.blocks| <= END
  {
  }

  // ---- giving an empty file its first block --------------------------------

  lemma KeysStart(im: Image, im': Image, l: Layout, o: Owner, x: nat, dir: seq<nat>)
    requires Keys(im, l, dir) && o in l.chains && o.Slot? && OnlySlot(im, im', o.blk, o.idx)
    requires EntryOf(im', o) == EntryOf(im, o).(first := x)
    ensures Keys(im', l.(chains := l.chains[o := [x]]), dir)
  {
    assert o == Slot(o.blk, o.idx);
  }

  lemma NamesStart(im: Image, im': Image, l: Layout, o: Owner, x: nat)
    requires Names(im, l) && o in l.chains && o.Slot? && OnlySlot(im, im', o.blk, o.idx)
    requires EntryOf(im', o) == EntryOf(im, o).(first := x)
    ensures Names(im', l.(chains := l.chains[o := [x]]))
  {
    assert o == Slot(o.blk, o.idx);
    hide At, NameOk;
    assert forall b, i :: At(im', b, i).name == At(im, b, i).name;
    forall n | n in l.names
      ensures NameOk(n) && l.names[n].Slot? && l.names[n] in l.chains && EntryOf(im', l.names[n]).name == n
    {
      assert EntryOf(im, l.names[n]).name == n;
    }
  }

  lemma PackedStart(im: Image, im': Image, l: Layout, o: Owner, x: nat, dir: seq<nat>)
    requires dir != [] && Packed(im, l, dir) && o.Slot? && OnlySlot(im, im', o.blk, o.idx) && im'.bs == im.bs
    requires EntryOf(im', o) == EntryOf(im, o).(first := x)
    ensures Packed(im', l.(chains := l.chains[o := [x]]), dir)
  {
  }

  lemma MarkShape(im: Image, x: nat)
    requires Shape(im) && FreeZero(im) && 1 <= x < |im.fat|
    ensures Shape(SetFat(im, im.fat[x := END])) && FreeZero(SetFat(im, im.fat[x := END]))
  {
  }

  /** An empty file takes a free block as its first. */
  lemma StartFile(im: Image, l: Layout, o: Owner, x: nat, blk: seq<Byte>)
    requires Struct(im, l) && o in l.chains && o.Slot? && l.chains[o] == []
    requires 1 <= x < |im.fat| && im.fat[x] == 0 && o.blk < |im.blocks| && |blk| == im.bs
    requires ENTRY_SIZE * o.idx + ENTRY_SIZE <= |im.blocks[o.blk]|
    requires OnlyEntry(im.blocks[o.blk], blk, o.idx) && Read(blk, o.idx) == EntryOf(im, o).(first := x)
    ensures var im' := SetBlock(SetFat(im, im.fat[x := END]), o.blk, blk);
            && Struct(im', l.(chains := l.chains[o := [x]]))
            && FreeCount(im'.fat) == FreeCount(im.fat) - 1
            && OnlySlot(im, im', o.blk, o.idx) && EntryOf(im', o) == EntryOf(im, o).(first := x)
  {
    hide Packed, Keys, Names, Forest, At, OnlyEntry, Shape, FreeZero, Read, FreeCount, Live;
    var im1 := SetFat(im, im.fat[x := END]);
    var im' := SetBlock(im1, o.blk, blk);
    var dir := l.chains[Root];
    SlotRange(im, l, o);
    Start(im.fat, l.chains, o, x);
    MarkShape(im, x);
    SameAt(im, im1);
    BlockShape(im1, o.blk, blk);
    AtEdit(im1, o.blk, o.idx, blk);
    PackedStart(im, im', l, o, x, dir);
    KeysStart(im, im', l, o, x, dir);
    NamesStart(im, im', l, o, x);
  }
}
