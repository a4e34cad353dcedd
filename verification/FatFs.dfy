/**
 The mounted file system as an object: the table and the data blocks that
 helper.c updates in place, with the helper routines as methods.
 */
module FatFs {
  import opened Bytes
  import opened FatTable
  import opened Disk
  import opened DiskSteps
  import opened FileCopy
  import opened Views

  /** The value a 16-bit table cell holds after an int is stored in it; -1 becomes END. */
  function U16(x: int): nat {
    x % 65536
  }

  function ZeroFrom(b: seq<Byte>, k: nat): (r: seq<Byte>)
    requires k <= |b|
    ensures |r| == |b| && forall j :: 0 <= j < |b| ==> r[j] == if j < k then b[j] else 0
  {
    b[..k] + seq(|b| - k, _ => 0)
  }

  /** The blocks `c` become zero, the first one only from byte `filled` on. */
  function Wiped(d: seq<seq<Byte>>, c: seq<nat>, first: nat, filled: nat): (r: seq<seq<Byte>>)
    requires forall x :: 0 <= x < |d| ==> filled <= |d[x]|
    ensures |r| == |d|
  {
    seq(|d|, x requires 0 <= x < |d| =>
      if x in c then ZeroFrom(d[x], if x == first then filled else 0) else d[x])
  }

  lemma WipedIs(d: seq<seq<Byte>>, c: seq<nat>, first: nat, filled: nat)
    requires forall x :: 0 <= x < |d| ==> filled <= |d[x]|
    ensures forall x :: 0 <= x < |d| ==>
              Wiped(d, c, first, filled)[x] ==
              if x in c then ZeroFrom(d[x], if x == first then filled else 0) else d[x]
  {
  }

  lemma WipeNone(d: seq<seq<Byte>>, c: seq<nat>, first: nat, filled: nat)
    requires forall x :: 0 <= x < |d| ==> filled <= |d[x]|
    ensures Wiped(d, c[..0], first, filled) == d
  {
  }

  lemma WipeNext(d: seq<seq<Byte>>, c: seq<nat>, first: nat, filled: nat, i: nat)
    requires i < |c| && c[i] < |d| && c[i] !in c[..i] && forall x :: 0 <= x < |d| ==> filled <= |d[x]|
    ensures var w := Wiped(d, c[..i], first, filled);
            && w[c[i]] == d[c[i]]
            && Wiped(d, c[..i + 1], first, filled) ==
               w[c[i] := ZeroFrom(d[c[i]], if c[i] == first then filled else 0)]
  {
    hide ZeroFrom;
    assert c[..i + 1] == c[..i] + [c[i]];
  }

  lemma SpliceSnoc(b: seq<Byte>, at: nat, s: seq<Byte>, v: Byte)
    requires at + |s| < |b|
    ensures Splice(b, at, s)[at + |s| := v] == Splice(b, at, s + [v])
  {
  }

  /** fat_size / 2 in do_mkfs. */
  function FatEntries(numBlocks: nat, config: nat): int {
    BlockSizeOf(config) * numBlocks / 2
  }

  function Pow2(n: nat): nat {
    if n == 0 then 1 else 2 * Pow2(n - 1)
  }

  /** Each configuration doubles the block size of the one before, from 256 on, and a table block of
      that size holds half as many cells as it has bytes. */
  lemma Doubling(numBlocks: nat, config: nat)
    requires config <= 4
    ensures BlockSizeOf(config) == 256 * Pow2(config) && FatEntries(numBlocks, config) == numBlocks * 128 * Pow2(config)
    ensures config < 4 ==> BlockSizeOf(config + 1) == 2 * BlockSizeOf(config)
  {
    assert Pow2(1) == 2 && Pow2(2) == 4 && Pow2(3) == 8 && Pow2(4) == 16;
  }

  lemma EntriesEven(numBlocks: nat, config: nat)
    requires 1 <= numBlocks <= 32 && config <= 4
    ensures BlockSizeOf(config) in {256, 512, 1024, 2048, 4096} && 128 <= FatEntries(numBlocks, config) <= 65536
  {
  }

  /** Every accepted configuration keeps the end marker out of the block numbers but one. */
  lemma EntriesBelowEnd(numBlocks: nat, config: nat)
    requires 1 <= numBlocks <= 32 && config <= 4
    ensures FatEntries(numBlocks, config) <= END <==> !(numBlocks == 32 && config == 4)
  {
    EntriesEven(numBlocks, config);
  }

  /** A freshly made file system is an empty one. */
  lemma Formatted(im: Image, numBlocks: nat, config: nat)
    requires 1 <= numBlocks <= 32 && config <= 4 && FatEntries(numBlocks, config) <= END
    requires im.bs == BlockSizeOf(config) && |im.fat| == |im.blocks| == FatEntries(numBlocks, config)
    requires im.fat[0] == numBlocks * 256 + config && im.fat[1] == END
    requires forall x :: 2 <= x < |im.fat| ==> im.fat[x] == 0
    requires forall x :: 0 <= x < |im.blocks| ==> |im.blocks[x]| == im.bs && Zero(im.blocks[x])
    ensures var l := Layout(map[Root := [1]], map[], 0);
            Inv(im, l) && View(im, l) == map[] && FreeCount(im.fat) == |im.fat| - 2
  {
    hide At, Zero, FreeCount, BlockSizeOf;
    var l := Layout(map[Root := [1]], map[], 0);
    EntriesEven(numBlocks, config);
    ZeroSlots(im, 1);
    FormattedShape(im, numBlocks, config);
    FormattedForest(im.fat);
    FreshCount(im.fat, 2);
  }

  lemma FormattedShape(im: Image, numBlocks: nat, config: nat)
    requires 1 <= numBlocks <= 32 && config <= 4 && FatEntries(numBlocks, config) <= END
    requires im.bs == BlockSizeOf(config) && |im.fat| == |im.blocks| == FatEntries(numBlocks, config)
    requires im.fat[0] == numBlocks * 256 + config
    requires forall x :: 0 <= x < |im.blocks| ==> |im.blocks[x]| == im.bs
    ensures Shape(im)
  {
    EntriesEven(numBlocks, config);
  }

  lemma FormattedForest(f: seq<nat>)
    requires 1 < |f| <= END && f[1] == END && forall x :: 2 <= x < |f| ==> f[x] == 0
    ensures Forest(f, map[Root := [1]])
  {
    var ch: Chains := map[Root := [1]];
    forall x | 1 <= x < |f| && f[x] != 0 ensures Owned(ch, x) {
      assert x in ch[Root];
    }
  }

  /** When the cells from `k` on are the free ones, there are that many. */
  lemma {:induction false} FreshCount(f: seq<nat>, k: nat)
    requires 1 <= k <= |f| && forall x :: 1 <= x < |f| ==> (f[x] == 0 <==> k <= x)
    ensures FreeCount(f) == |f| - k
    decreases |f|
  {
    if |f| == k {
      assert FreeSet(f) == {};
    } else {
      var g := f[..|f| - 1];
      FreshCount(g, k);
      assert FreeSet(f) == FreeSet(g) + {|f| - 1};
    }
  }

  /** An empty file got the free block `head` as its first. */
  ghost predicate Opened(im: Image, l: Layout, im': Image, l': Layout, o: Owner, head: int) {
    && 1 <= head < |im.fat| && |im.fat| == |im.blocks| == |im'.blocks| && im.fat[head] == 0
    && l' == l.(chains := l.chains[o := [head]])
    && Zero(im'.blocks[head]) && |im'.blocks[head]| == im'.bs == im.bs
    && EntryOf(im', o) == EntryOf(im, o).(first := head)
    && Others(im, l, im', l', o) && FreeCount(im'.fat) == FreeCount(im.fat) - 1
    && (o.Slot? ==> forall x :: 0 <= x < |im.blocks| && x != o.blk ==> im'.blocks[x] == im.blocks[x])
  }

  lemma NoneFree(f: seq<nat>)
    ensures FreeSet(f) == {} <==> FreeCount(f) == 0
  {
  }

  lemma OneFree(f: seq<nat>, x: int)
    requires 1 <= x < |f| ==> f[x] == 0
    ensures 1 <= x < |f| ==> FreeSet(f) != {}
  {
    assert 1 <= x < |f| ==> x in FreeSet(f);
  }

  lemma FreeBlock(im: Image, l: Layout, x: nat)
    requires Struct(im, l) && 1 <= x < |im.fat| && im.fat[x] == 0
    ensures Zero(im.blocks[x]) && |im.blocks[x]| == im.bs && x !in l.chains[Root]
  {
    FreeUnowned(im.fat, l.chains, x);
  }

  lemma SetFatIs(im: Image, f: seq<nat>)
    ensures SetFat(im, f) == Image(im.bs, f, im.blocks)
  {
  }

  lemma LinkIs(f: seq<nat>, b: nat, x: nat)
    requires b < |f| && x < |f|
    ensures Link(f, b, x) == f[x := END][b := x]
  {
  }

  lemma LastSlotIs(im: Image, i: nat)
    requires im.bs % ENTRY_SIZE == 0 && i < im.bs / ENTRY_SIZE
    ensures LastSlot(im, i) <==> i == im.bs / ENTRY_SIZE - 1
    ensures ENTRY_SIZE * i + ENTRY_SIZE <= im.bs
  {
  }

  lemma NewIsFree(f: seq<nat>, x: int)
    ensures 1 <= x < |f| && f[x] == 0 <==> x in FreeSet(f)
  {
  }

  class Store {
    const fat: array<nat>
    const disk: array<seq<Byte>>
    const bs: nat         // get_block_size(get_config())
    const numBlocks: nat  // get_num_block()
    ghost var lay: Layout

    ghost function Img(): Image
      reads fat, disk
    {
      Image(bs, fat[..], disk[..])
    }

    ghost predicate Ok()
      reads this, fat, disk
    {
      Struct(Img(), lay) && fat[0] / 256 == numBlocks
    }

    /** do_mkfs followed by do_mount: the file is zero except for the superblock cell and
        the root directory's end marker. */
    constructor Mkfs(numBlocks: nat, config: nat)
      requires 1 <= numBlocks <= 32 && config <= 4 && FatEntries(numBlocks, config) <= END
      ensures fresh(fat) && fresh(disk) && Ok() && AllTight(Img(), lay)
      ensures bs == 256 * Pow2(config) && this.numBlocks == numBlocks && View(Img(), lay) == map[]
      ensures fat.Length == disk.Length == numBlocks * 128 * Pow2(config) && FreeCount(fat[..]) == fat.Length - 2
      ensures fat[0] == 256 * numBlocks + config && fat[1] == 0xFFFF && forall x :: 2 <= x < fat.Length ==> fat[x] == 0
      ensures forall x :: 0 <= x < disk.Length ==> disk[x] == seq(bs, _ => 0)
    {
      var blockSize := BlockSizeOf(config);
      var fatSize := blockSize * numBlocks;
      var entries := fatSize / 2;
      EntriesEven(numBlocks, config);
      Doubling(numBlocks, config);
      var f := new nat[entries](_ => 0);
      var d := new seq<Byte>[entries](_ => seq(blockSize, _ => 0));
      this.bs := blockSize;
      this.numBlocks := numBlocks;
      this.fat := f;
      this.disk := d;
      this.lay := Layout(map[Root := [1]], map[], 0);
      new;
      hide Struct, AllTight, View, FreeCount, BlockSizeOf, FatEntries, Pow2;
      WriteSuper(config);
    }

    /** The superblock cell and the end marker of the root directory. */
    method WriteSuper(config: nat)
      requires 1 <= numBlocks <= 32 && config <= 4 && FatEntries(numBlocks, config) <= END && bs == BlockSizeOf(config)
      requires fat.Length == disk.Length == FatEntries(numBlocks, config)
      requires forall x :: 0 <= x < fat.Length ==> fat[x] == 0
      requires forall x :: 0 <= x < disk.Length ==> |disk[x]| == bs && Zero(disk[x])
      requires lay == Layout(map[Root := [1]], map[], 0)
      modifies fat
      ensures Ok() && AllTight(Img(), lay) && View(Img(), lay) == map[] && FreeCount(fat[..]) == fat.Length - 2
      ensures fat[0] == 256 * numBlocks + config && fat[1] == 0xFFFF && forall x :: 2 <= x < fat.Length ==> fat[x] == 0
    {
      EntriesEven(numBlocks, config);
      hide Struct, AllTight, View, FreeCount, BlockSizeOf, Zero;
      fat[0] := numBlocks * 256 + config;
      fat[1] := END;
      Formatted(Img(), numBlocks, config);
    }

    // ---- offset arithmetic -------------------------------------------------

    function FatSize(): nat {
      numBlocks * bs
    }

    function BlockOffset(b: nat): int {
      FatSize() + bs * (b - 1)
    }

    function FindBlockIndex(offset: int): int
      requires bs > 0
    {
      (offset - FatSize()) / bs + 1
    }

    function FindEntryIndex(offset: int, blk: int): int {
      (offset - FatSize() - (blk - 1) * bs) / ENTRY_SIZE
    }

    /** The byte offset locate_file_entry reports for a slot. */
    function OffsetOf(o: Owner): int {
      if o.Slot? then ENTRY_SIZE * o.idx + BlockOffset(o.blk) else -1
    }

    /** Decoding the offset of byte `k` of block `b` gives back `b` and `k`. */
    lemma OffsetDecode(b: nat, k: nat)
      requires 1 <= b && k < bs
      ensures FindBlockIndex(BlockOffset(b) + k) == b
      ensures BlockOffset(b) + k >= FatSize() && (BlockOffset(b) + k - FatSize()) % bs == k
      ensures FindEntryIndex(BlockOffset(b) + k, b) == k / ENTRY_SIZE
    {
      var q := BlockOffset(b) + k - FatSize();
      assert q == (b - 1) * bs + k;
      DivUnique(q, bs, b - 1, k);
    }

    /** Block 1 lies right behind the table of two-byte cells, and each block behind the one before. */
    lemma BlockOffsets(b: nat)
      requires Ok() && 1 <= b
      ensures BlockOffset(1) == 2 * fat.Length && BlockOffset(b) == 2 * fat.Length + bs * (b - 1)
    {
      hide Forest, Packed, Names, Keys, FreeZero;
      var n := fat[0] / 256;
      assert bs % 2 == 0 && fat.Length == bs * n / 2;
      var h := bs / 2;
      assert bs * n == 2 * (h * n);
    }

    lemma SlotDecode(o: Owner)
      requires o.Slot? && 1 <= o.blk && ENTRY_SIZE * o.idx + ENTRY_SIZE <= bs
      ensures (numBlocks > 0 ==> OffsetOf(o) > 0) && OffsetOf(o) >= 0 && FindBlockIndex(OffsetOf(o)) == o.blk
      ensures FindEntryIndex(OffsetOf(o), o.blk) == o.idx
    {
      OffsetDecode(o.blk, ENTRY_SIZE * o.idx);
      if numBlocks > 0 {
        MulMono(1, numBlocks, bs);
      }
    }

    // ---- the table ---------------------------------------------------------

    method AddFatEntry() returns (index: int)
      requires 0 < fat.Length <= END
      modifies fat
      ensures index == -1 ==> fat[..] == old(fat[..]) && FreeSet(fat[..]) == {}
      ensures index != -1 ==> 1 <= index < fat.Length && old(fat[index]) == 0
                              && fat[..] == old(fat[..])[index := END]
                              && forall y :: 1 <= y < index ==> old(fat[y]) != 0
    {
      for i := 1 to fat.Length
        invariant fat[..] == old(fat[..])
        invariant forall y :: 1 <= y < i ==> fat[y] != 0
      {
        if fat[i] == 0 {
          fat[i] := END;
          return i;
        }
      }
      return -1;
    }

    method RemoveFatEntry(first: nat, ghost c: seq<nat>)
      requires fat.Length <= END && c != [] && first == c[0] && Chain(fat[..], c)
      modifies fat
      ensures fat[..] == Clear(old(fat[..]), c)
    {
      var index := first;
      ghost var i := 0;
      ghost var f := fat[..];
      while fat[index] != END
        invariant 0 <= i < |c| && index == c[i] && index < fat.Length
        invariant fat[..] == Clear(f, c[..i])
        decreases |c| - i
      {
        assert f[c[i]] == Next(c, i) && c[i] !in c[..i];
        var next := fat[index];
        fat[index] := 0;
        index := next;
        assert c[..i + 1] == c[..i] + [c[i]];
        i := i + 1;
      }
      assert f[c[i]] == Next(c, i) && c[i] !in c[..i];
      assert c == c[..i] + [c[i]];
      fat[index] := 0;
    }

    method GetLastBlock(first: nat, ghost c: seq<nat>) returns (index: nat)
      requires fat.Length <= END && c != [] && first == c[0] && Chain(fat[..], c)
      ensures index == Last(c)
    {
      index := first;
      ghost var i := 0;
      ghost var f := fat[..];
      while fat[index] != END
        invariant 0 <= i < |c| && index == c[i] && index < fat.Length
        decreases |c| - i
      {
        assert f[c[i]] == Next(c, i);
        index := fat[index];
        i := i + 1;
      }
      assert f[c[i]] == Next(c, i);
    }

    // ---- data blocks -------------------------------------------------------

    method ZeroBlock(b: nat, filled: nat)
      requires b < disk.Length && |disk[b]| == bs && filled <= bs
      modifies disk
      ensures disk[..] == old(disk[..])[b := ZeroFrom(old(disk[b]), filled)]
    {
      ghost var d := disk[..];
      var index := filled;
      while index < bs
        invariant filled <= index <= bs && disk.Length == |d|
        invariant |disk[b]| == bs
        invariant disk[..] == d[b := disk[b]]
        invariant forall j :: 0 <= j < bs ==> disk[b][j] == if filled <= j < index then 0 else d[b][j]
      {
        disk[b] := disk[b][index := 0];
        index := index + 1;
      }
      assert disk[b] == ZeroFrom(d[b], filled);
    }

    method RemoveData(filled: nat, first: nat, ghost c: seq<nat>)
      requires Shape(Img()) && c != [] && first == c[0] && Chain(fat[..], c) && filled <= bs
      modifies disk
      ensures forall x :: 0 <= x < disk.Length ==>
        |old(disk[x])| == bs &&
        disk[x] == if x !in c then old(disk[x]) else ZeroFrom(old(disk[x]), if x == first then filled else 0)
    {
      ghost var d := disk[..];
      assert |fat[..]| == |d| <= END && forall x :: 0 <= x < |d| ==> |d[x]| == bs;
      hide Shape, Chain, ZeroFrom;
      WipeChain(filled, first, c);
      WipedIs(d, c, first, filled);
    }

    method WipeChain(filled: nat, first: nat, ghost c: seq<nat>)
      requires c != [] && first == c[0] && Chain(fat[..], c) && filled <= bs && fat.Length == disk.Length <= END
      requires forall x :: 0 <= x < disk.Length ==> |disk[x]| == bs
      modifies disk
      ensures disk[..] == Wiped(old(disk[..]), c, first, filled)
    {
      hide Chain, Wiped, ZeroFrom;
      var head, from := first, filled;
      ghost var i := 0;
      ghost var d := disk[..];
      ghost var f := fat[..];
      WipeNone(d, c, first, filled);
      while head != END
        invariant 0 <= i <= |c| && head == (if i < |c| then c[i] else END) && from == (if i == 0 then filled else 0)
        invariant fat[..] == f && disk[..] == Wiped(d, c[..i], first, filled)
        decreases |c| - i
      {
        ChainNext(f, c, i);
        WipeNext(d, c, first, filled, i);
        ZeroBlock(head, from);
        head := fat[head];
        from := 0;
        i := i + 1;
      }
      if i < |c| { ChainNext(f, c, i); }
      assert c[..i] == c;
    }

    method AddData(buffer: seq<Byte>, blockOffset: int, fileFrom: nat, bufferFrom: nat, remain: nat, ghost b: nat)
      returns (count: nat)
      requires 1 <= b < disk.Length && blockOffset == BlockOffset(b)
      requires |disk[b]| == bs && 0 < bs && fileFrom <= bs && bufferFrom + remain <= |buffer|
      modifies disk
      ensures count == if remain <= bs - fileFrom then remain else bs - fileFrom
      ensures disk[..] == old(disk[..])[b := Splice(old(disk[b]), fileFrom, buffer[bufferFrom..bufferFrom + count])]
    {
      OffsetDecode(b, 0);
      var block := FindBlockIndex(blockOffset);
      ghost var d := disk[..];
      var r, to, from := remain, fileFrom, bufferFrom;
      count := 0;
      while to < bs && r > 0
        invariant count + r == remain && to == fileFrom + count <= bs && from == bufferFrom + count
        invariant disk.Length == |d| && |disk[b]| == bs
        invariant disk[..] == d[b := disk[b]]
        invariant disk[b] == Splice(d[b], fileFrom, buffer[bufferFrom..bufferFrom + count])
      {
        SpliceSnoc(d[b], fileFrom, buffer[bufferFrom..bufferFrom + count], buffer[from]);
        assert buffer[bufferFrom..bufferFrom + count + 1] ==
               buffer[bufferFrom..bufferFrom + count] + [buffer[from]];
        disk[block] := disk[block][to := buffer[from]];
        r := r - 1;
        from := from + 1;
        to := to + 1;
        count := count + 1;
      }
    }

    // ---- the directory -----------------------------------------------------

    /** One block of locate_file_entry: the matching slot, or where the scan of this block stopped. */
    method FindInBlock(b: nat, name: seq<Byte>) returns (found: int, stop: nat)
      requires b < disk.Length && |disk[b]| == bs && NameOk(name)
      ensures found >= 0 ==> Live(At(Img(), b, found)) && At(Img(), b, found).name == name
      ensures found < 0 ==> NoMatch(Img(), b, name, stop)
      ensures found < 0 ==> if ENTRY_SIZE * stop + ENTRY_SIZE <= bs then At(Img(), b, stop).mark == 0
                            else NoMatch(Img(), b, name, bs)
    {
      var numEntries := bs / ENTRY_SIZE;
      for i := 0 to numEntries
        invariant NoMatch(Img(), b, name, i)
      {
        var entry := Read(disk[b], i);
        assert entry == At(Img(), b, i);
        if entry.mark != 0 && entry.name == name {
          return i, i;
        }
        if entry.mark == 0 {
          return -1, i;
        }
      }
      return -1, numEntries;
    }

    method LocateFileEntry(name: seq<Byte>) returns (offset: int)
      requires Ok() && NameOk(name)
      ensures offset == if name in lay.names then OffsetOf(lay.names[name]) else -1
      ensures offset > 0 <==> name in lay.names
    {
      var cur := 1;
      ghost var d := 0;
      ghost var dir := lay.chains[Root];
      ghost var im := Img();
      RootChain(im, lay);
      assert numBlocks > 0;
      hide Frame, Forest, NoMatch;
      while cur != END
        invariant 0 <= d <= |dir| && cur == (if d < |dir| then dir[d] else END)
        invariant forall e :: 0 <= e < d ==> NoMatch(im, dir[e], name, bs)
        decreases |dir| - d
      {
        assert fat[dir[d]] == Next(dir, d);
        DirBlock(im, lay, cur);
        var found, stop := FindInBlock(cur, name);
        if found >= 0 {
          LiveSlot(im, lay, cur, found);
          SlotDecode(Slot(cur, found));
          return ENTRY_SIZE * found + BlockOffset(cur);
        }
        if ENTRY_SIZE * stop + ENTRY_SIZE <= bs {
          ScanComplete(im, lay, name, d, stop);
          return -1;
        }
        cur := fat[cur];
        d := d + 1;
      }
      ScanComplete(im, lay, name, d, 0);
      return -1;
    }

    /** The first slot of block `b` that is empty or deleted, or the number of slots. */
    method VacantInBlock(b: nat) returns (i: nat)
      requires b < disk.Length && |disk[b]| == bs
      ensures AllLive(Img(), b, i) && i <= bs / ENTRY_SIZE
      ensures i < bs / ENTRY_SIZE ==> !Live(At(Img(), b, i))
    {
      i := 0;
      while i < bs / ENTRY_SIZE
        invariant i <= bs / ENTRY_SIZE && AllLive(Img(), b, i)
      {
        var entry := Read(disk[b], i);
        assert entry == At(Img(), b, i);
        if entry.mark == 0 || entry.mark == DELETED {
          return;
        }
        i := i + 1;
      }
    }

    /** The store into the chosen slot; filling a block's last slot appends a directory block. */
    method FillSlot(cur: nat, slot: nat, name: seq<Byte>, index: nat, size: nat, kind: Byte, perm: Byte,
                    ghost dir: seq<nat>, ghost d: nat)
      returns (ghost x: int)
      requires NameOk(name) && 0 < fat.Length == disk.Length <= END && d < |dir| && cur == dir[d]
      requires 1 <= cur < disk.Length && |disk[cur]| == bs && bs % ENTRY_SIZE == 0 && slot < bs / ENTRY_SIZE
      requires fat[cur] != 0
      modifies fat, disk
      ensures EntryAdded(old(Img()), Img(), dir, d, slot, x, name, index, size, kind, perm)
    {
      LastSlotIs(Img(), slot);
      hide OnlyEntry, Read, NameOk, FreeSet, BlockSizeOf, Filled, LastSlot, Relinked;
      x := -1;
      ghost var im := Img();
      disk[cur] := Filled(disk[cur], slot, name, index, size, kind, perm);
      assert disk[..] == im.blocks[cur := Filled(im.blocks[cur], slot, name, index, size, kind, perm)];
      if slot == bs / ENTRY_SIZE - 1 {
        x := LinkDirectory(cur);
      }
    }

    /** A free block becomes the successor of `cur`, or the end marker when none is free. */
    method LinkDirectory(cur: nat) returns (x: int)
      requires 1 <= cur < fat.Length <= END && fat[cur] != 0
      modifies fat
      ensures x < fat.Length && fat[..] == Relinked(old(fat[..]), cur, x)
      ensures if x == -1 then FreeSet(old(fat[..])) == {} else x in FreeSet(old(fat[..]))
    {
      ghost var f := fat[..];
      x := AddFatEntry();
      NewIsFree(f, x);
      fat[cur] := U16(x);
    }

    /** The chosen slot is filled, and unless that cut off a successor the layout follows. */
    method TakeSlot(cur: nat, slot: nat, name: seq<Byte>, index: nat, size: nat, kind: Byte, perm: Byte,
                    ghost c: seq<nat>, ghost d: nat)
      returns (ghost x: int)
      requires Frame(Img(), lay) && Forest(fat[..], lay.chains[Limbo := c]) && index == Head(c)
      requires NameOk(name) && name !in lay.names
      requires d < |lay.chains[Root]| && cur == lay.chains[Root][d] && slot < bs / ENTRY_SIZE
      requires FirstVacant(Img(), lay.chains[Root], d, slot)
      modifies fat, disk, `lay
      ensures EntryAdded(old(Img()), Img(), old(lay).chains[Root], d, slot, x, name, index, size, kind, perm)
      ensures (LastSlot(Img(), slot) ==> d == |old(lay).chains[Root]| - 1) ==>
        && Struct(Img(), lay) && lay == Placed(old(Img()), old(lay), d, slot, name, c, x)
        && FreeCount(fat[..]) == old(FreeCount(fat[..])) - if LastSlot(Img(), slot) && x != -1 then 1 else 0
    {
      hide Frame, Struct, Forest, AllLive, Live, FreeCount, EntryAdded, At, NameOk, Placed, Relinked, FreeSet, Head,
           OnlySlot, Filled, FirstVacant, BlockSizeOf;
      ghost var im, l := Img(), lay;
      PendingDirectory(im, l, c);
      assert im.fat[l.chains[Root][d]] == Next(l.chains[Root], d);
      x := FillSlot(cur, slot, name, index, size, kind, perm, l.chains[Root], d);
      if LastSlot(im, slot) ==> d == |l.chains[Root]| - 1 {
        PlaceAdded(im, l, d, slot, name, c, x, Img(), index, size, kind, perm);
        lay := Placed(im, l, d, slot, name, c, x);
      }
    }

    /** add_root_entry: fills the first vacant slot, if there is one, and hands it the
        pending chain `c`. `d` tells which directory block was used (-1: none) and `x`
        which block the directory grew by. */
    method AddRootEntry(name: seq<Byte>, index: nat, size: nat, kind: Byte, perm: Byte, ghost c: seq<nat>)
      returns (ghost d: int, ghost i: nat, ghost x: int)
      requires Frame(Img(), lay) && Forest(fat[..], lay.chains[Limbo := c]) && index == Head(c)
      requires NameOk(name) && name !in lay.names
      modifies fat, disk, `lay
      ensures d == -1 ==> Img() == old(Img()) && lay == old(lay)
                          && forall e :: 0 <= e < |lay.chains[Root]| ==> AllLive(Img(), lay.chains[Root][e], bs)
      ensures d != -1 ==>
        && 0 <= d < |old(lay).chains[Root]| && FirstVacant(old(Img()), old(lay).chains[Root], d, i)
        && EntryAdded(old(Img()), Img(), old(lay).chains[Root], d, i, x, name, index, size, kind, perm)
      ensures d != -1 && (LastSlot(Img(), i) ==> d == |old(lay).chains[Root]| - 1) ==>
        && Struct(Img(), lay) && lay == Placed(old(Img()), old(lay), d, i, name, c, x)
        && FreeCount(fat[..]) == old(FreeCount(fat[..])) - if LastSlot(Img(), i) && x != -1 then 1 else 0
    {
      ghost var im := Img();
      ghost var l := lay;
      ghost var dir := lay.chains[Root];
      hide Frame, Struct, Forest, AllLive, Live, FreeCount, EntryAdded, At, NameOk, Placed, FreeSet, Head,
           FirstVacant, LastSlot;
      PendingDirectory(im, l, c);
      var cur := 1;
      d, i, x := 0, 0, -1;
      while cur != END
        invariant 0 <= d <= |dir| && cur == (if d < |dir| then dir[d] else END)
        invariant Img() == im && lay == l
        invariant forall e :: 0 <= e < d ==> AllLive(im, dir[e], bs)
        decreases |dir| - d
      {
        assert im.fat[dir[d]] == Next(dir, d);
        var slot := VacantInBlock(cur);
        if slot < bs / ENTRY_SIZE {
          i := slot;
          MakeFirstVacant(im, dir, d, i);
          x := TakeSlot(cur, slot, name, index, size, kind, perm, c, d);
          return;
        }
        AllLiveAll(im, cur, slot);
        cur := fat[cur];
        d := d + 1;
      }
      d := -1;
    }

    // ---- appending ---------------------------------------------------------

    /** fat[head] = add_fat_entry() behind the last block of a file. */
    method LinkNewBlock(head: nat, ghost o: Owner) returns (next: int)
      requires Ok() && o in lay.chains && o.Slot? && lay.chains[o] != [] && head == Last(lay.chains[o])
      requires head < fat.Length
      modifies fat, `lay
      ensures Ok() && (next == -1 <==> old(FreeSet(fat[..])) == {})
      ensures next == -1 ==> Img() == old(Img()) && lay == old(lay)
      ensures next != -1 ==>
        && 1 <= next < fat.Length && old(fat[next]) == 0
        && fat[..] == Link(old(fat[..]), head, next) && lay == Longer(old(lay), o, next)
    {
      hide Struct, Link, FreeSet, FreeCount, Last, Longer, SetFat, Chain;
      ghost var im := Img();
      FatCells(im, lay);
      ChainBlocks(im, lay, o);
      next := AddFatEntry();
      OneFree(im.fat, next);
      if next == -1 {
        return;
      }
      fat[head] := U16(next);
      LinkIs(im.fat, head, next);
      assert fat[..] == Link(im.fat, head, next);
      GrowFile(im, lay, o, next);
      assert SetFat(im, Link(im.fat, head, next)) == Img() by { SetFatIs(im, fat[..]); }
      lay := Longer(lay, o, next);
    }

    /** The next block to write: the successor of `head`, allocated if there is none. */
    method NextBlock(head: nat, ghost o: Owner) returns (next: int)
      requires Ok() && o in lay.chains && o.Slot? && lay.chains[o] != [] && head in lay.chains[o] && head < fat.Length
      requires fat[head] == END ==> head == Last(lay.chains[o])
      modifies fat, `lay
      ensures Ok()
      ensures old(fat[head]) != END ==> next == fat[head] && fat[..] == old(fat[..]) && lay == old(lay)
      ensures old(fat[head]) == END ==> (next == -1 <==> old(FreeSet(fat[..])) == {})
      ensures next == -1 ==> Img() == old(Img()) && lay == old(lay)
      ensures old(fat[head]) == END && next != -1 ==>
        && 1 <= next < fat.Length && old(fat[next]) == 0
        && fat[..] == Link(old(fat[..]), head, next) && lay == Longer(old(lay), o, next)
    {
      hide Struct, Link, FreeSet, FreeCount, Last, Longer;
      if fat[head] == END {
        next := LinkNewBlock(head, o);
      } else {
        next := fat[head];
      }
    }

    /** The inner loop of copy_data: bytes move until a block or the source ends. */
    method CopyRun(destHead: nat, fileHead: nat, destFrom: nat, fileFrom: nat, size: nat)
      returns (destIndex: nat, fileIndex: nat, fileSize: nat)
      requires destHead < disk.Length && fileHead < disk.Length
      requires |disk[destHead]| == bs && |disk[fileHead]| == bs && destFrom <= bs && fileFrom <= bs && 0 < size
      requires destHead == fileHead ==> fileFrom + size <= destFrom
      modifies disk
      ensures fileSize <= size && destIndex == destFrom + size - fileSize <= bs
      ensures fileIndex == fileFrom + size - fileSize <= bs
      ensures fileSize == 0 || destIndex == bs || fileIndex == bs
      ensures disk[..] ==
              old(disk[..])[destHead := Splice(old(disk[destHead]), destFrom, old(disk[fileHead])[fileFrom..fileIndex])]
    {
      ghost var d := disk[..];
      destIndex, fileIndex, fileSize := destFrom, fileFrom, size;
      while destIndex < bs && fileIndex < bs
        invariant 0 < fileSize <= size && destIndex == destFrom + size - fileSize <= bs
        invariant fileIndex == fileFrom + size - fileSize <= bs
        invariant disk.Length == |d| && |disk[destHead]| == bs
        invariant disk[..] == d[destHead := disk[destHead]]
        invariant disk[destHead] == Splice(d[destHead], destFrom, d[fileHead][fileFrom..fileIndex])
      {
        SpliceSnoc(d[destHead], destFrom, d[fileHead][fileFrom..fileIndex], d[fileHead][fileIndex]);
        assert d[fileHead][fileFrom..fileIndex + 1] == d[fileHead][fileFrom..fileIndex] + [d[fileHead][fileIndex]];
        assert disk[fileHead][fileIndex] == d[fileHead][fileIndex];
        disk[destHead] := disk[destHead][destIndex := disk[fileHead][fileIndex]];
        fileSize := fileSize - 1;
        destIndex := destIndex + 1;
        fileIndex := fileIndex + 1;
        if fileSize == 0 {
          return;
        }
      }
    }

    /** Moving the destination cursor of a copy to a new block; -1 when none is free. */
    method GrowDest(head: nat, ghost k: Copy, ghost s: nat, ghost fi: nat, ghost left: nat) returns (next: int)
      requires Ok() && k.Pre() && k.Inv(Img(), lay, s, fi, bs, left) && head == Last(lay.chains[k.dest])
      modifies fat, `lay
      ensures Ok()
      ensures next == -1 ==> Img() == old(Img()) && lay == old(lay) && FreeSet(fat[..]) == {}
      ensures next != -1 ==> k.Inv(Img(), lay, s, fi, 0, left) && next == Last(lay.chains[k.dest])
    {
      hide Struct, Prefix, Flat, Take, FreeSet, FreeCount, Chain, Link;
      ghost var im := Img();
      TailEnd(k, im, lay);
      ChainBlocks(im, lay, k.dest);
      next := NextBlock(head, k.dest);
      if next == -1 {
        return;
      }
      GrowStep(k, im, old(lay), s, fi, left, next);
      assert Img() == SetFat(im, Link(im.fat, head, next));
    }

    /** Moving the source cursor of a copy to the next block of its chain. */
    method NextSource(head: nat, ghost k: Copy, ghost s: nat, ghost di: nat, ghost left: nat) returns (next: nat)
      requires Ok() && k.Pre() && k.Inv(Img(), lay, s, bs, di, left) && 0 < left && head == k.l.chains[k.src][s]
      ensures s + 1 < |k.l.chains[k.src]| && next == k.l.chains[k.src][s + 1] && next != END
      ensures k.Inv(Img(), lay, s + 1, 0, di, left)
    {
      hide Struct, Prefix, Flat, Take, FreeSet, FreeCount, Chain;
      NextStep(k, Img(), lay, s, di, left);
      SourceIntact(k, Img(), lay, s + 1, 0, di, left, 0);
      FatCells(Img(), lay);
      next := fat[head];
    }

    /** One round of copy_data: a run of bytes, then whichever cursors reached the end of
        their block move on. `stuck` when the destination's has no block to move to. */
    method CopyRound(head: nat, source: nat, destFrom: nat, fileFrom: nat, size: nat, ghost k: Copy, ghost from: nat)
      returns (stuck: bool, destHead: nat, fileHead: nat, destIndex: nat, fileIndex: nat, fileSize: nat, ghost s: nat)
      requires Ok() && k.Pre() && k.Inv(Img(), lay, from, fileFrom, destFrom, size) && 0 < size && fileFrom < bs
      requires source == k.l.chains[k.src][from] && head == Last(lay.chains[k.dest])
      modifies fat, disk, `lay
      ensures Ok() && k.Inv(Img(), lay, s, fileIndex, destIndex, fileSize)
      ensures fileSize == 0 ==> 0 < destIndex && !stuck
      ensures stuck ==> destIndex == bs && FreeSet(fat[..]) == {}
      ensures 0 < fileSize && !stuck ==>
                && fileHead == k.l.chains[k.src][s] && fileHead != END && fileIndex < bs
                && destHead == Last(lay.chains[k.dest])
                && (fileSize < size || (fileSize == size && destFrom == bs && destIndex == 0))
    {
      hide Struct, FreeSet, FreeCount, Chain, Copy.Inv, Copy.Pre;
      stuck, destHead, fileHead, s := false, head, source, from;
      CopyPlace(k, Img(), lay, from, fileFrom, destFrom, size);
      destIndex, fileIndex, fileSize := CopySome(head, source, destFrom, fileFrom, size, k, from);
      if fileSize == 0 {
        return;
      }
      stuck, destHead, fileHead, destIndex, fileIndex, s :=
        Advance(head, source, destIndex, fileIndex, fileSize, k, from);
    }

    /** A run of bytes, as far as both blocks reach. */
    method CopySome(head: nat, source: nat, destFrom: nat, fileFrom: nat, size: nat, ghost k: Copy, ghost from: nat)
      returns (destIndex: nat, fileIndex: nat, fileSize: nat)
      requires Ok() && k.Pre() && k.Inv(Img(), lay, from, fileFrom, destFrom, size) && 0 < size
      requires source == k.l.chains[k.src][from] && head == Last(lay.chains[k.dest])
      modifies disk
      ensures Ok() && k.Inv(Img(), lay, from, fileIndex, destIndex, fileSize)
      ensures fileSize <= size && destIndex == destFrom + size - fileSize <= bs
      ensures fileIndex == fileFrom + size - fileSize <= bs
      ensures fileSize == 0 || destIndex == bs || fileIndex == bs
    {
      hide Struct, FreeSet, FreeCount, Chain, Copy.Inv, Copy.Pre;
      ghost var im := Img();
      CopyPlace(k, im, lay, from, fileFrom, destFrom, size);
      SourceIntact(k, im, lay, from, fileFrom, destFrom, size, 0);
      ChainBlocks(im, lay, k.dest);
      assert head in lay.chains[k.dest];
      destIndex, fileIndex, fileSize := CopyRun(head, source, destFrom, fileFrom, size);
      RunStep(k, im, lay, from, fileFrom, destFrom, size, im.blocks[source][fileFrom..fileIndex]);
      assert Img() == Overwrite(im, head, destFrom, im.blocks[source][fileFrom..fileIndex]);
      InvStruct(k, Img(), lay, from, fileIndex, destIndex, fileSize);
    }

    /** With bytes left, the cursors at the end of their block go to the next one. */
    method Advance(head: nat, source: nat, destFrom: nat, fileFrom: nat, size: nat, ghost k: Copy, ghost from: nat)
      returns (stuck: bool, destHead: nat, fileHead: nat, destIndex: nat, fileIndex: nat, ghost s: nat)
      requires Ok() && k.Pre() && k.Inv(Img(), lay, from, fileFrom, destFrom, size) && 0 < size
      requires fileFrom == bs || destFrom == bs
      requires from < |k.l.chains[k.src]| && source == k.l.chains[k.src][from]
      requires k.dest in lay.chains && lay.chains[k.dest] != [] && head == Last(lay.chains[k.dest])
      modifies fat, disk, `lay
      ensures Ok() && k.Inv(Img(), lay, s, fileIndex, destIndex, size)
      ensures stuck ==> destIndex == bs && FreeSet(fat[..]) == {}
      ensures !stuck ==> fileHead == k.l.chains[k.src][s] && fileHead != END && fileIndex < bs
      ensures !stuck ==> destHead == Last(lay.chains[k.dest]) && (destFrom == bs && fileFrom < bs ==> destIndex == 0)
    {
      hide Struct, Prefix, Flat, Take, FreeSet, FreeCount, Chain;
      stuck, destHead, fileHead, destIndex, fileIndex, s := false, head, source, destFrom, fileFrom, from;
      SourceIntact(k, Img(), lay, s, fileFrom, destFrom, size, 0);
      assert fileFrom <= bs;
      ChainBlocks(Img(), lay, k.dest);
      if destIndex == bs {
        var next := GrowDest(head, k, s, fileIndex, size);
        if next == -1 {
          stuck := true;
          return;
        }
        destHead, destIndex := next, 0;
      }
      if fileIndex == bs {
        fileHead := NextSource(source, k, s, destIndex, size);
        fileIndex, s := 0, s + 1;
      }
    }

    /** The outer loop of copy_data. It is stuck when the last block is full, bytes are left and no block is
        free: the original goes on at block number -1 then, and the model stops. That happens exactly
        when the source does not fit. */
    method CopyBlocks(head: nat, from: nat, source: nat, size: nat, ghost k: Copy)
      returns (stuck: bool, ghost di: nat, ghost left: nat)
      requires Ok() && k.Pre() && k.im == Img() && k.l == lay
      requires head == Last(lay.chains[k.dest]) && source == Head(lay.chains[k.src]) && from == k.at && size == k.size
      modifies fat, disk, `lay
      ensures Ok() && k.dest in lay.chains && lay.chains[k.dest] != [] && k.Tail(Img(), lay)
      ensures stuck <==> k.size > bs - k.at + bs * old(FreeCount(fat[..]))
      ensures 0 < di <= bs && left <= k.size && (stuck <==> 0 < left) && (stuck ==> di == bs && FreeSet(fat[..]) == {})
      ensures Prefix(disk[..], lay.chains[k.dest], di) ==
              Prefix(k.im.blocks, k.l.chains[k.dest], k.at) + Take(Flat(k.im.blocks, k.l.chains[k.src]), k.size - left)
    {
      hide Struct, Prefix, Flat, Take, FreeSet, FreeCount, Chain, Copy.Tail, Copy.Read;
      ChainBlocks(Img(), lay, k.dest);
      stuck := false;
      var destHead, fileHead := head, source;
      var destIndex: nat, fileIndex: nat, fileSize: nat := from, 0, size;
      ghost var s: nat := 0;
      di := from;
      StartCopy(k);
      SourceIntact(k, Img(), lay, 0, 0, from, size, 0);
      FatCells(Img(), lay);
      while fileHead != END
        invariant Ok() && k.Inv(Img(), lay, s, fileIndex, destIndex, fileSize) && 0 < fileSize
        invariant fileHead == k.l.chains[k.src][s] && destHead == Last(lay.chains[k.dest]) && fileIndex < bs
        invariant fileHead != END
        decreases fileSize, if destIndex == bs then 1 else 0
      {
        stuck, destHead, fileHead, destIndex, fileIndex, fileSize, s :=
          CopyRound(destHead, fileHead, destIndex, fileIndex, fileSize, k, s);
        if stuck || fileSize == 0 {
          CopyEnd(k, Img(), lay, s, fileIndex, destIndex, fileSize, stuck);
          di, left := destIndex, fileSize;
          return;
        }
      }
      assert false;
    }

    /** The byte offset just behind the data of a file, or -1 for a file without blocks. */
    method LocateEndOfFile(blk: nat, idx: nat, ghost c: seq<nat>) returns (offset: int)
      requires blk < disk.Length && ENTRY_SIZE * idx + ENTRY_SIZE <= |disk[blk]| && 0 < fat.Length <= END
      requires Chain(fat[..], c) && Read(disk[blk], idx).first == Head(c)
      ensures offset == if c == [] then -1
                        else BlockOffset(Last(c)) + Read(disk[blk], idx).size - bs * (|c| - 1)
    {
      hide Read;
      var head := Read(disk[blk], idx).first;
      if head == 0 {
        return -1;
      }
      var numBlocks := 0;
      while fat[head] != END
        invariant 0 <= numBlocks < |c| && head == c[numBlocks]
        decreases |c| - numBlocks
      {
        assert fat[..][c[numBlocks]] == Next(c, numBlocks);
        numBlocks := numBlocks + 1;
        head := fat[head];
      }
      assert fat[..][c[numBlocks]] == Next(c, numBlocks);
      offset := BlockOffset(head) + Read(disk[blk], idx).size - bs * numBlocks;
    }

    /** copy_data's first step for a destination without blocks. */
    method OpenEmpty(blk: nat, idx: nat, ghost o: Owner) returns (head: int)
      requires Ok() && o == Slot(blk, idx) && o in lay.chains && lay.chains[o] == []
      modifies fat, disk, `lay
      ensures Ok() && (head == -1 <==> old(FreeSet(fat[..])) == {})
      ensures head == -1 ==> Img() == old(Img()) && lay == old(lay)
      ensures head != -1 ==> Opened(old(Img()), old(lay), Img(), lay, o, head)
    {
      ghost var im := Img();
      hide Struct, Read, OnlyEntry, FreeSet, FreeCount, OnlySlot, At, Zero, Others, Live;
      FatCells(im, lay);
      SlotRange(im, lay, o);
      AtRead(im, blk, idx);
      head := AddFatEntry();
      OneFree(im.fat, head);
      if head == -1 {
        return;
      }
      FreeBlock(im, lay, head);
      disk[blk] := PutFirst(disk[blk], idx, head);
      StartFile(im, lay, o, head, disk[blk]);
      ghost var l' := lay.(chains := lay.chains[o := [head]]);
      assert Img() == SetBlock(SetFat(im, im.fat[head := END]), blk, disk[blk]);
      SlotOthers(im, lay, Img(), l', o, disk[blk]);
      lay := l';
    }

    /** Where a file's data ends in its last block, as a byte offset. */
    lemma OffsetEnd(b: nat, n: nat)
      requires 1 <= b && n <= bs && 0 < bs
      ensures (BlockOffset(b) + n - FatSize()) % bs == if n == bs then 0 else n
    {
      if n == bs {
        assert BlockOffset(b) + n == BlockOffset(b + 1);
        OffsetDecode(b + 1, 0);
      } else {
        OffsetDecode(b, n);
      }
    }

    /** copy_data: appends the data of the file in slot `p` behind that of slot `o`. It is stuck, with all blocks
        in use and `left` bytes to go, exactly when the source does not fit. */
    method CopyData(db: nat, di: nat, sb: nat, si: nat, ghost o: Owner, ghost p: Owner)
      returns (stuck: bool, ghost end: nat, ghost left: nat)
      requires Ok() && AllTight(Img(), lay) && o == Slot(db, di) && o in lay.chains && p == Slot(sb, si)
      requires p in lay.chains
      modifies fat, disk, `lay
      ensures Ok() && CopyOutcome(old(Img()), old(lay), Img(), lay, o, p, stuck, end, left)
    {
      ghost var im0, l0 := Img(), lay;
      hide Struct, Read, FreeCount, FreeSet, Flat, Prefix, Take, At, Zero, Chain, Live, Base, Room, Tight, AllTight,
           NameOk, CopyOutcome;
      stuck, end, left := false, bs, 0;
      SlotRange(im0, l0, o);
      SlotRange(im0, l0, p);
      AtRead(im0, db, di);
      AtRead(im0, sb, si);
      ChainBlocks(im0, l0, o);
      ChainBlocks(im0, l0, p);
      var destHead: int, fileHead := Read(disk[db], di).first, Read(disk[sb], si).first;
      if fileHead == 0 {
        CopiedNothing(im0, l0, o, p, end);
        return;
      }
      var fileSize := Read(disk[sb], si).size;
      if destHead == 0 {
        stuck, end, left := CopyToEmpty(db, di, fileHead, fileSize, o, p);
      } else {
        stuck, end, left := CopyToFile(db, di, destHead, fileHead, fileSize, o, p);
      }
    }

    /** The destination has no block yet. */
    method CopyToEmpty(db: nat, di: nat, fileHead: nat, fileSize: nat, ghost o: Owner, ghost p: Owner)
      returns (stuck: bool, ghost end: nat, ghost left: nat)
      requires Ok() && AllTight(Img(), lay) && o == Slot(db, di) && o in lay.chains && p in lay.chains && p.Slot?
      requires lay.chains[o] == [] && lay.chains[p] != []
      requires fileHead == Head(lay.chains[p]) && fileSize == EntryOf(Img(), p).size
      modifies fat, disk, `lay
      ensures Ok() && CopyOutcome(old(Img()), old(lay), Img(), lay, o, p, stuck, end, left)
    {
      hide Struct, Read, FreeCount, FreeSet, Flat, Prefix, Take, At, Zero, Chain, Live, Base, Room, Tight, AllTight,
           NameOk, CopyOutcome, Others;
      ghost var im0, l0 := Img(), lay;
      ChainBlocks(im0, l0, p);
      EndOfFile(im0, l0, p);
      var destHead := OpenEmpty(db, di, o);
      if destHead == -1 {
        CopyStuck(im0, l0, o, p, bs);
        return true, bs, fileSize;
      }
      ghost var im1, l1 := Img(), lay;
      CopyStartEmpty(im0, l0, im1, l1, o, p, destHead);
      stuck, end, left := CopyBehind(db, di, destHead, fileHead, fileSize, o, Copy(im1, l1, o, p, bs, fileSize));
      CopiedBehind(im0, l0, Copy(im1, l1, o, p, bs, fileSize), Img(), lay, o, p, stuck, end, left);
    }

    method CopyToFile(db: nat, di: nat, destHead: nat, fileHead: nat, fileSize: nat, ghost o: Owner, ghost p: Owner)
      returns (stuck: bool, ghost end: nat, ghost left: nat)
      requires Ok() && AllTight(Img(), lay) && o == Slot(db, di) && o in lay.chains && p in lay.chains && p.Slot?
      requires lay.chains[o] != [] && lay.chains[p] != [] && destHead == Head(lay.chains[o])
      requires fileHead == Head(lay.chains[p]) && fileSize == EntryOf(Img(), p).size
      modifies fat, disk, `lay
      ensures Ok() && CopyOutcome(old(Img()), old(lay), Img(), lay, o, p, stuck, end, left)
    {
      hide Struct, Read, FreeCount, FreeSet, Flat, Prefix, Take, At, Zero, Chain, Live, Base, Room, Tight, AllTight,
           NameOk, CopyOutcome, Others;
      ghost var im0, l0 := Img(), lay;
      CopyStart(im0, l0, o, p);
      SelfOthers(im0, l0, o);
      ghost var n := EntryOf(im0, o).size - bs * (|l0.chains[o]| - 1);
      stuck, end, left := CopyBehind(db, di, destHead, fileHead, fileSize, o, Copy(im0, l0, o, p, n, fileSize));
      CopiedBehind(im0, l0, Copy(im0, l0, o, p, n, fileSize), Img(), lay, o, p, stuck, end, left);
    }

    /** copy_data once the destination has a block: finds its end and runs the copy. */
    method CopyBehind(db: nat, di: nat, destHead: nat, fileHead: nat, fileSize: nat, ghost o: Owner, ghost k: Copy)
      returns (stuck: bool, ghost end: nat, ghost left: nat)
      requires Ok() && k.Pre() && k.im == Img() && k.l == lay && k.dest == o == Slot(db, di)
      requires destHead == Head(lay.chains[o]) && fileHead == Head(lay.chains[k.src]) && fileSize == k.size
      requires 0 < k.at && (k.at == bs || k.at == EntryOf(Img(), o).size - bs * (|lay.chains[o]| - 1))
      requires k.at == EntryOf(Img(), o).size - bs * (|lay.chains[o]| - 1) ||
               EntryOf(Img(), o).size == bs * (|lay.chains[o]| - 1)
      modifies fat, disk, `lay
      ensures Ok() && o in lay.chains && lay.chains[o] != [] && lay.names == k.l.names
      ensures Others(k.im, k.l, Img(), lay, o) && EntryOf(Img(), o) == EntryOf(k.im, o)
      ensures FreeCount(fat[..]) + |lay.chains[o]| == FreeCount(k.im.fat) + |k.l.chains[o]|
      ensures stuck <==> k.size > bs - k.at + bs * old(FreeCount(fat[..]))
      ensures 0 < end <= bs && left <= k.size && (stuck <==> 0 < left)
      ensures stuck ==> end == bs && FreeSet(fat[..]) == {}
      ensures Prefix(disk[..], lay.chains[o], end) ==
              Prefix(k.im.blocks, k.l.chains[o], k.at) + Take(Flat(k.im.blocks, k.l.chains[k.src]), k.size - left)
    {
      hide Struct, Read, FreeCount, FreeSet, Flat, Prefix, Take, At, Chain, Live;
      SlotRange(k.im, k.l, o);
      AtRead(k.im, db, di);
      ChainBlocks(k.im, k.l, o);
      var destOffset := LocateEndOfFile(db, di, lay.chains[o]);
      var head := GetLastBlock(destHead, lay.chains[o]);
      OffsetEnd(head, EntryOf(k.im, o).size - bs * (|lay.chains[o]| - 1));
      var destIndex := (destOffset - FatSize()) % bs;
      if destIndex == 0 {
        destIndex := bs;
      }
      stuck, end, left := CopyBlocks(head, destIndex, fileHead, fileSize, k);
      TailOthers(k, Img(), lay);
    }

    /** One add_data call of a write in progress. */
    method WriteRun(buffer: seq<Byte>, blockOffset: int, from: nat, filled: nat, n: nat, ghost p: Spot,
                    ghost c: seq<nat>)
      returns (fill: nat)
      requires filled + n == |buffer| && 0 < n && from < bs && Poured(p, Img(), c, from, buffer[..filled])
      requires c != [] && blockOffset == BlockOffset(Last(c))
      modifies disk
      ensures 0 < fill <= n && from + fill <= bs && (fill < n ==> from + fill == bs)
      ensures Poured(p, Img(), c, from + fill, buffer[..filled] + buffer[filled..filled + fill])
    {
      hide Poured, FatSize, BlockOffset;
      ghost var im := Img();
      PourLast(p, im, c, from, buffer[..filled]);
      fill := AddData(buffer, blockOffset, from, filled, n, Last(c));
      PourStep(p, im, c, from, buffer[..filled], buffer[filled..filled + fill]);
      assert Img() == Overwrite(im, Last(c), from, buffer[filled..filled + fill]);
    }

    /** A fresh block behind a full one, for a write in progress; -1 when none is free. */
    method WriteNext(prev: nat, ghost written: seq<Byte>, ghost p: Spot, ghost c: seq<nat>) returns (index: int)
      requires Poured(p, Img(), c, bs, written) && c != [] && prev == Last(c)
      modifies fat
      ensures index == -1 <==> old(FreeCount(fat[..])) == 0
      ensures index == -1 ==> fat[..] == old(fat[..])
      ensures index != -1 ==> 1 <= index && Poured(p, Img(), c + [index], 0, written)
    {
      hide Poured, FreeSet, FreeCount, Link;
      ghost var im := Img();
      PourLast(p, im, c, bs, written);
      index := AddFatEntry();
      OneFree(im.fat, index);
      NoneFree(im.fat);
      if index != -1 {
        fat[prev] := U16(index);
        LinkIs(im.fat, prev, index);
        assert fat[..] == Link(im.fat, prev, index);
        PourGrow(p, im, c, written, index);
        assert Img() == SetFat(im, Link(im.fat, prev, index)) by { SetFatIs(im, fat[..]); }
      }
    }

    /** The write loop of do_cat_append and of a new file: fills the last block of chain `c` from byte `start`,
        then one fresh block after another, as long as there are any. It asks nothing of the directory. */
    method WriteBuffer(buffer: seq<Byte>, first: nat, start: nat, ghost p: Spot, ghost c: seq<nat>)
      returns (ok: bool, ghost d: seq<nat>, ghost end: nat, ghost done: nat)
      requires c != [] && first == Last(c) && Poured(p, Img(), c, start, []) && (buffer != [] ==> start < bs)
      modifies fat, disk
      ensures done <= |buffer| && Poured(p, Img(), d, end, buffer[..done]) && (buffer != [] ==> 0 < end)
      ensures ok <==> done == |buffer|
      ensures !ok ==> end == bs && FreeCount(fat[..]) == 0
    {
      hide Poured, FreeSet, FreeCount, FatSize, BlockOffset, FindBlockIndex;
      PourLast(p, Img(), c, start, []);
      var n: nat, filled: nat, endPoint: nat := |buffer|, 0, start;
      var fileEndOffset := BlockOffset(first) + start;
      d, end := c, start;
      assert buffer[..0] == [];
      while n > 0
        invariant filled + n == |buffer| && (n > 0 ==> endPoint < bs && end == endPoint)
        invariant d != [] && Poured(p, Img(), d, end, buffer[..filled])
        invariant n > 0 ==> fileEndOffset == BlockOffset(Last(d)) + endPoint && 1 <= Last(d)
        invariant filled > 0 && n == 0 ==> 0 < end
      {
        var fill := WriteRun(buffer, fileEndOffset - endPoint, endPoint, filled, n, p, d);
        ghost var from := endPoint;
        end := endPoint + fill;
        assert buffer[..filled + fill] == buffer[..filled] + buffer[filled..filled + fill];
        filled := filled + fill;
        n := n - fill;
        if n > 0 {
          OffsetDecode(Last(d), from);
          var prev := FindBlockIndex(fileEndOffset);
          var index := WriteNext(prev, buffer[..filled], p, d);
          if index == -1 {
            return false, d, end, filled;
          }
          d := d + [index];
          fileEndOffset := BlockOffset(index);
          endPoint := 0;
          end := 0;
        }
      }
      assert buffer[..filled] == buffer;
      return true, d, end, filled;
    }
  }
}
