/**
 The two-cursor copy of copy_data, as an invariant on the image: the source
 cursor walks one chain while the destination chain is written and extended,
 and the two may be the chain of the same file.
 */
module FileCopy {
  import opened Bytes
  import opened FatTable
  import opened Disk
  import opened DiskSteps

  /** How a copy starts: append the first `size` bytes of `src` behind byte `at` of
      the last block of `dest`. */
  datatype Copy = Copy(im: Image, l: Layout, dest: Owner, src: Owner, at: nat, size: nat) {

    /** There is a block to write behind. */
    ghost predicate Begun() {
      Struct(im, l) && dest in l.chains && dest.Slot? && l.chains[dest] != [] && at <= im.bs
    }

    ghost predicate Pre() {
      && Begun() && src in l.chains && src.Slot? && l.chains[src] != []
      && 0 < size <= |Flat(im.blocks, l.chains[src])|
      && (src == dest ==> |Prefix(im.blocks, l.chains[dest], at)| == size)
    }

    /** The source up to byte `k` of its s-th block. */
    ghost function Read(s: nat, k: nat): seq<Byte>
      requires src in l.chains && s < |l.chains[src]|
    {
      Prefix(im.blocks, l.chains[src][..s + 1], k)
    }

    /** Only the tail of the destination's last block and blocks that were free have changed. */
    ghost predicate Tail(im': Image, l': Layout)
      requires dest in l.chains && dest in l'.chains && l.chains[dest] != []
    {
      var d0, d := l.chains[dest], l'.chains[dest];
      && d0 <= d && l' == l.(chains := l.chains[dest := d])
      && im'.bs == im.bs && |im'.blocks| == |im.blocks| && |im'.fat| == |im.fat|
      && (forall x :: 0 <= x < |im.blocks| && (x in Front(d0) || x !in d) ==> im'.blocks[x] == im.blocks[x])
      && Take(BlockAt(im'.blocks, Last(d0)), at) == Take(BlockAt(im.blocks, Last(d0)), at)
      && (forall x :: x in d && x !in d0 ==> x in FreeSet(im.fat))
      && (forall p :: p in l.chains ==> EntryOf(im', p) == EntryOf(im, p))
      && FreeCount(im'.fat) + |d| == FreeCount(im.fat) + |d0|
    }

    /** Cursors at byte `fi` of the s-th source block and byte `di` of the last
        destination block, with `left` bytes to go. */
    ghost predicate Inv(im': Image, l': Layout, s: nat, fi: nat, di: nat, left: nat)
      requires Pre()
    {
      && Struct(im', l') && dest in l'.chains && l'.chains[dest] != [] && Tail(im', l')
      && s < |l.chains[src]| && fi <= im.bs && di <= im.bs
      && (l'.chains[dest] == l.chains[dest] ==> at <= di)
      && Prefix(im'.blocks, l'.chains[dest], di) == Prefix(im.blocks, l.chains[dest], at) + Read(s, fi)
      && |Read(s, fi)| + left == size
    }
  }

  /** Where the cursors of a copy are. */
  lemma CopyPlace(k: Copy, im: Image, l: Layout, s: nat, fi: nat, di: nat, left: nat)
    requires k.Pre() && k.Inv(im, l, s, fi, di, left)
    ensures k.src in k.l.chains && s < |k.l.chains[k.src]| && fi <= im.bs && di <= im.bs
    ensures k.dest in l.chains && l.chains[k.dest] != []
  {
    hide Struct, Prefix, Flat;
  }

  lemma InvStruct(k: Copy, im: Image, l: Layout, s: nat, fi: nat, di: nat, left: nat)
    requires k.Pre() && k.Inv(im, l, s, fi, di, left)
    ensures Struct(im, l)
  {
    hide Struct, Prefix, Flat;
  }

  lemma ChainBlocks(im: Image, l: Layout, o: Owner)
    requires Struct(im, l) && o in l.chains
    ensures Chain(im.fat, l.chains[o]) && |im.fat| == |im.blocks| <= END && im.bs >= 256
    ensures forall x :: x in l.chains[o] ==> 1 <= x < |im.blocks| && |im.blocks[x]| == im.bs
    ensures forall i :: 0 <= i < |l.chains[o]| ==> l.chains[o][i] < |im.blocks|
    ensures forall x :: 0 <= x < |im.blocks| ==> |im.blocks[x]| == im.bs
    ensures forall p, x :: p in l.chains && p != o && x in l.chains[o] ==> x !in l.chains[p]
    ensures l.chains[o] != [] ==> 1 <= Head(l.chains[o])
    ensures l.chains[o] != [] ==> Last(l.chains[o]) in l.chains[o] && Last(l.chains[o]) !in Front(l.chains[o])
  {
    hide Packed, Keys, Names, FreeZero;
    ChainCells(im.fat, l.chains, o);
    assert Chain(im.fat, l.chains[o]);
  }

  lemma PrefixSize(im: Image, l: Layout, o: Owner, k: nat)
    requires Struct(im, l) && o in l.chains && l.chains[o] != [] && k <= im.bs
    ensures |Prefix(im.blocks, l.chains[o], k)| == (|l.chains[o]| - 1) * im.bs + k
  {
    hide Struct;
    ChainBlocks(im, l, o);
    PrefixLength(im.blocks, l.chains[o], k, im.bs);
  }

  /** What later lemmas use of a chain of the destination file. */
  lemma Growing(d0: seq<nat>, d: seq<nat>, i: nat)
    requires d0 <= d && i < |d0| && forall i, j :: 0 <= i < j < |d| ==> d[i] != d[j]
    ensures d[i] == d0[i] && d0[i] in d && (d0[i] == Last(d) ==> i == |d0| - 1 && d == d0)
    ensures i < |d0| - 1 ==> d0[i] in Front(d0)
  {
    if i < |d0| - 1 { assert Front(d0)[i] == d0[i]; }
  }

  /** The bytes about to be copied are still the ones the source had at the start;
      when both cursors are in one block they do not overlap. */
  lemma SourceIntact(k: Copy, im: Image, l: Layout, s: nat, fi: nat, di: nat, left: nat, n: nat)
    requires k.Pre() && k.Inv(im, l, s, fi, di, left) && n <= left && fi + n <= im.bs
    ensures var b := k.l.chains[k.src][s];
            && 1 <= b < |im.blocks| && |im.blocks[b]| == im.bs && |k.im.blocks| == |im.blocks|
            && |k.im.blocks[b]| == im.bs
            && im.blocks[b][fi..fi + n] == k.im.blocks[b][fi..fi + n]
            && (b == Last(l.chains[k.dest]) ==> fi + left <= di)
  {
    hide Struct, FreeCount, FreeSet, EntryOf, Prefix, Flat, Take, Chain;
    var sc, d0, d := k.l.chains[k.src], k.l.chains[k.dest], l.chains[k.dest];
    var b := sc[s];
    ChainBlocks(k.im, k.l, k.src);
    ChainBlocks(im, l, k.dest);
    ChainBlocks(im, l, k.src);
    assert b in sc;
    if k.src == k.dest {
      DistinctChain(im.fat, d);
      Growing(d0, d, s);
      if s == |sc| - 1 {
        SourceLast(k, im, l, fi, di, left, n);
      }
    }
  }

  lemma DistinctChain(f: seq<nat>, c: seq<nat>)
    requires Chain(f, c)
    ensures forall i, j :: 0 <= i < j < |c| ==> c[i] != c[j]
  {
  }

  lemma SourceLast(k: Copy, im: Image, l: Layout, fi: nat, di: nat, left: nat, n: nat)
    requires k.Pre() && k.src == k.dest
    requires var s := |k.l.chains[k.src]| - 1; k.Inv(im, l, s, fi, di, left) && n <= left && fi + n <= im.bs
    ensures var b := Last(k.l.chains[k.src]);
            && b < |im.blocks| == |k.im.blocks| && |im.blocks[b]| == im.bs && |k.im.blocks[b]| == im.bs
            && im.blocks[b][fi..fi + n] == k.im.blocks[b][fi..fi + n]
            && fi + left == k.at
  {
    hide Struct, FreeCount, FreeSet, EntryOf, Flat, Chain, Prefix, Take;
    var d0 := k.l.chains[k.dest];
    var b := Last(d0);
    ChainBlocks(k.im, k.l, k.dest);
    ChainBlocks(im, l, k.dest);
    assert b in d0;
    assert d0[..|d0|] == d0;
    PrefixSize(k.im, k.l, k.dest, fi);
    PrefixSize(k.im, k.l, k.dest, k.at);
    TakeSlice(im.blocks[b], k.im.blocks[b], k.at, fi, fi + n);
  }

  lemma TakeSlice(a: seq<Byte>, b: seq<Byte>, at: nat, lo: nat, hi: nat)
    requires |a| == |b| && lo <= hi <= at <= |a| && Take(a, at) == Take(b, at)
    ensures a[lo..hi] == b[lo..hi]
  {
    forall i | lo <= i < hi ensures a[i] == b[i] {
      assert a[i] == a[..at][i] && b[i] == b[..at][i];
    }
  }

  /** Copying a run of bytes moves both cursors over it. */
  lemma RunStep(k: Copy, im: Image, l: Layout, s: nat, fi: nat, di: nat, left: nat, run: seq<Byte>)
    requires k.Pre() && k.Inv(im, l, s, fi, di, left)
    requires |run| <= left && fi + |run| <= im.bs && di + |run| <= im.bs
    requires k.l.chains[k.src][s] < |im.blocks| && |im.blocks[k.l.chains[k.src][s]]| == im.bs
    requires run == im.blocks[k.l.chains[k.src][s]][fi..fi + |run|]
    ensures k.Inv(Overwrite(im, Last(l.chains[k.dest]), di, run), l, s, fi + |run|, di + |run|, left - |run|)
  {
    hide Struct, FreeCount, FreeSet, EntryOf, Flat, Chain, Prefix, Take, At;
    var h := Last(l.chains[k.dest]);
    ChainBlocks(im, l, k.dest);
    WriteData(im, l, k.dest, h, Splice(im.blocks[h], di, run));
    RunBytes(k, im, l, s, fi, di, left, run);
    RunTail(k, im, l, di, run);
  }

  lemma RunBytes(k: Copy, im: Image, l: Layout, s: nat, fi: nat, di: nat, left: nat, run: seq<Byte>)
    requires k.Pre() && k.Inv(im, l, s, fi, di, left)
    requires |run| <= left && fi + |run| <= im.bs && di + |run| <= im.bs
    requires k.l.chains[k.src][s] < |im.blocks| && |im.blocks[k.l.chains[k.src][s]]| == im.bs
    requires run == im.blocks[k.l.chains[k.src][s]][fi..fi + |run|]
    ensures k.Read(s, fi + |run|) == k.Read(s, fi) + run
    ensures Prefix(Overwrite(im, Last(l.chains[k.dest]), di, run).blocks, l.chains[k.dest], di + |run|) ==
            Prefix(k.im.blocks, k.l.chains[k.dest], k.at) + k.Read(s, fi) + run
  {
    hide Struct, FreeCount, FreeSet, EntryOf, Flat, Chain, Prefix, Take, At;
    SourceIntact(k, im, l, s, fi, di, left, |run|);
    ChainBlocks(im, l, k.dest);
    PrefixWrite(im.blocks, l.chains[k.dest], di, run);
    var c := k.l.chains[k.src][..s + 1];
    assert c != [] && Last(c) == k.l.chains[k.src][s];
    PrefixRead(k.im.blocks, c, fi, |run|);
  }

  lemma RunTail(k: Copy, im: Image, l: Layout, di: nat, run: seq<Byte>)
    requires k.Begun() && Struct(im, l) && k.dest in l.chains && l.chains[k.dest] != [] && k.Tail(im, l)
    requires l.chains[k.dest] == k.l.chains[k.dest] ==> k.at <= di
    requires di + |run| <= im.bs
    ensures k.Tail(Overwrite(im, Last(l.chains[k.dest]), di, run), l)
  {
    hide Struct, FreeCount, FreeSet, Flat, Chain, Prefix, At;
    var d0, d := k.l.chains[k.dest], l.chains[k.dest];
    var h := Last(d);
    ChainBlocks(im, l, k.dest);
    DistinctChain(im.fat, d);
    Growing(d0, d, |d0| - 1);
    assert forall x :: x in Front(d0) ==> x != h by { FrontOf(d0, d); }
    EntriesKeep(im, l, k.dest, h, Splice(im.blocks[h], di, run));
  }

  lemma FrontOf(d0: seq<nat>, d: seq<nat>)
    requires d0 <= d && d0 != [] && forall i, j :: 0 <= i < j < |d| ==> d[i] != d[j]
    ensures forall x :: x in Front(d0) ==> x != Last(d) && x in d
  {
    forall x | x in Front(d0) ensures x != Last(d) && x in d {
      var i :| 0 <= i < |Front(d0)| && Front(d0)[i] == x;
      assert d[i] == x;
    }
  }

  /** Writing a file block leaves every directory entry as it was. */
  lemma EntriesKeep(im: Image, l: Layout, o: Owner, x: nat, blk: seq<Byte>)
    requires Struct(im, l) && o in l.chains && o.Slot? && x in l.chains[o] && |blk| == im.bs
    ensures x < |im.blocks|
    ensures forall p :: p in l.chains ==> EntryOf(SetBlock(im, x, blk), p) == EntryOf(im, p)
  {
    hide Struct, At;
    WriteData(im, l, o, x, blk);
    SlotsOfStruct(im, l);
  }

  lemma SlotsOfStruct(im: Image, l: Layout)
    requires Struct(im, l)
    ensures Root in l.chains && l.chains[Root] != [] && Limbo !in l.chains
    ensures forall p :: p in l.chains && p.Slot? ==> p.blk in l.chains[Root]
  {
    hide Keys;
    SlotsInDirectory(im, l);
  }

  /** The last block of a file being extended ends its chain. */
  lemma TailEnd(k: Copy, im: Image, l: Layout)
    requires Struct(im, l) && k.dest in l.chains && l.chains[k.dest] != []
    ensures Last(l.chains[k.dest]) < |im.fat| && im.fat[Last(l.chains[k.dest])] == END
  {
    hide Struct, Chain;
    ChainBlocks(im, l, k.dest);
    LastIsEnd(im.fat, l.chains[k.dest]);
  }

  /** Bytes copied and bytes there is still room for add up to the room at the start: the bytes left
      exceed the room left by as much as the source exceeded it. */
  lemma CopyRoom(k: Copy, im: Image, l: Layout, s: nat, fi: nat, di: nat, left: nat)
    requires k.Pre() && k.Inv(im, l, s, fi, di, left)
    ensures k.size - left + (im.bs - di) + im.bs * FreeCount(im.fat) == (im.bs - k.at) + im.bs * FreeCount(k.im.fat)
    ensures im.bs == k.im.bs && left <= k.size
  {
    hide Struct, EntryOf, Flat, Chain, Prefix, Take, At, FreeCount, FreeSet;
    TailRoom(k, im, l, di, k.size - left);
  }

  lemma TailRoom(k: Copy, im: Image, l: Layout, cur: nat, n: nat)
    requires k.Begun() && Struct(im, l) && k.dest in l.chains && l.chains[k.dest] != [] && k.Tail(im, l) && cur <= im.bs
    requires |Prefix(im.blocks, l.chains[k.dest], cur)| == |Prefix(k.im.blocks, k.l.chains[k.dest], k.at)| + n
    ensures n + (im.bs - cur) + im.bs * FreeCount(im.fat) == (im.bs - k.at) + im.bs * FreeCount(k.im.fat)
    ensures im.bs == k.im.bs
  {
    hide Struct, EntryOf, Flat, Chain, Prefix, Take, At, FreeCount, FreeSet;
    PrefixSize(im, l, k.dest, cur);
    PrefixSize(k.im, k.l, k.dest, k.at);
    RoomSum(im.bs, |l.chains[k.dest]|, |k.l.chains[k.dest]|, FreeCount(im.fat), FreeCount(k.im.fat));
  }

  lemma RoomSum(bs: nat, c: nat, c0: nat, f: nat, f0: nat)
    requires f + c == f0 + c0
    ensures (c - 1) * bs + bs * f == (c0 - 1) * bs + bs * f0
  {
    assert (c - 1) * bs + bs * f == (c - 1 + f) * bs;
    assert (c0 - 1) * bs + bs * f0 == (c0 - 1 + f0) * bs;
  }

  /** Linking a free block behind a full last block moves the destination cursor to its start. */
  lemma GrowStep(k: Copy, im: Image, l: Layout, s: nat, fi: nat, left: nat, x: nat)
    requires k.Pre() && k.Inv(im, l, s, fi, im.bs, left) && 1 <= x < |im.fat| && im.fat[x] == 0
    ensures k.Inv(SetFat(im, Link(im.fat, Last(l.chains[k.dest]), x)), Longer(l, k.dest, x), s, fi, 0, left)
  {
    hide Struct, Flat, Chain, Prefix, Take, FreeCount, FreeSet, Link, EntryOf, Copy.Read;
    var d0, d := k.l.chains[k.dest], l.chains[k.dest];
    assert d0 <= d && im.bs == k.im.bs;
    hide Copy.Tail, Front, BlockAt, Last;
    ChainBlocks(im, l, k.dest);
    GrowFile(im, l, k.dest, x);
    GrowPrefix(im, l, k.dest, x);
    assert d0 <= d + [x] && d + [x] != d0;
    GrowTail(k, im, l, x);
  }

  lemma GrowPrefix(im: Image, l: Layout, o: Owner, x: nat)
    requires Struct(im, l) && o in l.chains && l.chains[o] != []
    ensures Prefix(im.blocks, l.chains[o], im.bs) == Prefix(im.blocks, l.chains[o] + [x], 0)
  {
    hide Struct, Chain, Flat, Prefix;
    ChainBlocks(im, l, o);
    PrefixFull(im.blocks, l.chains[o], x, im.bs);
  }

  lemma GrowTail(k: Copy, im: Image, l: Layout, x: nat)
    requires k.Begun() && Struct(im, l) && k.dest in l.chains && l.chains[k.dest] != [] && k.Tail(im, l)
    requires 1 <= x < |im.fat| && im.fat[x] == 0
    ensures k.Tail(SetFat(im, Link(im.fat, Last(l.chains[k.dest]), x)), Longer(l, k.dest, x))
  {
    hide Struct, Flat, Chain, Take, FreeCount, FreeSet, Link, At;
    var d0, d := k.l.chains[k.dest], l.chains[k.dest];
    GrowFile(im, l, k.dest, x);
    WasFree(k, im, l, x);
    var im' := SetFat(im, Link(im.fat, Last(d), x));
    SameAt(im, im');
    assert d0 <= d + [x];
    assert forall y :: y in Front(d0) ==> y in d0;
  }

  /** A block free now was free when the copy began. */
  lemma WasFree(k: Copy, im: Image, l: Layout, x: nat)
    requires k.Begun() && Struct(im, l) && k.dest in l.chains && l.chains[k.dest] != [] && k.Tail(im, l)
    requires 1 <= x < |im.fat| && im.fat[x] == 0
    ensures x in FreeSet(k.im.fat)
  {
    hide Frame, EntryOf;
    if k.im.fat[x] != 0 {
      var o :| o in k.l.chains && x in k.l.chains[o];
      assert x in l.chains[o];
      OwnedExactly(im.fat, l.chains, x);
    }
  }

  lemma LastIsEnd(f: seq<nat>, c: seq<nat>)
    requires Chain(f, c) && c != []
    ensures Last(c) < |f| && f[Last(c)] == END
  {
    assert f[c[|c| - 1]] == Next(c, |c| - 1);
  }

  /** A source block read to its end with bytes left has a successor. */
  lemma NextStep(k: Copy, im: Image, l: Layout, s: nat, di: nat, left: nat)
    requires k.Pre() && k.Inv(im, l, s, im.bs, di, left) && 0 < left
    ensures s + 1 < |k.l.chains[k.src]| && k.Inv(im, l, s + 1, 0, di, left)
    ensures k.l.chains[k.src][s] < |im.fat| && im.fat[k.l.chains[k.src][s]] == k.l.chains[k.src][s + 1]
  {
    hide Struct, Flat, Prefix, Take, FreeCount, FreeSet, Chain;
    var sc := k.l.chains[k.src];
    ChainBlocks(k.im, k.l, k.src);
    ChainBlocks(im, l, k.src);
    assert sc[s] in sc;
    var c := sc[..s + 1];
    PrefixFull(k.im.blocks, c, if s + 1 < |sc| then sc[s + 1] else 0, k.im.bs);
    assert s + 1 == |sc| ==> c == sc;
    assert sc[..s + 2] == c + [sc[s + 1]];
    StillLinked(im.fat, l.chains[k.src], sc, s);
  }

  lemma StillLinked(f: seq<nat>, c: seq<nat>, c0: seq<nat>, s: nat)
    requires Chain(f, c) && c0 <= c && s + 1 < |c0|
    ensures c0[s] < |f| && f[c0[s]] == c0[s + 1]
  {
    assert f[c[s]] == Next(c, s);
  }

  /** A copy may start with both cursors where copy_data puts them. */
  lemma StartCopy(k: Copy)
    requires k.Pre()
    ensures k.Inv(k.im, k.l, 0, 0, k.at, k.size)
  {
    hide Struct;
    assert k.l.chains[k.dest := k.l.chains[k.dest]] == k.l.chains;
    assert k.Read(0, 0) == [];
  }

  /** A copy with `left` bytes to go has appended exactly the source up to there. */
  lemma FinishCopy(k: Copy, im: Image, l: Layout, s: nat, fi: nat, di: nat, left: nat)
    requires k.Pre() && k.Inv(im, l, s, fi, di, left)
    ensures left <= k.size
    ensures Prefix(im.blocks, l.chains[k.dest], di) ==
            Prefix(k.im.blocks, k.l.chains[k.dest], k.at) + Take(Flat(k.im.blocks, k.l.chains[k.src]), k.size - left)
  {
    hide Struct, Prefix, Flat;
    PrefixOfFlat(k.im.blocks, k.l.chains[k.src], s, fi);
  }

  /** Where a copy ends: with no byte left it fitted, and with no room left it did not. */
  lemma CopyEnd(k: Copy, im: Image, l: Layout, s: nat, fi: nat, di: nat, left: nat, stuck: bool)
    requires k.Pre() && k.Inv(im, l, s, fi, di, left)
    requires if stuck then 0 < left && di == im.bs && FreeSet(im.fat) == {} else left == 0
    ensures left <= k.size && (stuck <==> k.size > k.im.bs - k.at + k.im.bs * FreeCount(k.im.fat))
    ensures k.dest in l.chains && l.chains[k.dest] != [] && k.Tail(im, l)
    ensures Prefix(im.blocks, l.chains[k.dest], di) ==
            Prefix(k.im.blocks, k.l.chains[k.dest], k.at) + Take(Flat(k.im.blocks, k.l.chains[k.src]), k.size - left)
  {
    hide Struct, Prefix, Flat, Take, Chain, Copy.Tail;
    FinishCopy(k, im, l, s, fi, di, left);
    CopyRoom(k, im, l, s, fi, di, left);
    if stuck { assert FreeCount(im.fat) == 0; }
    MulMono(0, FreeCount(im.fat), im.bs);
  }

  // ---- writing a buffer behind a chain -------------------------------------

  /** Where a write starts: behind byte `at` of the last block of a chain. */
  datatype Spot = Spot(im: Image, chain: seq<nat>, at: nat)

  /** Tables and blocks of matching sizes; nothing is said about the directory. */
  ghost predicate Plain(im: Image) {
    |im.fat| == |im.blocks| <= END && forall x :: 0 <= x < |im.blocks| ==> |im.blocks[x]| == im.bs
  }

  /** Outside `d` nothing differs from the image of the spot, and what `d` has beyond the spot's chain was free. */
  ghost predicate Beside(p: Spot, im: Image, d: seq<nat>) {
    && |im.fat| == |p.im.fat| && |im.blocks| == |p.im.blocks| && im.bs == p.im.bs
    && (forall x :: 0 <= x < |im.fat| && x !in d ==> im.fat[x] == p.im.fat[x])
    && (forall x :: 0 <= x < |im.blocks| && x !in d ==> im.blocks[x] == p.im.blocks[x])
    && (forall x :: x in d && x !in p.chain ==> x in FreeSet(p.im.fat))
  }

  /** `written` has been put at the spot; its chain grew to `d`, and the cursor is at byte `cur` of the last block. */
  ghost predicate Poured(p: Spot, im: Image, d: seq<nat>, cur: nat, written: seq<Byte>) {
    && Plain(p.im) && Plain(im) && p.chain != [] && p.chain <= d && Chain(im.fat, d) && Beside(p, im, d)
    && (forall x :: 0 <= x < |im.blocks| && x in Front(p.chain) ==> im.blocks[x] == p.im.blocks[x])
    && Take(BlockAt(im.blocks, Last(p.chain)), p.at) == Take(BlockAt(p.im.blocks, Last(p.chain)), p.at)
    && p.at <= im.bs && cur <= im.bs && (d == p.chain ==> p.at <= cur)
    && Prefix(im.blocks, d, cur) == Prefix(p.im.blocks, p.chain, p.at) + written
    && FreeCount(im.fat) + |d| == FreeCount(p.im.fat) + |p.chain|
  }

  lemma PourStart(p: Spot)
    requires Plain(p.im) && p.chain != [] && Chain(p.im.fat, p.chain) && p.at <= p.im.bs
    ensures Poured(p, p.im, p.chain, p.at, [])
  {
    hide FreeCount, Prefix, Take;
  }

  lemma PourLast(p: Spot, im: Image, d: seq<nat>, cur: nat, written: seq<Byte>)
    requires Poured(p, im, d, cur, written)
    ensures d != [] && 1 <= Last(d) < |im.fat| == |im.blocks| <= END && |im.blocks[Last(d)]| == im.bs
    ensures im.fat[Last(d)] == END && cur <= im.bs && im.bs == p.im.bs
    ensures |im.fat| == |p.im.fat| && im.fat[0] == p.im.fat[0]
  {
    LastIsEnd(im.fat, d);
    assert 0 !in d;
  }

  /** A run of bytes goes into the last block. */
  lemma PourStep(p: Spot, im: Image, d: seq<nat>, cur: nat, written: seq<Byte>, run: seq<Byte>)
    requires Poured(p, im, d, cur, written) && cur + |run| <= im.bs
    ensures d != [] && Poured(p, Overwrite(im, Last(d), cur, run), d, cur + |run|, written + run)
  {
    hide FreeCount, Prefix, Take, Chain, FreeSet;
    PourLast(p, im, d, cur, written);
    DistinctChain(im.fat, d);
    var h, d0 := Last(d), p.chain;
    FrontOf(d0, d);
    assert h !in Front(d) by { NotInFront(d); }
    PrefixWrite(im.blocks, d, cur, run);
    Growing(d0, d, |d0| - 1);
    if h == Last(d0) { TakeSplice(im.blocks[h], p.at, cur, run); }
    assert Prefix(p.im.blocks, d0, p.at) + written + run == Prefix(p.im.blocks, d0, p.at) + (written + run);
  }

  lemma NotInFront(d: seq<nat>)
    requires d != [] && forall i, j :: 0 <= i < j < |d| ==> d[i] != d[j]
    ensures Last(d) !in Front(d)
  {
  }

  lemma TakeSplice(b: seq<Byte>, at: nat, cur: nat, run: seq<Byte>)
    requires at <= cur && cur + |run| <= |b|
    ensures Take(Splice(b, cur, run), at) == Take(b, at)
  {
  }

  /** A free block is linked behind a full last one. */
  lemma PourGrow(p: Spot, im: Image, d: seq<nat>, written: seq<Byte>, x: nat)
    requires Poured(p, im, d, im.bs, written) && 1 <= x < |im.fat| && im.fat[x] == 0
    ensures d != [] && Poured(p, SetFat(im, Link(im.fat, Last(d), x)), d + [x], 0, written)
  {
    PourLast(p, im, d, im.bs, written);
    hide Prefix, Take, FreeCount, Chain, Plain;
    FreshCell(im.fat, d, x);
    GrownBeside(p, im, d, x);
    ChainExtend(im.fat, d, x);
    LinkedCells(im.fat, Last(d), x);
    PrefixFull(im.blocks, d, x, im.bs);
    LinkPlain(im, Last(d), x);
    hide Beside, Link, Front, FreeSet;
  }

  lemma LinkPlain(im: Image, b: nat, x: nat)
    requires Plain(im)
    ensures Plain(SetFat(im, Link(im.fat, b, x)))
  {
  }

  lemma GrownBeside(p: Spot, im: Image, d: seq<nat>, x: nat)
    requires Beside(p, im, d) && d != [] && 1 <= x < |im.fat| && im.fat[x] == 0 && x !in d
    ensures Beside(p, SetFat(im, Link(im.fat, Last(d), x)), d + [x])
  {
    assert x in FreeSet(p.im.fat) by { assert im.fat[x] == p.im.fat[x]; }
    assert Last(d) in d;
  }

  lemma FreshCell(f: seq<nat>, c: seq<nat>, x: nat)
    requires Chain(f, c) && x < |f| && f[x] == 0
    ensures x !in c
  {
  }

  /** Bytes written and bytes there is still room for add up to the room at the start. */
  lemma PourRoom(p: Spot, im: Image, d: seq<nat>, cur: nat, written: seq<Byte>)
    requires Poured(p, im, d, cur, written) && Chain(p.im.fat, p.chain)
    ensures |written| + (im.bs - cur) + im.bs * FreeCount(im.fat) == (im.bs - p.at) + im.bs * FreeCount(p.im.fat)
    ensures |written| == (|d| - |p.chain|) * im.bs + cur - p.at
  {
    hide Prefix, Take, FreeCount, FreeSet;
    PrefixLength(im.blocks, d, cur, im.bs);
    PrefixLength(p.im.blocks, p.chain, p.at, im.bs);
    RoomSum(im.bs, |d|, |p.chain|, FreeCount(im.fat), FreeCount(p.im.fat));
    assert (|d| - |p.chain|) * im.bs == (|d| - 1) * im.bs - (|p.chain| - 1) * im.bs;
  }

  // ---- writing behind a file -----------------------------------------------

  /** `written` has been put behind byte `at` of the destination's last block; the cursor
      is at byte `cur` of what is now its last block. */
  ghost predicate Writing(k: Copy, im: Image, l: Layout, cur: nat, written: seq<Byte>) {
    && k.Begun() && Struct(im, l) && k.dest in l.chains && l.chains[k.dest] != [] && k.Tail(im, l)
    && cur <= im.bs && (l.chains[k.dest] == k.l.chains[k.dest] ==> k.at <= cur)
    && Prefix(im.blocks, l.chains[k.dest], cur) == Prefix(k.im.blocks, k.l.chains[k.dest], k.at) + written
  }

  /** The layout once the chain of the destination is `d`. */
  function Regrown(k: Copy, d: seq<nat>): Layout {
    k.l.(chains := k.l.chains[k.dest := d])
  }

  ghost function SpotOf(k: Copy): Spot
    requires k.dest in k.l.chains
  {
    Spot(k.im, k.l.chains[k.dest], k.at)
  }

  lemma StartWriting(k: Copy)
    requires k.Begun()
    ensures Writing(k, k.im, k.l, k.at, [])
  {
    hide Struct;
    assert k.l.chains[k.dest := k.l.chains[k.dest]] == k.l.chains;
  }

  lemma StartPouring(k: Copy)
    requires k.Begun()
    ensures Poured(SpotOf(k), k.im, k.l.chains[k.dest], k.at, [])
  {
    hide Struct, Prefix, Take, FreeCount, Chain;
    ChainBlocks(k.im, k.l, k.dest);
    PourStart(SpotOf(k));
  }

  /** What is poured behind a file's chain is written behind the file: the layout grows with the chain. */
  lemma PouredWriting(k: Copy, im: Image, d: seq<nat>, cur: nat, written: seq<Byte>)
    requires k.Begun() && Poured(SpotOf(k), im, d, cur, written)
    ensures Writing(k, im, Regrown(k, d), cur, written)
  {
    hide Struct, Prefix, Take, FreeCount, FreeSet, Chain, Beside, Plain, Copy.Tail;
    PouredStruct(k, im, d, cur, written);
    PouredTail(k, im, d, cur, written);
  }

  /** Bytes written and bytes there is still room for add up to the room at the start. */
  lemma WriteRoom(k: Copy, im: Image, l: Layout, cur: nat, written: seq<Byte>)
    requires Writing(k, im, l, cur, written)
    ensures |written| + (im.bs - cur) + im.bs * FreeCount(im.fat) == (im.bs - k.at) + im.bs * FreeCount(k.im.fat)
    ensures im.bs == k.im.bs
  {
    hide Struct, Prefix, FreeCount, Copy.Tail;
    TailRoom(k, im, l, cur, |written|);
  }

  /** Other chains have not changed, nor have their blocks. */
  lemma BesideChain(p: Spot, im: Image, d: seq<nat>, ch: Chains, o: Owner, q: Owner)
    requires Forest(p.im.fat, ch) && o in ch && ch[o] == p.chain && Beside(p, im, d) && q in ch && q != o
    ensures Chain(im.fat, ch[q])
    ensures forall x :: x in ch[q] ==> x !in d && 1 <= x < |im.fat| && im.fat[x] == p.im.fat[x] != 0
    ensures forall x :: x in ch[q] && x < |im.blocks| ==> im.blocks[x] == p.im.blocks[x]
  {
    assert Chain(p.im.fat, ch[q]);
    ApartChain(p, im, d, ch[q]);
  }

  lemma ApartChain(p: Spot, im: Image, d: seq<nat>, c: seq<nat>)
    requires Beside(p, im, d) && Chain(p.im.fat, c) && forall x :: x in c ==> x !in p.chain
    ensures Chain(im.fat, c)
    ensures forall x :: x in c ==> x !in d && 1 <= x < |im.fat| && im.fat[x] == p.im.fat[x] != 0
    ensures forall x :: x in c && x < |im.blocks| ==> im.blocks[x] == p.im.blocks[x]
  {
    forall x | x in c ensures 1 <= x < |im.fat| && p.im.fat[x] != 0 {
      var i :| 0 <= i < |c| && c[i] == x;
      assert p.im.fat[c[i]] == Next(c, i);
    }
    ChainFrame(p.im.fat, im.fat, c);
  }

  lemma BesideForest(p: Spot, im: Image, d: seq<nat>, ch: Chains, o: Owner)
    requires Forest(p.im.fat, ch) && o in ch && ch[o] == p.chain && Beside(p, im, d) && p.chain <= d && Chain(im.fat, d)
    ensures Forest(im.fat, ch[o := d])
  {
    var ch' := ch[o := d];
    forall q | q in ch && q != o ensures Chain(im.fat, ch[q]) && forall x :: x in ch[q] ==> x !in d {
      BesideChain(p, im, d, ch, o, q);
    }
    forall y | 1 <= y < |im.fat| && im.fat[y] != 0 ensures Owned(ch', y) {
      if y in d {
        assert y in ch'[o];
      } else {
        assert Owned(ch, y);
        OwnedOther(ch, o, d, y);
      }
    }
  }

  lemma OwnedOther(ch: Chains, o: Owner, d: seq<nat>, y: nat)
    requires Owned(ch, y) && o in ch && ch[o] <= d && y !in d
    ensures Owned(ch[o := d], y)
  {
    var q :| q in ch && y in ch[q];
    assert q != o && y in ch[o := d][q];
  }

  lemma BesideShape(p: Spot, im: Image, d: seq<nat>)
    requires Shape(p.im) && FreeZero(p.im) && Plain(im) && Beside(p, im, d) && Chain(im.fat, d)
    ensures Shape(im) && FreeZero(im)
  {
    assert 0 !in d;
    forall x | 1 <= x < |im.fat| && im.fat[x] == 0 ensures Zero(im.blocks[x]) {
      FreshCell(im.fat, d, x);
    }
  }

  lemma PouredStruct(k: Copy, im: Image, d: seq<nat>, cur: nat, written: seq<Byte>)
    requires k.Begun() && Poured(SpotOf(k), im, d, cur, written)
    ensures Struct(im, Regrown(k, d)) && forall b, i :: b in k.l.chains[Root] ==> At(im, b, i) == At(k.im, b, i)
  {
    var p, dir := SpotOf(k), k.l.chains[Root];
    hide Packed, Keys, Names, Prefix, Take, FreeCount, FreeSet, Chain, Shape, FreeZero, Forest, At, SameHeads;
    BesideForest(p, im, d, k.l.chains, k.dest);
    BesideShape(p, im, d);
    BesideChain(p, im, d, k.l.chains, k.dest, Root);
    BesideSlots(p, im, d, dir);
    HeadKept(k, d);
    FrameKeep(k.im, im, k.l, Regrown(k, d));
  }

  lemma BesideSlots(p: Spot, im: Image, d: seq<nat>, dir: seq<nat>)
    requires Beside(p, im, d) && forall x :: x in dir ==> x !in d
    ensures forall b, i :: b in dir ==> At(im, b, i) == At(p.im, b, i)
  {
  }

  lemma HeadKept(k: Copy, d: seq<nat>)
    requires k.dest in k.l.chains && k.l.chains[k.dest] != [] && k.l.chains[k.dest] <= d
    ensures SameHeads(k.l, Regrown(k, d))
  {
  }

  lemma PouredTail(k: Copy, im: Image, d: seq<nat>, cur: nat, written: seq<Byte>)
    requires k.Begun() && Poured(SpotOf(k), im, d, cur, written)
    ensures k.Tail(im, Regrown(k, d))
  {
    hide Struct, Prefix, Take, FreeCount, FreeSet, Chain, At;
    var d0 := k.l.chains[k.dest];
    PouredStruct(k, im, d, cur, written);
    SlotsOfStruct(k.im, k.l);
    assert forall x :: x in Front(d0) ==> x in d0;
  }
}
