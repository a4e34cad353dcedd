/**
 The mounted image as a value, the layout a correct image has, and the map
 from names to byte strings that users of the file system see.
 */
module Disk {
  import opened Bytes
  import opened FatTable
  import opened Wrappers

  /** Block numbers index `blocks`; index 0 stands for the table itself and holds no data. */
  datatype Image = Image(bs: nat, fat: seq<nat>, blocks: seq<seq<Byte>>)

  /** Which chain each owner has, which slot each name has, and how many slots
      of the last directory block have ever been used. */
  datatype Layout = Layout(chains: Chains, names: map<seq<Byte>, Owner>, used: nat)

  /** get_block_size; -1 for an invalid configuration. */
  function BlockSizeOf(config: int): int {
    match config
    case 0 => 256
    case 1 => 512
    case 2 => 1024
    case 3 => 2048
    case 4 => 4096
    case _ => -1
  }

  /** Sizes agree with the superblock cell, whose low byte is the configuration
      and whose high byte is the number of table blocks. */
  ghost predicate Shape(im: Image) {
    && 0 < |im.fat| == |im.blocks| <= END
    && im.fat[0] % 256 <= 4 && im.bs == BlockSizeOf(im.fat[0] % 256)
    && 1 <= im.fat[0] / 256 <= 32 && |im.fat| == im.bs * (im.fat[0] / 256) / 2
    && (forall x :: 0 <= x < |im.blocks| ==> |im.blocks[x]| == im.bs)
  }

  /** The directory entry in slot `i` of block `b`. */
  function At(im: Image, b: nat, i: nat): Entry {
    if b < |im.blocks| && ENTRY_SIZE * i + ENTRY_SIZE <= |im.blocks[b]|
    then Read(im.blocks[b], i)
    else Entry(0, [], 0, 0)
  }

  function EntryOf(im: Image, o: Owner): Entry {
    if o.Slot? then At(im, o.blk, o.idx) else Entry(0, [], 0, 0)
  }

  ghost predicate Zero(b: seq<Byte>) {
    forall j :: 0 <= j < |b| ==> b[j] == 0
  }

  ghost predicate FreeZero(im: Image)
    requires |im.fat| == |im.blocks|
  {
    forall x :: 1 <= x < |im.fat| && im.fat[x] == 0 ==> Zero(im.blocks[x])
  }

  /** Slots fill up in order: every slot of the earlier directory blocks has been
      used, and exactly the first `used` of the last one. */
  ghost predicate Packed(im: Image, l: Layout, dir: seq<nat>)
    requires dir != []
  {
    && ENTRY_SIZE * l.used <= im.bs
    && forall b: nat, i: nat :: b in dir && ENTRY_SIZE * i + ENTRY_SIZE <= im.bs ==>
         (At(im, b, i).mark != 0 <==> b != Last(dir) || i < l.used)
  }

  /** The live slots are the owners of file chains, and each points at its chain. */
  ghost predicate Keys(im: Image, l: Layout, dir: seq<nat>) {
    && Limbo !in l.chains
    && (forall b, i :: Slot(b, i) in l.chains <==> b in dir && Live(At(im, b, i)))
    && (forall b, i :: Slot(b, i) in l.chains ==> At(im, b, i).first == Head(l.chains[Slot(b, i)]))
  }

  /** No two live slots have the same name. */
  ghost predicate Names(im: Image, l: Layout) {
    && (forall b, i :: Slot(b, i) in l.chains ==>
          At(im, b, i).name in l.names && l.names[At(im, b, i).name] == Slot(b, i))
    && (forall n :: n in l.names ==>
          NameOk(n) && l.names[n].Slot? && l.names[n] in l.chains && EntryOf(im, l.names[n]).name == n)
  }

  /** What must hold of the image apart from the shape of the table. */
  ghost predicate Frame(im: Image, l: Layout) {
    && Shape(im)
    && FreeZero(im)
    && Root in l.chains && l.chains[Root] != [] && l.chains[Root][0] == 1
    && Packed(im, l, l.chains[Root])
    && Keys(im, l, l.chains[Root])
    && Names(im, l)
  }

  /** Everything except that sizes match chain lengths. */
  ghost predicate Struct(im: Image, l: Layout) {
    Frame(im, l) && Forest(im.fat, l.chains)
  }

  /** A file uses the blocks its size needs and no more. */
  ghost predicate Tight(c: seq<nat>, size: nat, bs: nat) {
    if c == [] then size == 0 else (|c| - 1) * bs < size <= |c| * bs
  }

  ghost predicate AllTight(im: Image, l: Layout) {
    forall b, i :: Slot(b, i) in l.chains ==> Tight(l.chains[Slot(b, i)], At(im, b, i).size, im.bs)
  }

  ghost predicate Inv(im: Image, l: Layout) {
    Struct(im, l) && AllTight(im, l)
  }

  function Ceil(n: nat, bs: nat): nat
    requires bs > 0
  {
    (n + bs - 1) / bs
  }

  lemma TightCeil(c: seq<nat>, size: nat, bs: nat)
    requires bs > 0
    ensures Tight(c, size, bs) <==> |c| == Ceil(size, bs)
  {
    var k := |c|;
    var q, r := (size + bs - 1) / bs, (size + bs - 1) % bs;
    assert size + bs - 1 == q * bs + r;
    if k < q { MulMono(k + 1, q, bs); } else if q < k { MulMono(q + 1, k, bs); }
    assert (k - 1) * bs == k * bs - bs;
  }

  lemma MulMono(a: nat, b: nat, m: nat)
    requires a <= b
    ensures a * m <= b * m
  {
  }

  lemma DivUnique(n: nat, m: nat, q: nat, r: nat)
    requires n == q * m + r && r < m
    ensures n / m == q && n % m == r
  {
    var q', r' := n / m, n % m;
    assert n == q' * m + r';
    assert (q' + 1) * m == q' * m + m && (q + 1) * m == q * m + m;
    if q' < q { MulMono(q' + 1, q, m); }
    if q < q' { MulMono(q + 1, q', m); }
  }

  function BlockAt(blocks: seq<seq<Byte>>, x: nat): seq<Byte> {
    if x < |blocks| then blocks[x] else []
  }

  function Front(c: seq<nat>): seq<nat>
    requires c != []
  {
    c[..|c| - 1]
  }

  /** The bytes of the blocks of a chain, in order. */
  function Flat(blocks: seq<seq<Byte>>, c: seq<nat>): seq<Byte> {
    if c == [] then [] else Flat(blocks, Front(c)) + BlockAt(blocks, Last(c))
  }

  /** The bytes of a chain up to `k` bytes into its last block. */
  function Prefix(blocks: seq<seq<Byte>>, c: seq<nat>, k: nat): seq<Byte> {
    if c == [] then [] else Flat(blocks, Front(c)) + Take(BlockAt(blocks, Last(c)), k)
  }

  function Take<T>(s: seq<T>, n: nat): seq<T> {
    if n <= |s| then s[..n] else s
  }

  function Content(im: Image, c: seq<nat>, size: nat): seq<Byte> {
    Take(Flat(im.blocks, c), size)
  }

  /** What users see: a finite map from names to byte strings. */
  ghost function View(im: Image, l: Layout): map<seq<Byte>, seq<Byte>> {
    map n | n in l.names && l.names[n] in l.chains ::
      Content(im, l.chains[l.names[n]], EntryOf(im, l.names[n]).size)
  }

  lemma {:induction false} FlatFrame(a: seq<seq<Byte>>, b: seq<seq<Byte>>, c: seq<nat>)
    requires |a| == |b| && forall x :: x in c && x < |a| ==> a[x] == b[x]
    ensures Flat(a, c) == Flat(b, c)
  {
    if c != [] {
      FlatFrame(a, b, Front(c));
    }
  }

  lemma {:induction false} FlatLengthAny(a: seq<seq<Byte>>, c: seq<nat>, bs: nat)
    requires forall i :: 0 <= i < |c| ==> c[i] < |a|
    requires forall x :: 0 <= x < |a| ==> |a[x]| == bs
    ensures |Flat(a, c)| == |c| * bs
  {
    if c != [] {
      FlatLengthAny(a, c[..|c| - 1], bs);
      assert |c| * bs == (|c| - 1) * bs + bs;
    }
  }

  lemma FlatSnoc(a: seq<seq<Byte>>, c: seq<nat>, x: nat)
    ensures Flat(a, c + [x]) == Flat(a, c) + BlockAt(a, x)
  {
    assert Front(c + [x]) == c;
  }

  lemma {:induction false} FlatAppend(a: seq<seq<Byte>>, c: seq<nat>, d: seq<nat>)
    ensures Flat(a, c + d) == Flat(a, c) + Flat(a, d)
  {
    if d == [] {
      assert c + d == c;
    } else {
      hide Flat;
      var e, x := Front(d), Last(d);
      assert d == e + [x];
      assert c + d == (c + e) + [x];
      FlatAppend(a, c, e);
      FlatSnoc(a, c + e, x);
      FlatSnoc(a, e, x);
    }
  }

  // ---- bytes of a chain up to a cursor in its last block -------------------

  lemma PrefixFrame(a: seq<seq<Byte>>, b: seq<seq<Byte>>, c: seq<nat>, k: nat)
    requires |a| == |b| && c != [] && forall x :: x in Front(c) && x < |a| ==> a[x] == b[x]
    requires Take(BlockAt(a, Last(c)), k) == Take(BlockAt(b, Last(c)), k)
    ensures Prefix(a, c, k) == Prefix(b, c, k)
  {
    FlatFrame(a, b, Front(c));
  }

  /** A full last block is the same as an empty block behind it. */
  lemma PrefixFull(a: seq<seq<Byte>>, c: seq<nat>, x: nat, k: nat)
    requires c != [] && |BlockAt(a, Last(c))| == k
    ensures Prefix(a, c, k) == Flat(a, c) == Prefix(a, c + [x], 0)
  {
    assert Front(c + [x]) == c;
    assert Take(BlockAt(a, x), 0) == [];
  }

  lemma SpliceTake(b: seq<Byte>, k: nat, s: seq<Byte>)
    requires k + |s| <= |b|
    ensures Take(Splice(b, k, s), k + |s|) == Take(b, k) + s
  {
    var w, u := Take(Splice(b, k, s), k + |s|), Take(b, k) + s;
    assert forall i :: 0 <= i < |w| ==> w[i] == u[i];
  }

  /** Writing `s` at the cursor appends it. */
  lemma PrefixWrite(a: seq<seq<Byte>>, c: seq<nat>, k: nat, s: seq<Byte>)
    requires c != [] && Last(c) < |a| && k + |s| <= |a[Last(c)]| && Last(c) !in Front(c)
    ensures Prefix(a[Last(c) := Splice(a[Last(c)], k, s)], c, k + |s|) == Prefix(a, c, k) + s
  {
    FlatFrame(a, a[Last(c) := Splice(a[Last(c)], k, s)], Front(c));
    SpliceTake(a[Last(c)], k, s);
    hide Flat, Take, Splice;
    Assoc(Flat(a, Front(c)), Take(BlockAt(a, Last(c)), k), s);
  }

  /** Reading on from the cursor. */
  lemma PrefixRead(a: seq<seq<Byte>>, c: seq<nat>, k: nat, n: nat)
    requires c != [] && Last(c) < |a| && k + n <= |a[Last(c)]|
    ensures Prefix(a, c, k + n) == Prefix(a, c, k) + a[Last(c)][k..k + n]
  {
    assert a[Last(c)][..k + n] == a[Last(c)][..k] + a[Last(c)][k..k + n];
  }

  lemma FlatSplit(a: seq<seq<Byte>>, c: seq<nat>, s: nat)
    requires s < |c|
    ensures Flat(a, c) == Flat(a, c[..s]) + BlockAt(a, c[s]) + Flat(a, c[s + 1..])
  {
    hide Flat;
    assert c == c[..s + 1] + c[s + 1..];
    assert c[..s + 1] == c[..s] + [c[s]];
    FlatAppend(a, c[..s + 1], c[s + 1..]);
    FlatSnoc(a, c[..s], c[s]);
  }

  /** A cursor inside a chain sees a prefix of the whole chain. */
  lemma PrefixOfFlat(a: seq<seq<Byte>>, c: seq<nat>, s: nat, k: nat)
    requires s < |c|
    ensures Prefix(a, c[..s + 1], k) <= Flat(a, c)
  {
    hide Flat;
    FlatSplit(a, c, s);
    assert Front(c[..s + 1]) == c[..s] && Last(c[..s + 1]) == c[s];
    TakePrefix(Flat(a, c[..s]), BlockAt(a, c[s]), Flat(a, c[s + 1..]), k);
  }

  lemma TakePrefix(x: seq<Byte>, b: seq<Byte>, y: seq<Byte>, k: nat)
    ensures x + Take(b, k) <= x + b + y
  {
  }

  lemma PrefixLength(a: seq<seq<Byte>>, c: seq<nat>, k: nat, bs: nat)
    requires c != [] && k <= bs && forall i :: 0 <= i < |c| ==> c[i] < |a|
    requires forall x :: 0 <= x < |a| ==> |a[x]| == bs
    ensures |Prefix(a, c, k)| == (|c| - 1) * bs + k
  {
    FlatLengthAny(a, Front(c), bs);
  }
}
