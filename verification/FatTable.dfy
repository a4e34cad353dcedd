/**
 The allocation table: cell x holds 0 when block x is free, END when x is the
 last block of a chain, and otherwise the number of the next block. Cell 0 is
 the superblock and lies on no chain.
 */
module FatTable {

  const END := 65535  // MAX_INDEX

  /** Who a chain belongs to: the root directory, a file being created, or a directory slot. */
  datatype Owner = Root | Limbo | Slot(blk: nat, idx: nat)

  type Chains = map<Owner, seq<nat>>

  function Head(c: seq<nat>): nat {
    if c == [] then 0 else c[0]
  }

  function Next(c: seq<nat>, i: nat): nat {
    if i + 1 < |c| then c[i + 1] else END
  }

  function Last(c: seq<nat>): nat
    requires c != []
  {
    c[|c| - 1]
  }

  /** `c` is a whole chain of table `f`, acyclic and ending in END; [] is the chain of an empty file. */
  ghost predicate Chain(f: seq<nat>, c: seq<nat>) {
    && (forall i :: 0 <= i < |c| ==> 1 <= c[i] < |f|)
    && (forall i {:trigger f[c[i]]} :: 0 <= i < |c| ==> f[c[i]] == Next(c, i))
    && (forall i, j :: 0 <= i < j < |c| ==> c[i] != c[j])
  }

  lemma ChainNext(f: seq<nat>, c: seq<nat>, i: nat)
    requires Chain(f, c) && i < |c|
    ensures 1 <= c[i] < |f| && f[c[i]] == Next(c, i) && c[i] !in c[..i]
    ensures i + 1 < |c| ==> c[i + 1] < |f|
  {
  }

  ghost predicate Owned(ch: Chains, x: nat) {
    exists o :: o in ch && x in ch[o]
  }

  /** Every chain is well formed, no two share a block, and every used cell lies on one. */
  ghost predicate Forest(f: seq<nat>, ch: Chains) {
    && 0 < |f| <= END
    && (forall o :: o in ch ==> Chain(f, ch[o]))
    && (forall o, p, x :: o in ch && p in ch && x in ch[o] && x in ch[p] ==> o == p)
    && (forall x :: 1 <= x < |f| && f[x] != 0 ==> Owned(ch, x))
  }

  /** Blocks that add_fat_entry may hand out. */
  function FreeSet(f: seq<nat>): set<nat> {
    set x | 1 <= x < |f| && f[x] == 0
  }

  function FreeCount(f: seq<nat>): nat {
    |FreeSet(f)|
  }

  function Cells(c: seq<nat>): set<nat> {
    set x | x in c
  }

  /** The table after free block `x` is marked as an end and hung behind block `b`. */
  function Link(f: seq<nat>, b: nat, x: nat): (g: seq<nat>)
    ensures |g| == |f|
  {
    if b < |f| && x < |f| then f[x := END][b := x] else f
  }

  /** The table after the cells of `c` are released. */
  function Clear(f: seq<nat>, c: seq<nat>): (g: seq<nat>)
    ensures |g| == |f|
    ensures forall x :: 0 <= x < |f| ==> g[x] == if x in c then 0 else f[x]
  {
    seq(|f|, x requires 0 <= x < |f| => if x in c then 0 else f[x])
  }

  /** A used block is on exactly one chain, a free one on none. */
  lemma OwnedExactly(f: seq<nat>, ch: Chains, x: nat)
    requires Forest(f, ch) && 1 <= x < |f|
    ensures f[x] != 0 <==> Owned(ch, x)
  {
    if Owned(ch, x) {
      var o :| o in ch && x in ch[o];
      var i :| 0 <= i < |ch[o]| && ch[o][i] == x;
    }
  }

  /** The table and a head determine the chain. */
  lemma {:induction false} ChainUnique(f: seq<nat>, c: seq<nat>, d: seq<nat>)
    requires Chain(f, c) && Chain(f, d) && |f| <= END && Head(c) == Head(d)
    ensures c == d
  {
    if c != [] && d != [] {
      ChainPrefix(f, c, d, |c| - 1);
      ChainPrefix(f, d, c, |d| - 1);
    }
  }

  lemma {:induction false} ChainPrefix(f: seq<nat>, c: seq<nat>, d: seq<nat>, i: nat)
    requires Chain(f, c) && Chain(f, d) && |f| <= END && c != [] && d != [] && c[0] == d[0]
    requires i < |c|
    ensures i < |d| && c[..i + 1] == d[..i + 1]
  {
    if i > 0 {
      ChainPrefix(f, c, d, i - 1);
      assert c[i - 1] == c[..i][i - 1] == d[..i][i - 1] == d[i - 1];
      assert f[c[i - 1]] == Next(c, i - 1) == c[i];
      assert f[d[i - 1]] == Next(d, i - 1);
    }
  }

  lemma TakeBlock(f: seq<nat>, x: nat, v: nat)
    requires 1 <= x < |f| && f[x] == 0 && v != 0
    ensures FreeSet(f[x := v]) == FreeSet(f) - {x} && FreeCount(f[x := v]) == FreeCount(f) - 1
  {
    assert FreeSet(f[x := v]) == FreeSet(f) - {x};
  }

  lemma KeepFree(f: seq<nat>, x: nat, v: nat)
    requires 1 <= x < |f| && f[x] != 0 && v != 0
    ensures FreeSet(f[x := v]) == FreeSet(f)
  {
  }

  lemma LinkedCells(f: seq<nat>, b: nat, x: nat)
    requires 1 <= b < |f| && f[b] != 0 && 1 <= x < |f| && f[x] == 0
    ensures FreeCount(Link(f, b, x)) == FreeCount(f) - 1 && Link(f, b, x) == f[x := END][b := x]
  {
    hide FreeCount;
    TakeBlock(f, x, END);
    KeepFree(f[x := END], b, x);
    SameFree(f[x := END], f[x := END][b := x]);
  }

  lemma SameFree(f: seq<nat>, g: seq<nat>)
    requires FreeSet(f) == FreeSet(g)
    ensures FreeCount(f) == FreeCount(g)
  {
  }

  lemma ChainFrame(f: seq<nat>, g: seq<nat>, c: seq<nat>)
    requires Chain(f, c) && |g| == |f|
    requires forall x :: x in c ==> g[x] == f[x]
    ensures Chain(g, c)
  {
    assert forall i :: 0 <= i < |c| ==> c[i] in c;
  }

  lemma ChainExtend(f: seq<nat>, c: seq<nat>, x: nat)
    requires Chain(f, c) && c != [] && x !in c && 1 <= x < |f| <= END
    ensures Chain(f[x := END][Last(c) := x], c + [x])
  {
    var d := c + [x];
    forall i | 0 <= i < |d| ensures f[x := END][Last(c) := x][d[i]] == Next(d, i) {
      if i < |c| {
        assert f[c[i]] == Next(c, i) && c[i] in c;
      }
    }
  }

  lemma FreeUnowned(f: seq<nat>, ch: Chains, x: nat)
    requires Forest(f, ch) && 1 <= x < |f| && f[x] == 0
    ensures forall p :: p in ch ==> x !in ch[p]
  {
    forall p | p in ch && x in ch[p] ensures false {
      OwnedExactly(f, ch, x);
    }
  }

  /** Ownership is all that is left to check once the chains themselves are known. */
  lemma OwnedStill(f: seq<nat>, ch: Chains, ch': Chains, y: nat)
    requires Forest(f, ch) && 1 <= y < |f| && f[y] != 0
    requires forall p :: p in ch ==> p in ch' && forall x :: x in ch[p] ==> x in ch'[p]
    ensures Owned(ch', y)
  {
    var p :| p in ch && y in ch[p];
    assert y in ch'[p];
  }

  /** Linking a free block behind the last one extends exactly that chain. */
  lemma Extend(f: seq<nat>, ch: Chains, o: Owner, x: nat)
    requires Forest(f, ch) && o in ch && ch[o] != [] && 1 <= x < |f| && f[x] == 0
    ensures var g := Link(f, Last(ch[o]), x);
            Forest(g, ch[o := ch[o] + [x]]) && FreeCount(g) == FreeCount(f) - 1
  {
    var c := ch[o];
    assert Chain(f, c) && Last(c) in c;
    var g := Link(f, Last(c), x);
    var ch' := ch[o := c + [x]];
    FreeUnowned(f, ch, x);
    ChainExtend(f, c, x);
    hide Chain, FreeCount;
    forall p | p in ch' ensures Chain(g, ch'[p]) {
      if p != o { ChainFrame(f, g, ch[p]); }
    }
    hide Owned;
    forall y | 1 <= y < |g| && g[y] != 0 ensures Owned(ch', y) {
      ExtendOwned(f, ch, o, x, y);
    }
    ExtendApart(f, ch, o, x);
    LinkedCells(f, Last(c), x);
  }

  lemma ExtendApart(f: seq<nat>, ch: Chains, o: Owner, x: nat)
    requires Forest(f, ch) && o in ch && 1 <= x < |f| && f[x] == 0
    ensures var ch' := ch[o := ch[o] + [x]];
            forall p, q, y :: p in ch' && q in ch' && y in ch'[p] && y in ch'[q] ==> p == q
  {
    FreeUnowned(f, ch, x);
  }

  lemma ExtendOwned(f: seq<nat>, ch: Chains, o: Owner, x: nat, y: nat)
    requires Forest(f, ch) && o in ch && (y == x || (1 <= y < |f| && f[y] != 0))
    ensures Owned(ch[o := ch[o] + [x]], y)
  {
    var ch' := ch[o := ch[o] + [x]];
    if y == x {
      assert x in ch'[o];
    } else {
      OwnedStill(f, ch, ch', y);
    }
  }

  /** A freshly marked block is a chain of its own. */
  lemma Start(f: seq<nat>, ch: Chains, o: Owner, x: nat)
    requires Forest(f, ch) && (o in ch ==> ch[o] == []) && 1 <= x < |f| && f[x] == 0
    ensures Forest(f[x := END], ch[o := [x]]) && FreeCount(f[x := END]) == FreeCount(f) - 1
  {
    var g := f[x := END];
    var ch' := ch[o := [x]];
    FreeUnowned(f, ch, x);
    forall p | p in ch' ensures Chain(g, ch'[p]) {
      if p != o { ChainFrame(f, g, ch[p]); }
    }
    forall y | 1 <= y < |g| && g[y] != 0 ensures Owned(ch', y) {
      if y == x {
        assert x in ch'[o];
      } else {
        OwnedStill(f, ch, ch', y);
      }
    }
    TakeBlock(f, x, END);
  }

  /** Releasing a chain frees its blocks and nothing else. */
  lemma Release(f: seq<nat>, ch: Chains, o: Owner)
    requires Forest(f, ch) && o in ch
    ensures Forest(Clear(f, ch[o]), ch - {o})
    ensures FreeSet(Clear(f, ch[o])) == FreeSet(f) + Cells(ch[o])
    ensures FreeCount(Clear(f, ch[o])) == FreeCount(f) + |ch[o]|
  {
    var c := ch[o];
    var g := Clear(f, c);
    var ch' := ch - {o};
    forall p | p in ch' ensures Chain(g, ch'[p]) { ChainFrame(f, g, ch[p]); }
    forall y | 1 <= y < |g| && g[y] != 0 ensures Owned(ch', y) {
      var p :| p in ch && y in ch[p];
      assert y in ch'[p];
    }
    ClearCount(f, c);
  }

  lemma ClearCount(f: seq<nat>, c: seq<nat>)
    requires Chain(f, c)
    ensures FreeSet(Clear(f, c)) == FreeSet(f) + Cells(c)
    ensures FreeCount(Clear(f, c)) == FreeCount(f) + |c|
  {
    var cells := Cells(c);
    forall x | x in c ensures x !in FreeSet(f) && 1 <= x < |f| {
      var i :| 0 <= i < |c| && c[i] == x;
      assert f[c[i]] == Next(c, i);
    }
    DistinctCount(c);
    assert FreeSet(Clear(f, c)) == FreeSet(f) + cells;
    assert |FreeSet(f) + cells| == |FreeSet(f)| + |cells|;
  }

  lemma {:induction false} DistinctCount(c: seq<nat>)
    requires forall i, j :: 0 <= i < j < |c| ==> c[i] != c[j]
    ensures |Cells(c)| == |c|
  {
    if c == [] {
      assert Cells(c) == {};
    } else {
      var rest := Cells(c[1..]);
      DistinctCount(c[1..]);
      assert c[0] !in rest;
      assert Cells(c) == {c[0]} + rest;
    }
  }

  /** Handing a whole chain from one owner to another. */
  lemma Rename(f: seq<nat>, ch: Chains, o: Owner, p: Owner)
    requires Forest(f, ch) && o in ch && (p in ch ==> p == o || ch[p] == [])
    ensures Forest(f, (ch - {o})[p := ch[o]])
  {
    var ch' := (ch - {o})[p := ch[o]];
    forall y | 1 <= y < |f| && f[y] != 0 ensures Owned(ch', y) {
      OwnedExactly(f, ch, y);
      var q :| q in ch && y in ch[q];
      assert y in ch'[if q == o then p else q];
    }
  }

  /** The chains determine every cell of the table but the superblock. */
  lemma SameTable(f: seq<nat>, g: seq<nat>, ch: Chains, x: nat)
    requires Forest(f, ch) && Forest(g, ch) && |f| == |g| && 1 <= x < |f|
    ensures f[x] == g[x]
  {
    OwnedExactly(f, ch, x);
    OwnedExactly(g, ch, x);
    if Owned(ch, x) {
      var o :| o in ch && x in ch[o];
      var i :| 0 <= i < |ch[o]| && ch[o][i] == x;
      assert f[ch[o][i]] == Next(ch[o], i) == g[ch[o][i]];
    }
  }
}
