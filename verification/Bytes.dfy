/**
 Bytes of the data region, and the 64-byte directory entries kept inside
 directory blocks (struct file_entry in helper.h):

   offset  0..31  name (NUL-terminated)      offset 38  type
   offset 32..35  size (little-endian)       offset 39  perm
   offset 36..37  first_block (little-endian)

 The modification time and the spare bytes after it are never written.
 */
module Bytes {

  type Byte = x: int | 0 <= x < 256

  const ENTRY_SIZE := 64
  const NAME_SIZE := 32
  const DELETED: Byte := 49  // the character '1' in name[0]
  const REGULAR: Byte := 1
  const RDWR: Byte := 6

  /** The part of a directory entry the file system acts on; `mark` is name[0]. */
  datatype Entry = Entry(mark: Byte, name: seq<Byte>, size: nat, first: nat)

  predicate Live(e: Entry) {
    e.mark != 0 && e.mark != DELETED
  }

  /** The names callers may pass: a C string that fits the field and is not a deletion mark. */
  predicate NameOk(name: seq<Byte>) {
    1 <= |name| < NAME_SIZE && 0 !in name && name[0] != DELETED
  }

  /** The C string stored at the front of `s`. */
  function CString(s: seq<Byte>): (r: seq<Byte>)
    ensures 0 !in r && r <= s
  {
    if s == [] || s[0] == 0 then [] else [s[0]] + CString(s[1..])
  }

  lemma {:induction false} CStringOf(name: seq<Byte>, rest: seq<Byte>)
    requires 0 !in name
    ensures CString(name + [0] + rest) == name
  {
    if name == [] {
    } else {
      CStringOf(name[1..], rest);
      assert (name + [0] + rest)[1..] == name[1..] + [0] + rest;
    }
  }

  function Splice(b: seq<Byte>, at: nat, s: seq<Byte>): (r: seq<Byte>)
    requires at + |s| <= |b|
    ensures |r| == |b|
    ensures forall j :: 0 <= j < |b| ==> r[j] == if at <= j < at + |s| then s[j - at] else b[j]
  {
    b[..at] + s + b[at + |s|..]
  }

  /** The number a little-endian field holds. */
  function FromLe(s: seq<Byte>): (n: nat) {
    if s == [] then 0 else s[0] as nat + 256 * FromLe(s[1..])
  }

  /** Little-endian stores truncate to the width of the field, as the C assignments do. */
  function Le16(n: nat): (r: seq<Byte>)
    ensures |r| == 2 && FromLe(r) == n % 65536
  {
    var q := n / 256;
    var r := [n % 256, q % 256];
    assert FromLe(r[1..]) == q % 256;
    assert n == 65536 * (q / 256) + (n % 256 + 256 * (q % 256));
    r
  }

  function Le32(n: nat): (r: seq<Byte>)
    ensures |r| == 4 && FromLe(r) == n % 4294967296
  {
    var lo, hi := Le16(n), Le16(n / 65536);
    LeAppend(lo, hi);
    Halves(n);
    lo + hi
  }

  lemma LeAppend(lo: seq<Byte>, hi: seq<Byte>)
    requires |lo| == 2
    ensures FromLe(lo + hi) == FromLe(lo) + 65536 * FromLe(hi)
  {
    var a, b := lo[0], lo[1];
    LeCons(a, [b]);
    LeCons(b, []);
    LeCons(a, [b] + hi);
    LeCons(b, hi);
    hide FromLe;
    assert lo == [a] + [b] && [b] == [b] + [] && lo + hi == [a] + ([b] + hi);
    assert FromLe([]) == 0 by { LeNil(); }
  }

  lemma LeNil()
    ensures FromLe([]) == 0
  {
  }

  lemma LeCons(b: Byte, rest: seq<Byte>)
    ensures FromLe([b] + rest) == b + 256 * FromLe(rest)
  {
    assert ([b] + rest)[1..] == rest;
  }

  lemma Halves(n: nat)
    ensures n % 4294967296 == n % 65536 + 65536 * (n / 65536 % 65536)
  {
    var q := n / 65536;
    assert n == 4294967296 * (q / 65536) + (n % 65536 + 65536 * (q % 65536));
  }

  /** Bytes lo..hi of entry `i` of a directory block. */
  function Field(b: seq<Byte>, i: nat, lo: nat, hi: nat): seq<Byte>
    requires lo <= hi <= ENTRY_SIZE && ENTRY_SIZE * i + ENTRY_SIZE <= |b|
  {
    b[ENTRY_SIZE * i + lo..ENTRY_SIZE * i + hi]
  }

  /** Entry `i` of a directory block. */
  function Read(b: seq<Byte>, i: nat): (e: Entry)
    requires ENTRY_SIZE * i + ENTRY_SIZE <= |b|
    ensures if e.mark == 0 then e.name == [] else e.name != [] && e.name[0] == e.mark
  {
    Entry(b[ENTRY_SIZE * i], CString(Field(b, i, 0, NAME_SIZE)),
          FromLe(Field(b, i, 32, 36)), FromLe(Field(b, i, 36, 38)))
  }

  /** Where the parts of an entry lie, byte by byte: struct file_entry on a little-endian machine. */
  lemma EntryBytes(b: seq<Byte>, i: nat)
    requires 64 * i + 64 <= |b|
    ensures var e, at := Read(b, i), 64 * i;
      && e.size == b[at + 32] as int + 256 * b[at + 33] as int
                   + 65536 * b[at + 34] as int + 16777216 * b[at + 35] as int
      && e.first == b[at + 36] as int + 256 * b[at + 37] as int
      && |e.name| <= 32 && e.name == b[at..at + |e.name|] && 0 !in e.name && (|e.name| < 32 ==> b[at + |e.name|] == 0)
      && (Live(e) <==> b[at] != 0 && b[at] != '1' as int)
  {
    var at := 64 * i;
    LeBytes(b[at + 32], b[at + 33], [b[at + 34], b[at + 35]]);
    LeBytes(b[at + 34], b[at + 35], []);
    LeBytes(b[at + 36], b[at + 37], []);
    LeNil();
    assert Field(b, i, 32, 36) == [b[at + 32], b[at + 33]] + [b[at + 34], b[at + 35]];
    assert Field(b, i, 36, 38) == [b[at + 36], b[at + 37]] + [];
    assert [b[at + 34], b[at + 35]] == [b[at + 34], b[at + 35]] + [];
    CStringEnd(Field(b, i, 0, 32));
  }

  lemma LeBytes(a: Byte, b: Byte, rest: seq<Byte>)
    ensures FromLe([a, b] + rest) == a + 256 * b + 65536 * FromLe(rest)
  {
    LeCons(a, [b] + rest);
    LeCons(b, rest);
    assert [a, b] + rest == [a] + ([b] + rest);
  }

  lemma {:induction false} CStringEnd(s: seq<Byte>)
    ensures var n := |CString(s)|; n <= |s| && CString(s) == s[..n] && (n < |s| ==> s[n] == 0)
  {
    if s != [] && s[0] != 0 {
      CStringEnd(s[1..]);
      var n := |CString(s[1..])|;
      assert s[..n + 1] == [s[0]] + s[1..][..n];
    }
  }

  /** Only the `n` bytes from `lo` on may differ. */
  ghost predicate Outside(b: seq<Byte>, c: seq<Byte>, lo: nat, n: nat) {
    |c| == |b| && forall j :: 0 <= j < |b| && (j < lo || lo + n <= j) ==> c[j] == b[j]
  }

  /** What every store into entry `i` keeps: the length, and all other entries. */
  ghost predicate OnlyEntry(b: seq<Byte>, c: seq<Byte>, i: nat) {
    |c| == |b| &&
    forall j: nat :: j != i && ENTRY_SIZE * j + ENTRY_SIZE <= |b| ==> Read(c, j) == Read(b, j)
  }

  lemma SameFields(b: seq<Byte>, c: seq<Byte>, i: nat)
    requires |b| == |c| && ENTRY_SIZE * i + ENTRY_SIZE <= |b|
    ensures forall lo: nat, hi: nat |
              lo <= hi <= ENTRY_SIZE &&
              (forall k :: ENTRY_SIZE * i + lo <= k < ENTRY_SIZE * i + hi ==> b[k] == c[k])
              :: Field(b, i, lo, hi) == Field(c, i, lo, hi)
  {
  }

  /** A store of `s` at byte `off` of entry `i`. */
  function PutField(b: seq<Byte>, i: nat, off: nat, s: seq<Byte>): (c: seq<Byte>)
    requires ENTRY_SIZE * i + ENTRY_SIZE <= |b| && off + |s| <= ENTRY_SIZE
    ensures |c| == |b| && OnlyEntry(b, c, i)
    ensures Field(c, i, off, off + |s|) == s
    ensures forall lo: nat, hi: nat :: lo <= hi <= ENTRY_SIZE && (hi <= off || off + |s| <= lo) ==>
              Field(c, i, lo, hi) == Field(b, i, lo, hi)
    ensures 0 < off ==> c[ENTRY_SIZE * i] == b[ENTRY_SIZE * i]
    ensures Outside(b, c, ENTRY_SIZE * i + off, |s|)
  {
    var c := Splice(b, ENTRY_SIZE * i + off, s);
    assert forall j: nat :: j != i && ENTRY_SIZE * j + ENTRY_SIZE <= |b| ==> Read(c, j) == Read(b, j) by {
      forall j: nat | j != i && ENTRY_SIZE * j + ENTRY_SIZE <= |b| ensures Read(c, j) == Read(b, j) {
        SameFields(b, c, j);
      }
    }
    SameFields(b, c, i);
    c
  }

  /** strcpy(entry->name, name). */
  function PutName(b: seq<Byte>, i: nat, name: seq<Byte>): (c: seq<Byte>)
    requires ENTRY_SIZE * i + ENTRY_SIZE <= |b| && NameOk(name)
    ensures |c| == |b| && OnlyEntry(b, c, i)
    ensures Read(c, i) == Read(b, i).(mark := name[0], name := name)
    ensures Outside(b, c, ENTRY_SIZE * i, |name| + 1)
  {
    var c := PutField(b, i, 0, name + [0]);
    var rest := Field(c, i, |name| + 1, NAME_SIZE);
    assert Field(c, i, 0, NAME_SIZE) == Field(c, i, 0, |name| + 1) + rest;
    CStringOf(name, rest);
    assert c[ENTRY_SIZE * i] == Field(c, i, 0, |name| + 1)[0];
    c
  }

  function PutSize(b: seq<Byte>, i: nat, n: nat): (c: seq<Byte>)
    requires ENTRY_SIZE * i + ENTRY_SIZE <= |b|
    ensures |c| == |b| && OnlyEntry(b, c, i)
    ensures Read(c, i) == Read(b, i).(size := n % 4294967296)
    ensures Outside(b, c, ENTRY_SIZE * i + 32, 4)
  {
    PutField(b, i, 32, Le32(n))
  }

  function PutFirst(b: seq<Byte>, i: nat, n: nat): (c: seq<Byte>)
    requires ENTRY_SIZE * i + ENTRY_SIZE <= |b|
    ensures |c| == |b| && OnlyEntry(b, c, i)
    ensures Read(c, i) == Read(b, i).(first := n % 65536)
    ensures Outside(b, c, ENTRY_SIZE * i + 36, 2)
  {
    PutField(b, i, 36, Le16(n))
  }

  function PutTypePerm(b: seq<Byte>, i: nat, kind: Byte, perm: Byte): (c: seq<Byte>)
    requires ENTRY_SIZE * i + ENTRY_SIZE <= |b|
    ensures |c| == |b| && OnlyEntry(b, c, i)
    ensures Read(c, i) == Read(b, i) && Field(c, i, 38, 40) == [kind, perm]
    ensures Outside(b, c, ENTRY_SIZE * i + 38, 2)
  {
    PutField(b, i, 38, [kind, perm])
  }

  /** entry->name[0] = '1'. */
  function MarkDeleted(b: seq<Byte>, i: nat): (c: seq<Byte>)
    requires ENTRY_SIZE * i + ENTRY_SIZE <= |b|
    ensures |c| == |b| && OnlyEntry(b, c, i)
    ensures Read(c, i).mark == DELETED && Read(c, i).size == Read(b, i).size
    ensures Read(c, i).first == Read(b, i).first
    ensures Outside(b, c, ENTRY_SIZE * i, 1)
  {
    var c := PutField(b, i, 0, [DELETED]);
    assert c[ENTRY_SIZE * i] == Field(c, i, 0, 1)[0];
    c
  }
}
