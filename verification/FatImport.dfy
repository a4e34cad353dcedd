/** Moving files between the host and the store: do_cp with -h, and do_cpto_host behind it. */
module FatImport {
  import opened Bytes
  import opened FatTable
  import opened Disk
  import opened Views
  import opened FatFs
  import opened FatCommands
  import opened FatOverwrite

  function Joined(chunks: seq<seq<Byte>>): seq<Byte> {
    if chunks == [] then [] else Joined(chunks[..|chunks| - 1]) + chunks[|chunks| - 1]
  }

  lemma JoinedNext(chunks: seq<seq<Byte>>, i: nat)
    requires i < |chunks|
    ensures Joined(chunks[..i + 1]) == Joined(chunks[..i]) + chunks[i]
    ensures |Joined(chunks[..i + 1])| <= |Joined(chunks)|
  {
    assert chunks[..i + 1][..i] == chunks[..i];
    JoinedPrefix(chunks, i + 1);
  }

  lemma {:induction false} JoinedPrefix(chunks: seq<seq<Byte>>, i: nat)
    requires i <= |chunks|
    ensures Joined(chunks[..i]) <= Joined(chunks)
  {
    if i < |chunks| {
      JoinedPrefix(chunks[..|chunks| - 1], i);
      assert chunks[..|chunks| - 1][..i] == chunks[..i];
    } else {
      assert chunks[..i] == chunks;
    }
  }

  /** Enough free blocks for a file of `total` bytes in the place of what the name already has. */
  ghost predicate RoomToImport(im: Image, l: Layout, dest: seq<Byte>, total: nat)
    requires im.bs > 0 && Root in l.chains
  {
    if dest in View(im, l) then Ceil(total, im.bs) - Ceil(|View(im, l)[dest]|, im.bs) <= FreeCount(im.fat)
    else Ceil(total, im.bs) + (if FillsBlock(im, l) && 1 < FreeCount(im.fat) then 1 else 0) <= FreeCount(im.fat)
  }

  /** The first chunk of an import fits, and leaves room for the rest. */
  lemma FirstChunk(im: Image, l: Layout, n: nat, total: nat)
    requires Root in l.chains && im.bs > 0 && 0 < n <= total
    requires Ceil(total, im.bs) + (if FillsBlock(im, l) && 1 < FreeCount(im.fat) then 1 else 0) <= FreeCount(im.fat)
    ensures 0 < FreeCount(im.fat) && n <= SpaceToCreate(im, l)
  {
    CeilLeast(n, total, im.bs);
    CeilLeast(1, n, im.bs);
    CeilOne(im.bs);
    CreateFitsIff(im, l, n);
    hide FillsBlock, FreeCount, Ceil, SpaceToCreate;
  }

  lemma OneBlockOnly(n: nat, bs: nat)
    requires 0 < n <= bs
    ensures Ceil(n, bs) == 1
  {
    CeilLeast(1, n, bs);
    CeilLeast(n, bs, bs);
    CeilOne(bs);
    CeilIff(bs, bs, 1);
  }

  /** do_cp from the host: the first chunk overwrites or makes the file, the others are appended. */
  method ImportFile(fs: Store, chunks: seq<seq<Byte>>, dest: Name)
    requires Mounted(fs)
    requires forall i :: 0 <= i < |chunks| ==> chunks[i] != [] && |chunks[i]| < 0x8000_0000
    requires chunks != [] ==>
      && RoomToImport(fs.Img(), fs.lay, dest, |Joined(chunks)|)
      && (if dest in Contents(fs) then |chunks[0]| <= fs.bs else Placeable(fs.Img(), fs.lay))
    modifies fs.fat, fs.disk, fs`lay
    ensures Valid(fs)
    ensures Contents(fs) == if chunks == [] then old(Contents(fs)) else old(Contents(fs))[dest := Joined(chunks)]
  {
    hide Struct, AllTight, View, FreeCount, NameOk, Placeable, FillsBlock, Ceil, RoomToImport, SpaceToCreate;
    ghost var v := Contents(fs);
    var firstRound := true;
    var i := 0;
    ghost var total := |Joined(chunks)|;
    while i < |chunks|
      invariant 0 <= i <= |chunks| && (firstRound <==> i == 0)
      invariant i == 0 ==> fs.Img() == old(fs.Img()) && fs.lay == old(fs.lay)
      invariant Valid(fs) && (i > 0 ==> Contents(fs) == v[dest := Joined(chunks[..i])] && Joined(chunks[..i]) != [])
      invariant i > 0 ==> Ceil(total, fs.bs) - Ceil(|Joined(chunks[..i])|, fs.bs) <= Free(fs)
    {
      JoinedNext(chunks, i);
      CeilLeast(|Joined(chunks[..i + 1])|, total, fs.bs);
      if firstRound {
        assert chunks[..0] == [] && Joined(chunks[..1]) == chunks[0];
        ImportFirst(fs, chunks[0], dest, total);
      } else {
        ghost var u := Contents(fs);
        StillMounted(fs);
        var r := CatAppend(fs, chunks[i], dest);
        if r == -1 {
          return;
        }
        assert Contents(fs) == u[dest := u[dest] + chunks[i]];
      }
      firstRound := false;
      i := i + 1;
    }
    assert chunks[..i] == chunks;
  }

  /** The first round of an import. */
  method ImportFirst(fs: Store, chunk: seq<Byte>, dest: Name, ghost total: nat)
    requires Mounted(fs) && 0 < |chunk| <= total && |chunk| < 0x8000_0000
    requires RoomToImport(fs.Img(), fs.lay, dest, total)
    requires if dest in Contents(fs) then |chunk| <= fs.bs else Placeable(fs.Img(), fs.lay)
    modifies fs.fat, fs.disk, fs`lay
    ensures Valid(fs) && Contents(fs) == old(Contents(fs))[dest := chunk]
    ensures Ceil(total, fs.bs) - Ceil(|chunk|, fs.bs) <= Free(fs)
  {
    hide Struct, AllTight, View, FreeCount, NameOk, Placeable, FillsBlock, Ceil, SpaceToCreate;
    ghost var im, l := fs.Img(), fs.lay;
    if dest in Contents(fs) {
      OneBlockOnly(|chunk|, fs.bs);
      CeilLeast(|chunk|, total, fs.bs);
      CeilNone(fs.bs);
    } else {
      FirstChunk(im, l, |chunk|, total);
    }
    assert chunk[..|chunk|] == chunk;
    var r := CatOverwrite(fs, chunk, dest);
  }

  lemma CeilNone(bs: nat)
    requires bs > 0
    ensures Ceil(0, bs) == 0
  {
  }

  /** Importing a host file and exporting it again writes its bytes unchanged. */
  method ImportThenExport(fs: Store, chunks: seq<seq<Byte>>, name: Name) returns (out: seq<Byte>)
    requires Mounted(fs) && chunks != []
    requires forall i :: 0 <= i < |chunks| ==> chunks[i] != [] && |chunks[i]| < 0x8000_0000
    requires RoomToImport(fs.Img(), fs.lay, name, |Joined(chunks)|)
    requires if name in Contents(fs) then |chunks[0]| <= fs.bs else Placeable(fs.Img(), fs.lay)
    modifies fs.fat, fs.disk, fs`lay
    ensures Valid(fs) && out == Joined(chunks)
  {
    hide Struct, AllTight, View, FreeCount, NameOk, Placeable, FillsBlock, Ceil, RoomToImport;
    ImportFile(fs, chunks, name);
    var found;
    found, out := ExportFile(fs, name);
  }
}
