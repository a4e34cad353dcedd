/** Well formed images in which adding a file goes wrong: it cuts off a directory block, or finds no slot. */
module FatWitness {
  import opened Bytes
  import opened FatTable
  import opened Disk
  import opened DiskSteps
  import opened Views

  function Blank(): (b: seq<Byte>)
    ensures |b| == 256 && Zero(b)
  {
    seq(256, _ => 0)
  }

  /** A directory block with files "a", "b", "c" and "d". */
  function FourFiles(): (b: seq<Byte>)
    ensures |b| == 256
  {
    PutName(PutName(PutName(PutName(Blank(), 0, [97]), 1, [98]), 2, [99]), 3, [100])
  }

  /** 128 blocks of 256 bytes; the directory has block 1, where "d" was deleted, and block 2, still empty. */
  function TwoBlocks(): Image {
    Image(256, Cells([256, 2, END]), Blocks(DirBlock()))
  }

  /** A table whose other blocks are free. */
  function Cells(front: seq<nat>): (f: seq<nat>)
    requires |front| <= 128
    ensures |f| == 128 && forall x :: 0 <= x < 128 ==> f[x] == if x < |front| then front[x] else 0
  {
    seq(128, x requires 0 <= x < 128 => if x < |front| then front[x] else 0)
  }

  /** Blocks that are zero but for the first of the directory. */
  function Blocks(dir: seq<Byte>): (d: seq<seq<Byte>>)
    ensures |d| == 128 && forall x :: 0 <= x < 128 ==> d[x] == if x == 1 then dir else Blank()
  {
    seq(128, x requires 0 <= x < 128 => if x == 1 then dir else Blank())
  }

  function ThreeFiles(): Layout {
    Layout(map[Root := [1, 2], Slot(1, 0) := [], Slot(1, 1) := [], Slot(1, 2) := []],
           map[[97] := Slot(1, 0), [98] := Slot(1, 1), [99] := Slot(1, 2)], 0)
  }

  lemma BlankReads(i: nat)
    requires i < 4
    ensures Read(Blank(), i) == Entry(0, [], 0, 0)
  {
    hide FromLe, CString, Blank;
    var b := Blank();
    ZeroLe(Field(b, i, 32, 36));
    ZeroLe(Field(b, i, 36, 38));
    ZeroName(Field(b, i, 0, NAME_SIZE));
  }

  lemma ZeroName(s: seq<Byte>)
    requires Zero(s)
    ensures CString(s) == []
  {
  }

  lemma {:induction false} ZeroLe(s: seq<Byte>)
    requires Zero(s)
    ensures FromLe(s) == 0
  {
    if s != [] { ZeroLe(s[1..]); }
  }

  lemma FourReads()
    ensures Read(FourFiles(), 0) == Entry(97, [97], 0, 0)
    ensures Read(FourFiles(), 1) == Entry(98, [98], 0, 0)
    ensures Read(FourFiles(), 2) == Entry(99, [99], 0, 0)
    ensures Read(FourFiles(), 3) == Entry(100, [100], 0, 0)
  {
    hide Read, Outside, Blank, Zero;
    BlankReads(3);
    BlankReads(0);
    BlankReads(1);
    BlankReads(2);
  }

  function DirBlock(): (b: seq<Byte>)
    ensures |b| == 256
  {
    MarkDeleted(FourFiles(), 3)
  }

  lemma FormOf(im: Image)
    requires im == TwoBlocks()
    ensures im.bs == 256 && |im.blocks| == |im.fat| == 128 && im.blocks[1] == DirBlock()
    ensures im.fat[0] == 256 && im.fat[1] == 2 && im.fat[2] == END && forall x :: 3 <= x < 128 ==> im.fat[x] == 0
    ensures forall x :: 0 <= x < 128 ==> |im.blocks[x]| == 256 && (x != 1 ==> Zero(im.blocks[x]))
  {
    hide Zero, DirBlock, Blank;
    forall x | 0 <= x < 128 ensures |im.blocks[x]| == 256 && (x != 1 ==> Zero(im.blocks[x])) {
      assert im.blocks[x] == if x == 1 then DirBlock() else Blank();
    }
  }

  /** The entries of the image. */
  ghost predicate Entries(im: Image) {
    && At(im, 1, 0) == Entry(97, [97], 0, 0)
    && At(im, 1, 1) == Entry(98, [98], 0, 0)
    && At(im, 1, 2) == Entry(99, [99], 0, 0)
    && At(im, 1, 3).mark == DELETED
    && (forall i :: 4 <= i ==> At(im, 1, i).mark == 0)
    && forall i :: At(im, 2, i).mark == 0
  }

  lemma Slots()
    ensures Entries(TwoBlocks())
  {
    hide Read, Outside, FourFiles, Zero, TwoBlocks;
    FourReads();
    FormOf(TwoBlocks());
    ZeroSlots(TwoBlocks(), 2);
  }

  lemma TableFits(f: seq<nat>, ch: Chains)
    requires |f| == 128 && f[1] == 2 && f[2] == END && forall x :: 3 <= x < 128 ==> f[x] == 0
    requires Root in ch && ch[Root] == [1, 2] && forall o :: o in ch && o != Root ==> ch[o] == []
    ensures Forest(f, ch)
  {
    forall x | 1 <= x < |f| && f[x] != 0 ensures Owned(ch, x) {
      assert x in ch[Root];
    }
  }

  lemma PackedFits(im: Image)
    requires im.bs == 256 && Entries(im)
    ensures Packed(im, ThreeFiles(), [1, 2])
  {
    hide At;
    forall b: nat, i: nat | b in [1, 2] && ENTRY_SIZE * i + ENTRY_SIZE <= 256
      ensures At(im, b, i).mark != 0 <==> b != 2
    {
      assert i == 0 || i == 1 || i == 2 || i == 3;
    }
  }

  lemma KeysFit(im: Image)
    requires Entries(im)
    ensures Keys(im, ThreeFiles(), [1, 2])
  {
    hide At;
    var ch := ThreeFiles().chains;
    forall b, i ensures Slot(b, i) in ch <==> b in [1, 2] && Live(At(im, b, i)) {
      assert i == 0 || i == 1 || i == 2 || i == 3 || i >= 4;
    }
  }

  lemma NamesFit(im: Image)
    requires Entries(im)
    ensures Names(im, ThreeFiles()) && AllTight(im, ThreeFiles())
  {
    hide At;
  }

  lemma ThreeFilesHold(im: Image)
    requires im.bs == 256 && |im.blocks| == |im.fat| == 128 && Entries(im)
    requires im.fat[0] == 256 && im.fat[1] == 2 && im.fat[2] == END && forall x :: 3 <= x < 128 ==> im.fat[x] == 0
    requires forall x :: 0 <= x < 128 ==> |im.blocks[x]| == 256 && (x != 1 ==> Zero(im.blocks[x]))
    ensures Inv(im, ThreeFiles())
  {
    hide Packed, Keys, Names, AllTight, Forest, Zero, Entries;
    PackedFits(im);
    KeysFit(im);
    NamesFit(im);
    TableFits(im.fat, ThreeFiles().chains);
  }

  lemma LastVacant(im: Image)
    requires im.bs == 256 && Entries(im)
    ensures CutsOff(im, ThreeFiles())
  {
    hide At;
    forall j: nat | j < 3 ensures Live(At(im, 1, j)) {
      assert j == 0 || j == 1 || j == 2;
    }
    assert FirstVacant(im, ThreeFiles().chains[Root], 0, 3);
  }

  /** Such images exist: the first vacant slot is the last of a directory block with a successor. */
  lemma CutOffExists()
    ensures Inv(TwoBlocks(), ThreeFiles()) && CutsOff(TwoBlocks(), ThreeFiles())
  {
    hide TwoBlocks, Inv, CutsOff, Zero, DirBlock;
    FormOf(TwoBlocks());
    Slots();
    ThreeFilesHold(TwoBlocks());
    LastVacant(TwoBlocks());
  }

  // ---- a full directory ----------------------------------------------------

  /** 128 blocks of 256 bytes; the directory is block 1 with four files, and the other blocks are free. */
  function FullBlock(): Image {
    Image(256, Cells([256, END]), Blocks(FourFiles()))
  }

  function FourNames(): Layout {
    Layout(map[Root := [1], Slot(1, 0) := [], Slot(1, 1) := [], Slot(1, 2) := [], Slot(1, 3) := []],
           map[[97] := Slot(1, 0), [98] := Slot(1, 1), [99] := Slot(1, 2), [100] := Slot(1, 3)], 4)
  }

  ghost predicate FourEntries(im: Image) {
    && At(im, 1, 0) == Entry(97, [97], 0, 0)
    && At(im, 1, 1) == Entry(98, [98], 0, 0)
    && At(im, 1, 2) == Entry(99, [99], 0, 0)
    && At(im, 1, 3) == Entry(100, [100], 0, 0)
    && forall i :: 4 <= i ==> At(im, 1, i).mark == 0
  }

  lemma FullForm(im: Image)
    requires im == FullBlock()
    ensures im.bs == 256 && |im.blocks| == |im.fat| == 128 && im.blocks[1] == FourFiles()
    ensures im.fat[0] == 256 && im.fat[1] == END && forall x :: 2 <= x < 128 ==> im.fat[x] == 0
    ensures forall x :: 0 <= x < 128 ==> |im.blocks[x]| == 256 && (x != 1 ==> Zero(im.blocks[x]))
  {
    hide Zero, FourFiles, Blank;
    forall x | 0 <= x < 128 ensures |im.blocks[x]| == 256 && (x != 1 ==> Zero(im.blocks[x])) {
      assert im.blocks[x] == if x == 1 then FourFiles() else Blank();
    }
  }

  lemma FullSlots()
    ensures FourEntries(FullBlock())
  {
    hide Read, Outside, FourFiles, Zero, FullBlock;
    FourReads();
    FullForm(FullBlock());
  }

  lemma FullTable(f: seq<nat>, ch: Chains)
    requires |f| == 128 && f[1] == END && forall x :: 2 <= x < 128 ==> f[x] == 0
    requires Root in ch && ch[Root] == [1] && forall o :: o in ch && o != Root ==> ch[o] == []
    ensures Forest(f, ch)
  {
    forall x | 1 <= x < |f| && f[x] != 0 ensures Owned(ch, x) {
      assert x in ch[Root];
    }
  }

  lemma FullDirectory(im: Image)
    requires im.bs == 256 && FourEntries(im)
    ensures Packed(im, FourNames(), [1]) && Keys(im, FourNames(), [1])
    ensures forall d, i :: !FirstVacant(im, [1], d, i)
  {
    hide At;
    var ch := FourNames().chains;
    forall i: nat ensures i < 4 ==> Live(At(im, 1, i)) && At(im, 1, i).mark != 0 {
      assert i == 0 || i == 1 || i == 2 || i == 3 || i >= 4;
    }
    forall b, i ensures Slot(b, i) in ch <==> b in [1] && Live(At(im, b, i)) {
      assert i == 0 || i == 1 || i == 2 || i == 3 || i >= 4;
    }
  }

  lemma FullNames(im: Image)
    requires FourEntries(im)
    ensures Names(im, FourNames()) && AllTight(im, FourNames())
  {
    hide At;
  }

  lemma FourFilesHold(im: Image)
    requires im.bs == 256 && |im.blocks| == |im.fat| == 128 && FourEntries(im)
    requires im.fat[0] == 256 && im.fat[1] == END && forall x :: 2 <= x < 128 ==> im.fat[x] == 0
    requires forall x :: 0 <= x < 128 ==> |im.blocks[x]| == 256 && (x != 1 ==> Zero(im.blocks[x]))
    ensures Inv(im, FourNames())
  {
    hide Packed, Keys, Names, AllTight, Forest, Zero, FourEntries, FirstVacant;
    FullDirectory(im);
    FullNames(im);
    FullTable(im.fat, FourNames().chains);
  }

  /** Blocks may be free while the directory is full: a file created now loses its blocks. */
  lemma FullDirectoryExists()
    ensures Inv(FullBlock(), FourNames()) && 2 in FreeSet(FullBlock().fat)
    ensures !Placeable(FullBlock(), FourNames()) && !CutsOff(FullBlock(), FourNames())
    ensures forall d, i :: !FirstVacant(FullBlock(), FourNames().chains[Root], d, i)
  {
    hide FullBlock, Inv, Zero, FourFiles, FirstVacant, FourEntries, Placeable, CutsOff;
    FullForm(FullBlock());
    FullSlots();
    FourFilesHold(FullBlock());
    FullDirectory(FullBlock());
    NoSlot(FullBlock(), FourNames());
  }

  lemma NoSlot(im: Image, l: Layout)
    requires Root in l.chains && forall d, i :: !FirstVacant(im, l.chains[Root], d, i)
    ensures !Placeable(im, l) && !CutsOff(im, l)
  {
    hide FirstVacant;
  }
}
