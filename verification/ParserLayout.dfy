/** How a parsed command lies in memory: argument slots that point into a copy of the text. */
module ParserLayout {
  import opened Wrappers
  import opened ParserModel

  // ---- what memory means ---------------------------------------------------

  /** The string at offset `o`, up to the terminating NUL. */
  function CString(text: string, o: nat): string
    decreases |text| - o
  {
    if o >= |text| || text[o] == '\0' then "" else [text[o]] + CString(text, o + 1)
  }

  /** The strings the slots from `h` on point at, up to the first empty slot. */
  function Argv(slots: seq<Option<nat>>, text: string, h: nat): seq<string>
    decreases |slots| - h
  {
    if h >= |slots| || slots[h].None? then [] else [CString(text, slots[h].value)] + Argv(slots, text, h + 1)
  }

  /** The stages whose slots start at `heads`. */
  function StagesAt(heads: seq<nat>, slots: seq<Option<nat>>, text: string): seq<seq<string>> {
    seq(|heads|, i requires 0 <= i < |heads| => Argv(slots, text, heads[i]))
  }

  function Pointed(p: Option<nat>, text: string): Option<string> {
    if p.Some? then Some(CString(text, p.value)) else None
  }

  // ---- what memory must hold -----------------------------------------------

  function WordSlots(words: seq<string>): (r: seq<Option<string>>)
    ensures |r| == |words| && forall i :: 0 <= i < |r| ==> r[i] == Some(words[i])
  {
    seq(|words|, i requires 0 <= i < |words| => Some(words[i]))
  }

  /** Every stage's words, each stage ended by an empty slot. */
  function Slots(stages: seq<seq<string>>): seq<Option<string>> {
    if stages == [] then []
    else Slots(stages[..|stages| - 1]) + WordSlots(stages[|stages| - 1]) + [None]
  }

  /** Where the slots of stage `i` start. */
  function Head(stages: seq<seq<string>>, i: nat): nat
    requires i <= |stages|
  {
    |Slots(stages[..i])|
  }

  /** The slots filled once the draft has been read. */
  function Filled(d: Draft): seq<Option<string>> {
    Slots(d.closed) + WordSlots(d.open)
  }

  /** `w` stands in the source text at offset `o`, and a NUL behind it in the copy. */
  ghost predicate Stands(t: string, text: string, o: nat, w: string) {
    && o + |w| <= |t| && t[o..o + |w|] == w && (forall i :: 0 <= i < |w| ==> !IsStop(w[i]))
    && o + |w| < |text| && text[o + |w|] == '\0'
  }

  /** The copy still has every character of every word. */
  ghost predicate Copied(t: string, text: string) {
    |text| == |t| + 1 && forall k :: 0 <= k < |t| && !IsStop(t[k]) ==> text[k] == t[k]
  }

  ghost predicate Points(t: string, text: string, p: Option<nat>, w: Option<string>) {
    p.Some? == w.Some? && (p.Some? ==> Stands(t, text, p.value, w.value))
  }

  ghost predicate Stored(t: string, text: string, slots: seq<Option<nat>>, want: seq<Option<string>>) {
    |want| <= |slots| && forall k :: 0 <= k < |want| ==> Points(t, text, slots[k], want[k])
  }

  // ---- reading it back -----------------------------------------------------

  lemma {:induction false} CStringIs(text: string, o: nat, w: string)
    requires o + |w| < |text| && text[o..o + |w|] == w && '\0' !in w && text[o + |w|] == '\0'
    ensures CString(text, o) == w
    decreases |w|
  {
    if w != [] {
      assert text[o] == w[0];
      assert text[o + 1..o + |w|] == w[1..];
      CStringIs(text, o + 1, w[1..]);
    }
  }

  lemma TokenReads(t: string, text: string, o: nat, w: string)
    requires Stands(t, text, o, w) && Copied(t, text) && '\0' !in t
    ensures CString(text, o) == w
  {
    assert forall i :: 0 <= i < |w| ==> w[i] == t[o + i] == text[o + i];
    assert text[o..o + |w|] == w;
    CStringIs(text, o, w);
  }

  lemma PointsReads(t: string, text: string, p: Option<nat>, w: Option<string>)
    requires Points(t, text, p, w) && Copied(t, text) && '\0' !in t
    ensures Pointed(p, text) == w
  {
    if p.Some? { TokenReads(t, text, p.value, w.value); }
  }

  /** Slots that hold a stage from `h` on, and an empty one behind it, read as that stage. */
  lemma {:induction false} ArgvIs(t: string, text: string, slots: seq<Option<nat>>, h: nat, words: seq<string>)
    requires Copied(t, text) && '\0' !in t && h + |words| < |slots| && slots[h + |words|].None?
    requires forall k :: 0 <= k < |words| ==> Points(t, text, slots[h + k], Some(words[k]))
    ensures Argv(slots, text, h) == words
    decreases |words|
  {
    if words != [] {
      assert Points(t, text, slots[h + 0], Some(words[0]));
      PointsReads(t, text, slots[h], Some(words[0]));
      assert forall k :: 0 <= k < |words[1..]| ==>
               slots[h + 1 + k] == slots[h + (k + 1)] && words[1..][k] == words[k + 1];
      ArgvIs(t, text, slots, h + 1, words[1..]);
    }
  }

  lemma {:induction false} SlotsAppend(a: seq<seq<string>>, b: seq<seq<string>>)
    ensures Slots(a + b) == Slots(a) + Slots(b)
    decreases |b|
  {
    if b == [] {
      assert a + b == a;
    } else {
      var n := |b| - 1;
      assert (a + b)[..|a + b| - 1] == a + b[..n];
      SlotsAppend(a, b[..n]);
    }
  }

  lemma SlotsOne(words: seq<string>)
    ensures Slots([words]) == WordSlots(words) + [None]
  {
    assert [words][..0] == [];
    assert Slots([]) + WordSlots(words) + [None] == WordSlots(words) + [None];
  }

  lemma Unfold(stages: seq<seq<string>>, i: nat)
    requires i < |stages|
    ensures stages[i..] == [stages[i]] + stages[i + 1..]
  {
  }

  lemma SlotsSplit(stages: seq<seq<string>>, i: nat)
    requires i < |stages|
    ensures Slots(stages) == Slots(stages[..i]) + (WordSlots(stages[i]) + [None] + Slots(stages[i + 1..]))
  {
    hide WordSlots, Slots;
    var w, rest := stages[i], stages[i + 1..];
    assert stages[i..] == [w] + rest by { Unfold(stages, i); }
    SlotsAppend([w], rest);
    SlotsOne(w);
    assert stages == stages[..i] + stages[i..];
    SlotsAppend(stages[..i], stages[i..]);
  }

  /** Stage `i` and its empty slot lie from its head on. */
  lemma SlotsAt(stages: seq<seq<string>>, i: nat)
    requires i < |stages|
    ensures var h, s, w := Head(stages, i), Slots(stages), stages[i];
            && h + |w| < |s| && s[h + |w|] == None
            && forall k :: 0 <= k < |w| ==> s[h + k] == Some(w[k])
  {
    SlotsSplit(stages, i);
    hide Slots;
    var h, s, w := Head(stages, i), Slots(stages), WordSlots(stages[i]);
    var rest := w + [None] + Slots(stages[i + 1..]);
    assert forall k :: 0 <= k < |rest| ==> s[h + k] == rest[k];
    assert rest[|w|] == None;
    assert forall k :: 0 <= k < |w| ==> rest[k] == w[k];
  }

  /** Slots that hold all stages read back as each of them. */
  lemma StageReads(t: string, text: string, slots: seq<Option<nat>>, stages: seq<seq<string>>, i: nat)
    requires Copied(t, text) && '\0' !in t && Stored(t, text, slots, Slots(stages)) && i < |stages|
    ensures Argv(slots, text, Head(stages, i)) == stages[i]
  {
    SlotsAt(stages, i);
    var h, s, w := Head(stages, i), Slots(stages), stages[i];
    assert Points(t, text, slots[h + |w|], s[h + |w|]);
    forall k | 0 <= k < |w| ensures Points(t, text, slots[h + k], Some(w[k])) {
      assert Points(t, text, slots[h + k], s[h + k]);
    }
    hide Points, Copied;
    ArgvIs(t, text, slots, h, w);
  }

  // ---- one more item -------------------------------------------------------

  lemma FilledWord(d: Draft, w: string)
    ensures Filled(d.(open := d.open + [w])) == Filled(d) + [Some(w)]
  {
    assert WordSlots(d.open + [w]) == WordSlots(d.open) + [Some(w)];
  }

  lemma FilledPipe(d: Draft)
    ensures var e := d.(closed := d.closed + [d.open], open := []);
            Filled(e) == Filled(d) + [None] && |Slots(e.closed)| == |Filled(d)| + 1
    ensures Slots(d.closed + [d.open]) == Filled(d) + [None]
  {
    assert (d.closed + [d.open])[..|d.closed|] == d.closed;
    assert WordSlots([]) == [];
  }

  /** Reading on never empties a slot or reopens a stage. */
  lemma {:induction false} FeedGrows(d: Draft, items: seq<Item>)
    requires Feed(d, items).Ok?
    ensures |Filled(d)| <= |Filled(Feed(d, items).value)| && |d.closed| <= |Feed(d, items).value.closed|
    decreases |items|
  {
    hide Filled;
    if items != [] {
      var x := items[0];
      var e := Take(d, x).value;
      FeedGrows(e, items[1..]);
      if x.Word? { FilledWord(d, x.text); } else if x.Pipe? { FilledPipe(d); } else { FilledSame(d, e); }
    }
  }

  lemma FilledSame(d: Draft, e: Draft)
    requires e.closed == d.closed && e.open == d.open
    ensures Filled(e) == Filled(d)
  {
  }

  /** There is one output redirection at most, so the first decides the append flag. */
  lemma {:induction false} AppendStays(d: Draft, items: seq<Item>)
    requires d.output.Some? && Feed(d, items).Ok?
    ensures Feed(d, items).value.append == d.append
    decreases |items|
  {
    if items != [] {
      AppendStays(Take(d, items[0]).value, items[1..]);
    }
  }

  // ---- memory as a whole ---------------------------------------------------

  /** The buffer: argument heads, argument slots, the copy of the text, and the two file names. */
  datatype Memory = Memory(heads: seq<nat>, slots: seq<Option<nat>>, text: string, input: Option<nat>,
                           output: Option<nat>)

  ghost predicate HeadsAre(heads: seq<nat>, closed: seq<seq<string>>) {
    |closed| < |heads| && forall i :: 0 <= i <= |closed| ==> heads[i] == Head(closed, i)
  }

  /** The memory holds what has been read of the text. */
  ghost predicate Lays(t: string, m: Memory, d: Draft) {
    && Copied(t, m.text) && Stored(t, m.text, m.slots, Filled(d)) && HeadsAre(m.heads, d.closed)
    && Points(t, m.text, m.input, d.input) && Points(t, m.text, m.output, d.output)
  }

  lemma PointsEnd(t: string, text: string, e: nat, p: Option<nat>, w: Option<string>)
    requires Points(t, text, p, w) && e < |text|
    ensures Points(t, text[e := '\0'], p, w)
  {
  }

  /** A NUL behind a word harms nothing. */
  lemma LaysEnd(t: string, m: Memory, d: Draft, e: nat)
    requires Lays(t, m, d) && e <= |t| && (e < |t| ==> IsStop(t[e]))
    ensures Lays(t, m.(text := m.text[e := '\0']), d)
  {
    hide Points, Filled, HeadsAre;
    var want := Filled(d);
    forall k | 0 <= k < |want| ensures Points(t, m.text[e := '\0'], m.slots[k], want[k]) {
      PointsEnd(t, m.text, e, m.slots[k], want[k]);
    }
    PointsEnd(t, m.text, e, m.input, d.input);
    PointsEnd(t, m.text, e, m.output, d.output);
  }

  lemma StoredMore(t: string, text: string, slots: seq<Option<nat>>, want: seq<Option<string>>, p: Option<nat>,
                   w: Option<string>)
    requires Stored(t, text, slots, want) && |want| < |slots| && Points(t, text, p, w)
    ensures Stored(t, text, slots[|want| := p], want + [w])
  {
    hide Points;
  }

  lemma LaysWord(t: string, m: Memory, d: Draft, o: nat, w: string)
    requires Lays(t, m, d) && |Filled(d)| < |m.slots| && Stands(t, m.text, o, w)
    ensures Lays(t, m.(slots := m.slots[|Filled(d)| := Some(o)]), d.(open := d.open + [w]))
  {
    FilledWord(d, w);
    StoredMore(t, m.text, m.slots, Filled(d), Some(o), Some(w));
    hide Stored, Filled, Copied, HeadsAre, Points;
  }

  lemma LaysPipe(t: string, m: Memory, d: Draft)
    requires Lays(t, m, d) && |Filled(d)| < |m.slots| && |d.closed| + 1 < |m.heads|
    ensures Lays(t, m.(slots := m.slots[|Filled(d)| := None], heads := m.heads[|d.closed| + 1 := |Filled(d)| + 1]),
                 d.(closed := d.closed + [d.open], open := []))
  {
    FilledPipe(d);
    StoredMore(t, m.text, m.slots, Filled(d), None, None);
    HeadsMore(m.heads, d.closed, d.open, |Filled(d)| + 1);
    hide Stored, Filled, Copied, HeadsAre, Points;
  }

  lemma HeadsMore(heads: seq<nat>, closed: seq<seq<string>>, words: seq<string>, at: nat)
    requires HeadsAre(heads, closed) && |closed| + 1 < |heads| && at == |Slots(closed + [words])|
    ensures HeadsAre(heads[|closed| + 1 := at], closed + [words])
  {
    hide Slots;
    var more := closed + [words];
    assert more[..|more|] == more;
    assert forall i :: 0 <= i <= |closed| ==> more[..i] == closed[..i];
  }

  /** A file name: the draft gets it where the memory points to it. */
  lemma LaysInput(t: string, m: Memory, d: Draft, o: nat, w: string)
    requires Lays(t, m, d) && Stands(t, m.text, o, w)
    ensures Lays(t, m.(input := Some(o)), d.(input := Some(w)))
  {
    FilledSame(d, d.(input := Some(w)));
    hide Stored, Filled, Copied, HeadsAre;
  }

  lemma LaysOutput(t: string, m: Memory, d: Draft, o: nat, w: string, append: bool)
    requires Lays(t, m, d) && Stands(t, m.text, o, w)
    ensures Lays(t, m.(output := Some(o)), d.(output := Some(w), append := append))
  {
    FilledSame(d, d.(output := Some(w), append := append));
    hide Stored, Filled, Copied, HeadsAre;
  }

  lemma LaysBlank(t: string, m: Memory)
    requires |m.text| == |t| + 1 && m.text[..|t|] == t && |m.heads| > 0 && m.heads[0] == 0
    requires m.input == None && m.output == None
    ensures Lays(t, m, Blank)
  {
    assert Blank.closed[..0] == [];
    assert forall k :: 0 <= k < |t| ==> m.text[k] == m.text[..|t|][k];
  }

  /** With the last slot emptied, the memory reads back as all stages, and every string in it ends. */
  lemma LaysAll(t: string, m: Memory, d: Draft)
    requires Lays(t, m, d) && '\0' !in t && |m.slots| == |Filled(d)| + 1 && m.slots[|Filled(d)|] == None
    requires |m.heads| == |d.closed| + 1
    ensures StagesAt(m.heads, m.slots, m.text) == d.closed + [d.open]
    ensures Pointed(m.input, m.text) == d.input && Pointed(m.output, m.text) == d.output
    ensures forall i :: 0 <= i < |m.heads| ==> m.heads[i] < |m.slots|
  {
    var stages := d.closed + [d.open];
    PointsReads(t, m.text, m.input, d.input);
    PointsReads(t, m.text, m.output, d.output);
    FilledPipe(d);
    assert m.slots == m.slots[|Filled(d)| := None];
    StoredMore(t, m.text, m.slots, Filled(d), None, None);
    HeadsStay(m.heads, d.closed, d.open);
    hide Lays, Stored, Copied, Points, Filled, HeadsAre, Slots, Head;
    forall i | 0 <= i < |m.heads| ensures Argv(m.slots, m.text, m.heads[i]) == stages[i] && m.heads[i] < |m.slots| {
      LaysParts(t, m, d);
      StageReads(t, m.text, m.slots, stages, i);
      SlotsAt(stages, i);
    }
  }

  lemma LaysParts(t: string, m: Memory, d: Draft)
    requires Lays(t, m, d)
    ensures Copied(t, m.text)
  {
  }

  lemma HeadsStay(heads: seq<nat>, closed: seq<seq<string>>, words: seq<string>)
    requires HeadsAre(heads, closed)
    ensures forall i :: 0 <= i <= |closed| ==> heads[i] == Head(closed + [words], i)
  {
    hide Slots;
    assert forall i :: 0 <= i <= |closed| ==> (closed + [words])[..i] == closed[..i];
  }

  /** A NUL comes at or behind offset `o`. */
  ghost predicate Ends(text: string, o: nat) {
    exists k :: o <= k < |text| && text[k] == '\0'
  }

  lemma LaysEnds(t: string, m: Memory, d: Draft)
    requires Lays(t, m, d) && |m.slots| == |Filled(d)| + 1 && m.slots[|Filled(d)|] == None
    ensures forall k :: 0 <= k < |m.slots| && m.slots[k].Some? ==> Ends(m.text, m.slots[k].value)
    ensures m.input.Some? ==> Ends(m.text, m.input.value)
    ensures m.output.Some? ==> Ends(m.text, m.output.value)
  {
    hide Ends, HeadsAre, Filled, Copied, Points;
    var want := Filled(d);
    forall k | 0 <= k < |m.slots| && m.slots[k].Some? ensures Ends(m.text, m.slots[k].value) {
      PointsEnds(t, m.text, m.slots[k], want[k]);
    }
    PointsEnds(t, m.text, m.input, d.input);
    PointsEnds(t, m.text, m.output, d.output);
  }

  lemma PointsEnds(t: string, text: string, p: Option<nat>, w: Option<string>)
    requires Points(t, text, p, w)
    ensures p.Some? ==> Ends(text, p.value)
  {
  }
}
