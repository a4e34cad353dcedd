/** The lines the parser accepts. */
module ParserGrammar {
  import opened ParserModel

  // ---- reading item by item ------------------------------------------------

  lemma {:induction false} FeedAppend(d: Draft, a: seq<Item>, b: seq<Item>)
    ensures Feed(d, a + b) == match Feed(d, a) case Ok(e) => Feed(e, b) case Error(c) => Error(c)
    decreases |a|
  {
    if a == [] {
      assert a + b == b;
    } else {
      assert (a + b)[0] == a[0] && (a + b)[1..] == a[1..] + b;
      if Take(d, a[0]).Ok? { FeedAppend(Take(d, a[0]).value, a[1..], b); }
    }
  }

  lemma FeedLast(d: Draft, a: seq<Item>, x: Item)
    ensures Feed(d, a + [x]) == match Feed(d, a) case Ok(e) => Take(e, x) case Error(c) => Error(c)
  {
    FeedAppend(d, a, [x]);
    if Feed(d, a).Ok? {
      var e := Feed(d, a).value;
      assert Feed(e, [x]) == match Take(e, x) case Ok(f) => Feed(f, []) case Error(c) => Error(c);
    }
  }

  lemma ItemsUnfold(s: string)
    ensures var r := SkipSpace(s);
            Items(s) == if |r| == 0 then []
                        else if Fatal(Lex(r).item) then [Lex(r).item]
                        else [Lex(r).item] + Items(Lex(r).rest)
  {
    hide Lex, SkipSpace, Fatal;
  }

  lemma NoSkip(s: string)
    requires s != [] && !IsSpace(s[0])
    ensures SkipSpace(s) == s
  {
  }

  // ---- the grammar ---------------------------------------------------------

  /** Some word since the last '|'. */
  ghost predicate StageHasWord(items: seq<Item>) {
    exists k :: 0 <= k < |items| && items[k].Word? && forall j :: k < j < |items| ==> !items[j].Pipe?
  }

  /** Every redirection and '&' is in its place, and every stage closed by a '|' has a word. */
  ghost predicate WellPlaced(items: seq<Item>) {
    && (forall i :: 0 <= i < |items| ==> !Fatal(items[i]))
    && (forall i, j :: 0 <= i < j < |items| && (items[i].In? || items[i].Pipe?) ==> !items[j].In?)
    && (forall i, j :: 0 <= i < j < |items| && items[i].Out? ==> !items[j].Out? && !items[j].Pipe?)
    && (forall i :: 0 <= i < |items| && items[i].Pipe? ==> StageHasWord(items[..i]))
  }

  /** At most one '<', in the first stage; at most one '>' or '>>', in the last; names after
      both; a word in every stage; no '&'. */
  ghost predicate Pipeline(items: seq<Item>) {
    WellPlaced(items) && StageHasWord(items)
  }

  /** What a draft remembers of the items read. */
  ghost predicate Remembers(d: Draft, items: seq<Item>) {
    && (d.closed != [] <==> exists i :: 0 <= i < |items| && items[i].Pipe?)
    && (d.input.Some? <==> exists i :: 0 <= i < |items| && items[i].In?)
    && (d.output.Some? <==> exists i :: 0 <= i < |items| && items[i].Out?)
    && (d.open != [] <==> StageHasWord(items))
  }

  lemma StageInit(items: seq<Item>, x: Item)
    requires StageHasWord(items + [x]) && !x.Word?
    ensures !x.Pipe? && StageHasWord(items)
  {
    var m := items + [x];
    var k :| 0 <= k < |m| && m[k].Word? && forall j :: k < j < |m| ==> !m[j].Pipe?;
    assert m[|items|] == x && k < |items| && !m[|items|].Pipe?;
    assert items[k].Word? && forall j :: k < j < |items| ==> items[j] == m[j];
  }

  lemma StageLast(items: seq<Item>, x: Item)
    ensures StageHasWord(items + [x]) <==> x.Word? || (!x.Pipe? && StageHasWord(items))
  {
    var m := items + [x];
    if x.Word? {
      assert m[|items|].Word?;
    } else if !x.Pipe? && StageHasWord(items) {
      var k :| 0 <= k < |items| && items[k].Word? && forall j :: k < j < |items| ==> !items[j].Pipe?;
      assert m[k].Word? && forall j :: k < j < |m| ==> !m[j].Pipe?;
    } else if StageHasWord(m) {
      StageInit(items, x);
    }
  }

  lemma PlacedLast(items: seq<Item>, x: Item)
    ensures WellPlaced(items + [x]) <==>
              && WellPlaced(items) && !Fatal(x)
              && (x.In? ==> forall i :: 0 <= i < |items| ==> !items[i].In? && !items[i].Pipe?)
              && (x.Out? || x.Pipe? ==> forall i :: 0 <= i < |items| ==> !items[i].Out?)
              && (x.Pipe? ==> StageHasWord(items))
  {
    hide StageHasWord;
    var m := items + [x];
    assert forall i :: 0 <= i < |items| ==> m[i] == items[i] && m[..i] == items[..i];
    assert m[|items|] == x && m[..|items|] == items;
  }

  lemma RemembersLast(d: Draft, items: seq<Item>, x: Item)
    requires Remembers(d, items) && Take(d, x).Ok?
    ensures Remembers(Take(d, x).value, items + [x])
  {
    StageLast(items, x);
    hide StageHasWord;
    var m := items + [x];
    assert forall i :: 0 <= i < |items| ==> m[i] == items[i];
    assert m[|items|] == x;
  }

  /** Reading succeeds exactly on well placed items, and remembers what it must. */
  lemma {:induction false} FeedIff(items: seq<Item>)
    ensures Feed(Blank, items).Ok? <==> WellPlaced(items)
    ensures Feed(Blank, items).Ok? ==> Remembers(Feed(Blank, items).value, items)
  {
    if items != [] {
      var a, x := items[..|items| - 1], items[|items| - 1];
      assert items == a + [x];
      FeedIff(a);
      FeedLast(Blank, a, x);
      PlacedLast(a, x);
      hide WellPlaced;
      if Feed(Blank, a).Ok? {
        var d := Feed(Blank, a).value;
        TakeIff(d, a, x);
        if Take(d, x).Ok? { RemembersLast(d, a, x); }
      }
    }
  }

  lemma TakeIff(d: Draft, items: seq<Item>, x: Item)
    requires Remembers(d, items)
    ensures Take(d, x).Ok? <==>
              && !Fatal(x)
              && (x.In? ==> forall i :: 0 <= i < |items| ==> !items[i].In? && !items[i].Pipe?)
              && (x.Out? || x.Pipe? ==> forall i :: 0 <= i < |items| ==> !items[i].Out?)
              && (x.Pipe? ==> StageHasWord(items))
  {
    hide StageHasWord;
  }

  // ---- acceptance ----------------------------------------------------------

  /** The text without comment, outer spaces and one final '&', and whether there was that '&'. */
  function Body(line: string): (string, bool) {
    var t := Trimmed(line);
    if t != [] && t[|t| - 1] == '&' then (t[..|t| - 1], true) else (t, false)
  }

  /** The parser accepts exactly an empty line without '&', and pipelines. */
  lemma AcceptsExactly(line: string)
    ensures Parse(line).Ok? <==> Trimmed(line) == [] || Pipeline(Items(Body(line).0))
  {
    hide WellPlaced, StageHasWord;
    var (t, background) := Body(line);
    var items := Items(t);
    FeedIff(items);
    if Trimmed(line) != [] && Feed(Blank, items).Ok? {
      var d := Feed(Blank, items).value;
      if d.closed == [] && d.open == [] && !background {
        SomethingThere(line);
      }
    }
  }

  /** A line that is not empty and has no final '&' starts with something. */
  lemma SomethingThere(line: string)
    requires Trimmed(line) != [] && !Body(line).1 && Feed(Blank, Items(Trimmed(line))).Ok?
    ensures var d := Feed(Blank, Items(Trimmed(line))).value;
            d.closed != [] || d.open != [] || d.input.Some? || d.output.Some?
  {
    var t := Trimmed(line);
    var items := Items(t);
    SomeItem(line);
    FeedIff(items);
    hide StageHasWord, Items, Feed;
    var d := Feed(Blank, items).value;
    assert !Fatal(items[0]);
    if items[0].Word? {
      if d.closed == [] { WordFirst(items); }
    } else if items[0].Pipe? {
      NoWordBefore(items);
    }
  }

  lemma SomeItem(line: string)
    requires Trimmed(line) != []
    ensures Items(Trimmed(line)) != []
  {
    hide Lex;
    var t := Trimmed(line);
    assert t[0] == SkipSpace(Uncomment(line))[0];
    assert SkipSpace(t) == t;
  }

  lemma WordFirst(items: seq<Item>)
    requires items != [] && items[0].Word? && forall i :: 0 <= i < |items| ==> !items[i].Pipe?
    ensures StageHasWord(items)
  {
  }

  lemma NoWordBefore(items: seq<Item>)
    requires items != [] && WellPlaced(items)
    ensures !items[0].Pipe?
  {
    assert !StageHasWord(items[..0]);
  }

  // ---- errors --------------------------------------------------------------

  /** The code for item `x` behind `before`, when it cannot stand there. */
  ghost function Complaint(before: seq<Item>, x: Item): int {
    match x
    case Ampersand => UNEXPECTED_AMPERSAND
    case In(_) => UNEXPECTED_FILE_INPUT
    case NoInName =>
      if exists i :: 0 <= i < |before| && (before[i].In? || before[i].Pipe?) then UNEXPECTED_FILE_INPUT
      else EXPECT_INPUT_FILENAME
    case Out(_, _) => UNEXPECTED_FILE_OUTPUT
    case NoOutName =>
      if exists i :: 0 <= i < |before| && before[i].Out? then UNEXPECTED_FILE_OUTPUT else EXPECT_OUTPUT_FILENAME
    case Pipe =>
      if exists i :: 0 <= i < |before| && before[i].Out? then UNEXPECTED_FILE_OUTPUT else UNEXPECTED_PIPELINE
    case Word(_) => 0
  }

  /** An error while reading is about the first item that is out of place. */
  lemma {:induction false} ErrorIsFirst(items: seq<Item>) returns (k: nat)
    requires Feed(Blank, items).Error?
    ensures k < |items| && WellPlaced(items[..k]) && !WellPlaced(items[..k + 1])
    ensures Feed(Blank, items) == Error(Complaint(items[..k], items[k]))
  {
    var a, x := items[..|items| - 1], items[|items| - 1];
    assert items == a + [x];
    FeedLast(Blank, a, x);
    FeedIff(items);
    FeedIff(a);
    hide WellPlaced, StageHasWord, Feed, Remembers, Complaint, Take;
    if Feed(Blank, a).Error? {
      k := ErrorIsFirst(a);
      assert items[..k] == a[..k] && items[..k + 1] == a[..k + 1];
    } else {
      k := |a|;
      assert items[..k] == a && items[..k + 1] == items;
      ComplaintIs(Feed(Blank, a).value, a, x);
    }
  }

  lemma ComplaintIs(d: Draft, items: seq<Item>, x: Item)
    requires Remembers(d, items) && Take(d, x).Error?
    ensures Take(d, x) == Error(Complaint(items, x))
  {
    hide StageHasWord;
  }
}
