/** What the printer writes parses back to the same command. */
module ParserPrint {
  import opened Wrappers
  import opened ParserModel
  import opened ParserGrammar

  // ---- commands that come from lines ---------------------------------------

  predicate IsWord(w: string) {
    w != [] && forall i :: 0 <= i < |w| ==> !IsStop(w[i]) && w[i] != '#'
  }

  predicate AllWords(ws: seq<string>) {
    forall i :: 0 <= i < |ws| ==> IsWord(ws[i])
  }

  predicate MaybeWord(o: Option<string>) {
    o.Some? ==> IsWord(o.value)
  }

  /** What every parsed command is like. */
  predicate WellFormed(c: Command) {
    && (forall i :: 0 <= i < |c.stages| ==> c.stages[i] != [] && AllWords(c.stages[i]))
    && MaybeWord(c.input) && MaybeWord(c.output) && (c.output.None? ==> !c.append)
    && (c.stages == [] ==> c == NoCommand)
  }

  predicate Clean(s: string) {
    '#' !in s
  }

  predicate CleanItem(i: Item) {
    match i
    case Word(w) => IsWord(w)
    case In(f) => IsWord(f)
    case Out(f, _) => IsWord(f)
    case _ => true
  }

  predicate CleanItems(items: seq<Item>) {
    forall i :: 0 <= i < |items| ==> CleanItem(items[i])
  }

  lemma CleanWord(s: string)
    requires Clean(s) && WordLen(s) > 0
    ensures IsWord(s[..WordLen(s)])
  {
  }

  lemma CleanRest(s: string, i: nat)
    requires Clean(s) && i <= |s|
    ensures Clean(s[i..])
  {
  }

  lemma LexClean(r: string)
    requires r != [] && Clean(r) && !IsSpace(r[0])
    ensures CleanItem(Lex(r).item) && Clean(Lex(r).rest)
  {
    CleanRest(r, |r| - |Lex(r).rest|);
    if r[0] == '<' || r[0] == '>' {
      var s := r[if r[0] == '>' && Appends(r) then 2 else 1..];
      CleanRest(r, |r| - |s|);
      CleanRest(s, |s| - |SkipSpace(s)|);
      if WordLen(SkipSpace(s)) > 0 { CleanWord(SkipSpace(s)); }
    } else if r[0] != '|' && r[0] != '&' {
      CleanWord(r);
    }
  }

  lemma {:induction false} ItemsClean(s: string)
    requires Clean(s)
    ensures CleanItems(Items(s))
    decreases |s|
  {
    ItemsUnfold(s);
    hide Lex, Clean, CleanItem, Items, SkipSpace, Fatal;
    var r := SkipSpace(s);
    CleanRest(s, |s| - |r|);
    if |r| > 0 {
      LexClean(r);
      if !Fatal(Lex(r).item) { ItemsClean(Lex(r).rest); }
    }
  }

  predicate GoodDraft(d: Draft) {
    && (forall i :: 0 <= i < |d.closed| ==> d.closed[i] != [] && AllWords(d.closed[i])) && AllWords(d.open)
    && MaybeWord(d.input) && MaybeWord(d.output) && (d.output.None? ==> !d.append)
  }

  lemma {:induction false} FeedGood(d: Draft, items: seq<Item>)
    requires GoodDraft(d) && CleanItems(items) && Feed(d, items).Ok?
    ensures GoodDraft(Feed(d, items).value)
    decreases |items|
  {
    if items != [] {
      assert CleanItem(items[0]);
      FeedGood(Take(d, items[0]).value, items[1..]);
    }
  }

  /** Every parsed command is well formed. */
  lemma ParsedWellFormed(line: string)
    requires Parse(line).Ok?
    ensures WellFormed(Parse(line).value)
  {
    hide Items, SkipSpace, Uncomment, TrimEnd, Clean;
    var t := Trimmed(line);
    TrimmedClean(line);
    if t != [] {
      CleanPrefix(t);
      var u := if t[|t| - 1] == '&' then t[..|t| - 1] else t;
      ItemsClean(u);
      FeedGood(Blank, Items(u));
      hide Feed;
    }
  }

  lemma TrimmedClean(line: string)
    ensures Clean(Trimmed(line))
  {
    var u := Uncomment(line);
    var s := SkipSpace(u);
    var t := TrimEnd(s);
    assert forall c :: c in s ==> c in u;
    assert forall c :: c in t ==> c in s;
  }

  lemma CleanPrefix(s: string)
    requires Clean(s) && s != []
    ensures Clean(s[..|s| - 1])
  {
  }

  // ---- printing items ------------------------------------------------------

  /** An item as printed, without the space behind it. */
  function Core(i: Item): string {
    match i
    case Word(w) => w
    case In(f) => "< " + f
    case Out(f, append) => (if append then ">> " else "> ") + f
    case Pipe => "|"
    case _ => "&"
  }

  function PrintItems(items: seq<Item>): string {
    if items == [] then "" else Core(items[0]) + " " + PrintItems(items[1..])
  }

  lemma PrintItemsAppend(a: seq<Item>, b: seq<Item>)
    ensures PrintItems(a + b) == PrintItems(a) + PrintItems(b)
  {
    if a == [] {
      assert a + b == b;
    } else {
      assert (a + b)[1..] == a[1..] + b;
      PrintItemsAppend(a[1..], b);
    }
  }

  /** The longest word of a word with something else behind it. */
  lemma {:induction false} WordLenIs(w: string, rest: string)
    requires (forall i :: 0 <= i < |w| ==> !IsStop(w[i])) && (rest != [] ==> IsStop(rest[0]))
    ensures WordLen(w + rest) == |w| && (w + rest)[..|w|] == w && (w + rest)[|w|..] == rest
  {
    if w == [] {
      assert w + rest == rest;
    } else {
      assert (w + rest)[1..] == w[1..] + rest;
      WordLenIs(w[1..], rest);
    }
  }

  lemma LexWord(w: string, rest: string)
    requires IsWord(w) && (rest != [] ==> IsSpace(rest[0]))
    ensures var s := w + rest; s != [] && !IsSpace(s[0]) && Lex(s) == Token(Word(w), rest)
  {
    WordLenIs(w, rest);
    assert (w + rest)[0] == w[0] && !IsStop(w[0]);
    hide Name, WordLen;
  }

  lemma LexIn(f: string, rest: string)
    requires IsWord(f) && (rest != [] ==> IsSpace(rest[0]))
    ensures Lex("<" + (" " + (f + rest))) == Token(In(f), rest)
  {
    hide Name, WordLen, IsStop;
    var u := " " + (f + rest);
    NameAfter(f, rest);
    assert ("<" + u)[0] == '<' && ("<" + u)[1..] == u;
  }

  lemma LexOut(f: string, append: bool, rest: string)
    requires IsWord(f) && (rest != [] ==> IsSpace(rest[0]))
    ensures Lex((if append then ">>" else ">") + (" " + (f + rest))) == Token(Out(f, append), rest)
  {
    hide Name, WordLen, IsStop;
    var u := " " + (f + rest);
    NameAfter(f, rest);
    if append {
      assert (">>" + u)[0] == '>' == (">>" + u)[1] && (">>" + u)[2..] == u;
    } else {
      assert (">" + u)[0] == '>' && (">" + u)[1..] == u && u[0] == ' ' && (">" + u)[1] == ' ';
    }
  }

  lemma CoreIs(x: Item, rest: string)
    ensures x.In? ==> Core(x) + rest == "<" + (" " + (x.file + rest))
    ensures x.Out? ==> Core(x) + rest == (if x.append then ">>" else ">") + (" " + (x.file + rest))
    ensures x.Pipe? ==> Core(x) + rest == "|" + rest && ("|" + rest)[1..] == rest
  {
    if x.In? {
      assert "< " == "<" + " ";
    } else if x.Out? {
      assert ">> " == ">>" + " " && "> " == ">" + " ";
    }
  }

  /** Reading one printed item. */
  lemma LexCore(x: Item, rest: string)
    requires CleanItem(x) && !Fatal(x) && (rest != [] ==> IsSpace(rest[0]))
    ensures var s := Core(x) + rest; s != [] && !IsSpace(s[0]) && Lex(s) == Token(x, rest)
  {
    CoreIs(x, rest);
    match x
    case Word(w) => LexWord(w, rest);
    case In(f) =>
      hide Lex, IsWord, Core;
      LexIn(f, rest);
    case Out(f, append) =>
      hide Lex, IsWord, Core;
      LexOut(f, append, rest);
    case Pipe =>
      hide IsWord, Name, WordLen, Core;
  }

  /** A name one space behind its operator. */
  lemma NameAfter(f: string, rest: string)
    requires IsWord(f) && (rest != [] ==> IsSpace(rest[0]))
    ensures Name(" " + (f + rest)) == Named(f, rest)
  {
    hide SkipSpace, WordLen, Suffix, Name;
    SpaceBefore(f + rest);
    assert (f + rest)[0] == f[0];
    NoSkip(f + rest);
    WordLenIs(f, rest);
    NameIs(" " + (f + rest), f, rest);
  }

  lemma NameIs(s: string, f: string, rest: string)
    requires SkipSpace(s) == f + rest && WordLen(f + rest) == |f|
    ensures Name(s) == Named(f, rest)
  {
    hide SkipSpace, WordLen, Suffix;
  }

  lemma SpaceBefore(s: string)
    ensures SkipSpace(" " + s) == SkipSpace(s)
  {
    assert (" " + s)[1..] == s;
  }

  lemma ItemsCore(x: Item, rest: string)
    requires CleanItem(x) && !Fatal(x) && (rest != [] ==> IsSpace(rest[0]))
    ensures Items(Core(x) + rest) == [x] + Items(rest)
  {
    LexCore(x, rest);
    hide Lex, Core;
    assert SkipSpace(Core(x) + rest) == Core(x) + rest;
  }

  /** Printed items read back, with or without the space behind the last one. */
  lemma {:induction false} ItemsPrinted(items: seq<Item>, tail: string)
    requires CleanItems(items) && items != [] && (forall i :: 0 <= i < |items| ==> !Fatal(items[i]))
    requires tail in {"", " "}
    ensures Items(Line(items, tail)) == items
    decreases |items|
  {
    hide Core, CleanItem, Lex, Items, SkipSpace;
    var x, rest := items[0], items[1..];
    if rest == [] {
      OneLine(x, tail);
      ItemsCore(x, tail);
      BlankTail(tail);
    } else {
      var u := Line(rest, tail);
      MoreLine(items, tail);
      ItemsCore(x, " " + u);
      ItemsSpace(u);
      ItemsPrinted(rest, tail);
    }
  }

  /** Items with one space between them, and `tail` behind the last. */
  function Line(items: seq<Item>, tail: string): string
    requires items != []
  {
    PrintItems(items[..|items| - 1]) + Core(items[|items| - 1]) + tail
  }

  lemma OneLine(x: Item, tail: string)
    ensures Line([x], tail) == Core(x) + tail
  {
  }

  lemma MoreLine(items: seq<Item>, tail: string)
    requires |items| > 1
    ensures Line(items, tail) == Core(items[0]) + (" " + Line(items[1..], tail))
  {
    hide Core;
    var rest := items[1..];
    assert items[..|items| - 1][1..] == rest[..|rest| - 1];
  }

  lemma BlankTail(tail: string)
    requires tail in {"", " "}
    ensures Items(tail) == []
  {
    if tail == " " { SpaceBefore(""); }
  }

  lemma ItemsSpace(s: string)
    ensures Items(" " + s) == Items(s)
  {
    SpaceBefore(s);
    hide Lex, SkipSpace;
  }

  // ---- a command as items --------------------------------------------------

  function WordItems(words: seq<string>): (r: seq<Item>)
    ensures |r| == |words| && forall i :: 0 <= i < |r| ==> r[i] == Word(words[i])
  {
    if words == [] then [] else [Word(words[0])] + WordItems(words[1..])
  }

  /** The redirections and the '|' behind the words of stage `i`. */
  function EndItems(c: Command, i: nat): seq<Item> {
    (if i == 0 && c.input.Some? then [In(c.input.value)] else [])
    + (if i != |c.stages| - 1 then [Pipe] else if c.output.Some? then [Out(c.output.value, c.append)] else [])
  }

  function ItemsFrom(c: Command, i: nat): seq<Item>
    decreases |c.stages| - i
  {
    if i >= |c.stages| then [] else WordItems(c.stages[i]) + EndItems(c, i) + ItemsFrom(c, i + 1)
  }

  lemma {:induction false} WordsPrinted(words: seq<string>)
    ensures PrintWords(words) == PrintItems(WordItems(words))
  {
    if words != [] {
      WordsPrinted(words[1..]);
      assert WordItems(words)[1..] == WordItems(words[1..]);
    }
  }

  lemma EndPrinted(c: Command, i: nat)
    ensures PrintItems(EndItems(c, i)) ==
            (if i == 0 then PrintInput(c.input) else "")
            + (if i == |c.stages| - 1 then PrintOutput(c.output, c.append) else "| ")
  {
    var a := if i == 0 && c.input.Some? then [In(c.input.value)] else [];
    var b := if i != |c.stages| - 1 then [Pipe] else if c.output.Some? then [Out(c.output.value, c.append)] else [];
    PrintItemsAppend(a, b);
    assert forall x: Item :: PrintItems([x]) == Core(x) + " " + PrintItems([x][1..]);
    assert "|" + " " == "| ";
  }

  lemma {:induction false} StagesPrinted(c: Command, i: nat)
    ensures PrintStages(c, i) == PrintItems(ItemsFrom(c, i))
    decreases |c.stages| - i
  {
    hide PrintInput, PrintOutput, PrintItems, EndItems, WordItems;
    if i < |c.stages| {
      StagesPrinted(c, i + 1);
      WordsPrinted(c.stages[i]);
      EndPrinted(c, i);
      PrintItemsAppend(WordItems(c.stages[i]), EndItems(c, i));
      PrintItemsAppend(WordItems(c.stages[i]) + EndItems(c, i), ItemsFrom(c, i + 1));
    } else {
      NothingPrinted();
    }
  }

  lemma NothingPrinted()
    ensures PrintItems([]) == ""
  {
  }

  lemma FeedWord(d: Draft, w: string, rest: seq<Item>)
    ensures Feed(d, [Word(w)] + rest) == Feed(d.(open := d.open + [w]), rest)
  {
    assert ([Word(w)] + rest)[1..] == rest;
  }

  lemma MoreWords(words: seq<string>, rest: seq<Item>)
    requires words != []
    ensures WordItems(words) + rest == [Word(words[0])] + (WordItems(words[1..]) + rest)
  {
  }

  /** Reading words adds them to the open stage. */
  lemma {:induction false} FeedWords(d: Draft, words: seq<string>, rest: seq<Item>)
    ensures Feed(d, WordItems(words) + rest) == Feed(d.(open := d.open + words), rest)
    decreases |words|
  {
    if words == [] {
      assert WordItems(words) + rest == rest;
      assert d.open + words == d.open;
    } else {
      hide *;
      MoreWords(words, rest);
      FeedWord(d, words[0], WordItems(words[1..]) + rest);
      FeedWords(d.(open := d.open + [words[0]]), words[1..], rest);
      Assoc(d.open, [words[0]], words[1..]);
      assert words == [words[0]] + words[1..];
    }
  }

  function Before(c: Command, i: nat): Draft
    requires i <= |c.stages|
  {
    Draft(c.stages[..i], [], if i == 0 then None else c.input, None, false)
  }

  lemma FeedEnd(c: Command, i: nat, rest: seq<Item>)
    requires i < |c.stages| && c.stages[i] != [] && (c.output.None? ==> !c.append)
    ensures Feed(Before(c, i).(open := c.stages[i]), EndItems(c, i) + rest) ==
            if i != |c.stages| - 1 then Feed(Before(c, i + 1), rest)
            else Feed(Draft(c.stages[..i], c.stages[i], c.input, c.output, c.append), rest)
  {
    var d := Before(c, i).(open := c.stages[i]);
    var e := EndItems(c, i);
    assert c.stages[..i + 1] == c.stages[..i] + [c.stages[i]];
    var d1 := d.(input := c.input);
    if i == 0 && c.input.Some? {
      assert (e + rest)[0] == e[0] && (e + rest)[1..] == e[1..] + rest;
      assert Feed(d, e + rest) == Feed(d1, e[1..] + rest);
    } else {
      assert d1 == d;
    }
    var f := if i == 0 && c.input.Some? then e[1..] else e;
    if f == [] {
      assert f + rest == rest;
    } else {
      assert (f + rest)[0] == f[0] && (f + rest)[1..] == rest;
    }
  }

  lemma {:induction false} FeedStages(c: Command, i: nat)
    requires i < |c.stages| && (forall k :: 0 <= k < |c.stages| ==> c.stages[k] != []) && (c.output.None? ==> !c.append)
    ensures var n := |c.stages| - 1;
            Feed(Before(c, i), ItemsFrom(c, i)) == Ok(Draft(c.stages[..n], c.stages[n], c.input, c.output, c.append))
    decreases |c.stages| - i
  {
    hide Feed, EndItems, WordItems;
    var rest := ItemsFrom(c, i + 1);
    assert ItemsFrom(c, i) == WordItems(c.stages[i]) + (EndItems(c, i) + rest);
    FeedWords(Before(c, i), c.stages[i], EndItems(c, i) + rest);
    assert [] + c.stages[i] == c.stages[i];
    FeedEnd(c, i, rest);
    if i < |c.stages| - 1 {
      FeedStages(c, i + 1);
    } else {
      FeedNothing(Draft(c.stages[..i], c.stages[i], c.input, c.output, c.append));
    }
  }

  lemma FeedNothing(d: Draft)
    ensures Feed(d, []) == Ok(d)
  {
  }

  // ---- the printed line ----------------------------------------------------

  /** Is this an item a printed line may end with? */
  predicate Closing(x: Item) {
    CleanItem(x) && !Fatal(x) && !x.Pipe?
  }

  lemma EndClean(c: Command, i: nat)
    requires WellFormed(c) && i < |c.stages|
    ensures CleanItems(EndItems(c, i)) && forall k :: 0 <= k < |EndItems(c, i)| ==> !Fatal(EndItems(c, i)[k])
    ensures i == |c.stages| - 1 && EndItems(c, i) != [] ==> Closing(EndItems(c, i)[|EndItems(c, i)| - 1])
  {
    hide IsWord;
  }

  lemma {:induction false} ItemsFromClean(c: Command, i: nat)
    requires WellFormed(c) && i < |c.stages|
    ensures var its := ItemsFrom(c, i);
            && its != [] && CleanItems(its) && (forall k :: 0 <= k < |its| ==> !Fatal(its[k]))
            && its[0].Word? && Closing(its[|its| - 1])
    decreases |c.stages| - i
  {
    hide IsWord, EndItems;
    assert AllWords(c.stages[i]) && c.stages[i] != [];
    EndClean(c, i);
    if i < |c.stages| - 1 {
      ItemsFromClean(c, i + 1);
    }
  }

  lemma CoreEnds(x: Item)
    requires CleanItem(x) && !Fatal(x)
    ensures Core(x) != "" && Clean(Core(x)) && !IsSpace(Core(x)[|Core(x)| - 1])
    ensures x.Word? ==> !IsSpace(Core(x)[0])
    ensures Closing(x) ==> !IsStop(Core(x)[|Core(x)| - 1])
  {
  }

  lemma {:induction false} PrintItemsClean(items: seq<Item>)
    requires CleanItems(items) && forall k :: 0 <= k < |items| ==> !Fatal(items[k])
    ensures Clean(PrintItems(items))
  {
    hide Core, CleanItem;
    if items != [] {
      CoreEnds(items[0]);
      PrintItemsClean(items[1..]);
    }
  }

  lemma {:induction false} UncommentClean(s: string)
    requires Clean(s)
    ensures Uncomment(s) == s
  {
    if s != [] {
      UncommentClean(s[1..]);
    }
  }

  lemma TrimBlank(s: string, c: char)
    requires IsSpace(c)
    ensures TrimEnd(s + [c]) == TrimEnd(s)
  {
    assert (s + [c])[..|s|] == s;
  }

  /** A line that ends in '&'. */
  lemma TrimBackground(p: string)
    requires Clean(p) && p != "" && !IsSpace(p[0])
    ensures Trimmed(p + "&" + "\n") == p + "&"
  {
    var s := p + "&" + "\n";
    CleanEnd(p, true);
    UncommentClean(s);
    Blanks();
    hide IsSpace, Clean, Uncomment, SkipSpace, TrimEnd;
    assert s[0] == p[0];
    NoSkip(s);
    assert s == (p + "&") + ['\n'];
    TrimBlank(p + "&", '\n');
    NoTrim(p + "&");
  }

  /** A line that ends in one space. */
  lemma TrimForeground(u: string)
    requires Clean(u + " ") && u != "" && !IsSpace(u[0]) && !IsSpace(u[|u| - 1])
    ensures Trimmed(u + " " + "" + "\n") == u
  {
    var s := u + " " + "" + "\n";
    CleanEnd(u + " ", false);
    UncommentClean(s);
    Blanks();
    hide IsSpace, Clean, Uncomment, SkipSpace, TrimEnd;
    assert s[0] == u[0];
    NoSkip(s);
    assert s == (u + [' ']) + ['\n'];
    TrimBlank(u + [' '], '\n');
    TrimBlank(u, ' ');
    NoTrim(u);
  }

  lemma LineEnds(items: seq<Item>)
    requires items != [] && CleanItems(items) && (forall k :: 0 <= k < |items| ==> !Fatal(items[k]))
    requires items[0].Word? && Closing(items[|items| - 1])
    ensures var u := Line(items, "");
            && u != "" && !IsSpace(u[0]) && !IsSpace(u[|u| - 1]) && u[|u| - 1] != '&'
            && PrintItems(items) == u + " " && Line(items, " ") == u + " " && Clean(u + " ")
  {
    hide Core, CleanItem, Clean, Fatal, IsSpace, IsStop, Closing;
    var l := |items| - 1;
    ClosingStops(items[l]);
    PrintItemsClean(items);
    CoreEnds(items[0]);
    CoreEnds(items[l]);
    LineIs(items);
    var u := Line(items, "");
    assert u == PrintItems(items[..l]) + Core(items[l]);
    assert u[|u| - 1] == Core(items[l])[|Core(items[l])| - 1];
    assert u[0] == (u + " ")[0] == (Core(items[0]) + " " + PrintItems(items[1..]))[0] == Core(items[0])[0];
    AmpersandStops();
  }

  lemma ClosingStops(x: Item)
    requires Closing(x)
    ensures CleanItem(x) && !Fatal(x)
  {
  }

  /** A printed line, trimmed. */
  lemma PrintedLine(items: seq<Item>, background: bool)
    requires items != [] && CleanItems(items) && (forall k :: 0 <= k < |items| ==> !Fatal(items[k]))
    requires items[0].Word? && Closing(items[|items| - 1])
    ensures var t := Trimmed(PrintItems(items) + (if background then "&" else "") + "\n");
            && t == (if background then Line(items, " ") + "&" else Line(items, ""))
            && t != [] && (t[|t| - 1] == '&' <==> background)
  {
    LineEnds(items);
    hide *;
    var u := Line(items, "");
    if background {
      assert (u + " ")[0] == u[0];
      TrimBackground(u + " ");
    } else {
      TrimForeground(u);
    }
  }

  lemma AmpersandStops()
    ensures IsStop('&') && !IsSpace('&')
  {
  }

  lemma Blanks()
    ensures IsSpace(' ') && IsSpace('\n') && !IsSpace('&')
  {
  }

  lemma CleanEnd(s: string, background: bool)
    requires Clean(s)
    ensures Clean(s + (if background then "&" else "") + "\n")
  {
  }

  lemma NoTrim(s: string)
    requires s != [] && !IsSpace(s[|s| - 1])
    ensures TrimEnd(s) == s
  {
  }

  lemma LineIs(items: seq<Item>)
    requires items != []
    ensures PrintItems(items) == Line(items, " ") == Line(items, "") + " "
    ensures PrintItems(items) == Core(items[0]) + " " + PrintItems(items[1..])
  {
    hide Core;
    var l := |items| - 1;
    assert items == items[..l] + [items[l]];
    PrintItemsAppend(items[..l], [items[l]]);
    assert PrintItems([items[l]]) == Core(items[l]) + " " + PrintItems([items[l]][1..]);
  }

  // ---- the round trip ------------------------------------------------------

  lemma {:induction false} ParseItems(c: Command, t: string)
    requires WellFormed(c) && c.stages != [] && Items(t) == ItemsFrom(c, 0)
    ensures ParseText(t, c.background) == Ok(c)
  {
    hide Items, ItemsFrom, Feed, IsWord;
    var n := |c.stages| - 1;
    FeedStages(c, 0);
    assert c.stages[..0] == [];
    assert c.stages[..n] + [c.stages[n]] == c.stages;
    assert c.stages[n] != [];
  }

  /** Every well formed command parses back from its printed line. */
  lemma PrintParse(c: Command)
    requires WellFormed(c)
    ensures Parse(Print(c)) == Ok(c)
  {
    if c.stages == [] {
      hide Parse, Print, IsWord;
      EmptyLine();
    } else {
      var items := ItemsFrom(c, 0);
      ItemsFromClean(c, 0);
      StagesPrinted(c, 0);
      hide *;
      PrintedLine(items, c.background);
      PrintIs(c, items);
      var u := Line(items, if c.background then " " else "");
      ItemsPrinted(items, if c.background then " " else "");
      ParseItems(c, u);
      ParseBody(Print(c), u, c.background);
    }
  }

  lemma PrintIs(c: Command, items: seq<Item>)
    requires PrintStages(c, 0) == PrintItems(items)
    ensures Print(c) == PrintItems(items) + (if c.background then "&" else "") + "\n"
  {
    hide PrintStages, PrintItems;
  }

  lemma ParseBody(line: string, u: string, background: bool)
    requires var t := Trimmed(line);
             t == (if background then u + "&" else u) && t != [] && (t[|t| - 1] == '&' <==> background)
    ensures Parse(line) == ParseText(u, background)
  {
    hide Trimmed, ParseText;
    assert (u + "&")[..|u|] == u;
  }

  lemma EmptyLine()
    ensures Print(NoCommand) == "\n" && Parse("\n") == Ok(NoCommand)
  {
    UncommentClean("\n");
    SkipSpaceBlank();
    hide Uncomment, SkipSpace, PrintStages;
    assert PrintStages(NoCommand, 0) == "" by { NoStages(); }
    assert "" + "" + "\n" == "\n";
    assert TrimEnd([]) == [];
  }

  lemma NoStages()
    ensures PrintStages(NoCommand, 0) == ""
  {
  }

  lemma SkipSpaceBlank()
    ensures SkipSpace("\n") == []
  {
    assert "\n"[1..] == "";
  }

  /** Whatever parses, its printed form parses to the same command. */
  lemma RoundTrip(line: string)
    requires Parse(line).Ok?
    ensures Parse(Print(Parse(line).value)) == Parse(line)
  {
    ParsedWellFormed(line);
    hide Parse, Print, WellFormed;
    PrintParse(Parse(line).value);
  }

  /** The parser produces exactly the well formed commands. */
  lemma ParsesExactly(c: Command)
    ensures WellFormed(c) <==> exists line :: Parse(line) == Ok(c)
  {
    if WellFormed(c) {
      PrintParse(c);
    }
    if exists line :: Parse(line) == Ok(c) {
      var line :| Parse(line) == Ok(c);
      ParsedWellFormed(line);
    }
  }
}
