/** What a command line means, character by character: white space, operators, plain words, error codes. */
module ParserLaws {
  import opened Wrappers
  import opened ParserModel
  import opened ParserGrammar
  import opened ParserPrint

  /** Space, tab, line feed, vertical tab, form feed, carriage return. */
  predicate White(c: char) {
    c in {' ', '\t', '\n', '\U{0B}', '\U{0C}', '\r'}
  }

  lemma WhiteIs(c: char)
    ensures White(c) <==> IsSpace(c)
  {
  }

  // ---- all white space is the same -----------------------------------------

  /** The same characters, except that white space may be other white space. */
  predicate Alike(s: string, t: string) {
    |s| == |t| && forall i :: 0 <= i < |s| ==> s[i] == t[i] || (White(s[i]) && White(t[i]))
  }

  lemma AlikePart(s: string, t: string, i: nat, j: nat)
    requires Alike(s, t) && i <= j <= |s|
    ensures Alike(s[i..j], t[i..j])
  {
  }

  lemma AlikeAt(s: string, t: string, i: nat)
    requires Alike(s, t) && i < |s|
    ensures IsSpace(s[i]) <==> IsSpace(t[i])
    ensures IsStop(s[i]) <==> IsStop(t[i])
    ensures !IsSpace(s[i]) || !IsSpace(t[i]) ==> s[i] == t[i]
  {
    WhiteIs(s[i]);
    WhiteIs(t[i]);
  }

  lemma AlikeRest(s: string, t: string, i: nat)
    requires Alike(s, t) && i <= |s|
    ensures Alike(s[i..], t[i..])
  {
  }

  lemma {:induction false} AlikeSkip(s: string, t: string)
    requires Alike(s, t)
    ensures Alike(SkipSpace(s), SkipSpace(t))
  {
    if s != [] {
      AlikeAt(s, t, 0);
      AlikeRest(s, t, 1);
      hide Alike;
      AlikeSkip(s[1..], t[1..]);
    }
  }

  lemma {:induction false} AlikeWord(s: string, t: string)
    requires Alike(s, t)
    ensures WordLen(s) == WordLen(t) && s[..WordLen(s)] == t[..WordLen(t)]
  {
    if s != [] {
      AlikeAt(s, t, 0);
      AlikeRest(s, t, 1);
      AlikeWord(s[1..], t[1..]);
      hide Alike;
      if !IsStop(s[0]) {
        var n := WordLen(s[1..]);
        assert s[..1 + n] == [s[0]] + s[1..][..n] && t[..1 + n] == [t[0]] + t[1..][..n];
      }
    }
  }

  lemma AlikeName(s: string, t: string)
    requires Alike(s, t)
    ensures Name(s).name == Name(t).name && Alike(Name(s).rest, Name(t).rest)
  {
    AlikeSkip(s, t);
    var f, g := SkipSpace(s), SkipSpace(t);
    AlikeWord(f, g);
    AlikeRest(f, g, WordLen(f));
    hide Alike, SkipSpace, WordLen, Suffix;
  }

  lemma NotWhite()
    ensures !IsSpace('&') && !IsSpace('<') && !IsSpace('>') && !IsSpace('|') && !IsSpace('#')
  {
  }

  lemma AlikeLex(r: string, u: string)
    requires Alike(r, u) && |r| > 0 && !IsSpace(r[0])
    ensures |u| > 0 && Lex(r).item == Lex(u).item && Alike(Lex(r).rest, Lex(u).rest)
  {
    AlikeAt(r, u, 0);
    AlikeRest(r, u, 1);
    assert |u| == |r|;
    if r[0] == '<' {
      AlikeName(r[1..], u[1..]);
      hide Alike, Name, WordLen, IsStop, IsSpace;
    } else if r[0] == '>' {
      AlikeOutput(r, u);
      hide Alike, Output, IsSpace;
    } else if r[0] != '|' && r[0] != '&' {
      AlikeWord(r, u);
      AlikeRest(r, u, WordLen(r));
      hide Alike, WordLen, IsStop, IsSpace;
    } else {
      hide Alike, IsSpace;
    }
  }

  lemma AlikeOutput(r: string, u: string)
    requires Alike(r, u) && |r| > 0
    ensures |u| > 0 && Output(r).item == Output(u).item && Alike(Output(r).rest, Output(u).rest)
  {
    var n := if Appends(r) then 2 else 1;
    if |r| > 1 { AlikeAt(r, u, 1); NotWhite(); }
    assert |u| == |r| && (Appends(r) <==> Appends(u)) by { hide Name; }
    AlikeRest(r, u, n);
    AlikeName(r[n..], u[n..]);
    hide Alike, Name, Appends;
  }

  lemma {:induction false} AlikeItems(s: string, t: string)
    requires Alike(s, t)
    ensures Items(s) == Items(t)
    decreases |s|
  {
    ItemsUnfold(s);
    ItemsUnfold(t);
    AlikeSkip(s, t);
    hide Lex, Items, SkipSpace, Fatal;
    var r, u := SkipSpace(s), SkipSpace(t);
    if |r| > 0 {
      AlikeLex(r, u);
      if !Fatal(Lex(r).item) { AlikeItems(Lex(r).rest, Lex(u).rest); }
    }
  }

  lemma {:induction false} AlikeUncomment(s: string, t: string)
    requires Alike(s, t)
    ensures Alike(Uncomment(s), Uncomment(t))
  {
    if s != [] {
      AlikeAt(s, t, 0);
      AlikeRest(s, t, 1);
      AlikeUncomment(s[1..], t[1..]);
    }
  }

  lemma {:induction false} AlikeTrim(s: string, t: string)
    requires Alike(s, t)
    ensures Alike(TrimEnd(s), TrimEnd(t))
  {
    if s != [] {
      AlikeAt(s, t, |s| - 1);
      AlikePart(s, t, 0, |s| - 1);
      hide Alike;
      AlikeTrim(s[..|s| - 1], t[..|t| - 1]);
    }
  }

  /** Which white space stands somewhere makes no difference. */
  lemma WhiteAlike(s: string, t: string)
    requires Alike(s, t)
    ensures Parse(s) == Parse(t)
  {
    hide *;
    TrimmedAlike(s, t);
    AlikeParse(Trimmed(s), Trimmed(t));
    SameParse(s, t);
  }

  lemma TrimmedAlike(s: string, t: string)
    requires Alike(s, t)
    ensures Alike(Trimmed(s), Trimmed(t))
  {
    AlikeUncomment(s, t);
    AlikeSkip(Uncomment(s), Uncomment(t));
    AlikeTrim(SkipSpace(Uncomment(s)), SkipSpace(Uncomment(t)));
    hide Alike, Uncomment, SkipSpace, TrimEnd;
  }

  predicate EndsInAmpersand(a: string) {
    a != [] && a[|a| - 1] == '&'
  }

  /** All but the last character. */
  function Cut(a: string): string {
    if a == [] then [] else a[..|a| - 1]
  }

  /** The same items, with and without the last character, and the same final '&'. */
  predicate SameText(a: string, b: string) {
    && (a == [] <==> b == []) && (EndsInAmpersand(a) <==> EndsInAmpersand(b))
    && Items(a) == Items(b) && Items(Cut(a)) == Items(Cut(b))
  }

  /** A line means what its items mean. */
  lemma SameParse(s: string, t: string)
    requires SameText(Trimmed(s), Trimmed(t))
    ensures Parse(s) == Parse(t)
  {
    hide Trimmed, Items, Feed, Close;
  }

  lemma AlikeParse(a: string, b: string)
    requires Alike(a, b)
    ensures SameText(a, b)
  {
    hide Items, Alike, Cut, EndsInAmpersand;
    AlikeCut(a, b);
    AlikeItems(a, b);
    AlikeItems(Cut(a), Cut(b));
  }

  lemma AlikeCut(a: string, b: string)
    requires Alike(a, b)
    ensures Alike(Cut(a), Cut(b)) && (EndsInAmpersand(a) <==> EndsInAmpersand(b)) && |a| == |b|
  {
    NotWhite();
    if a != [] { AlikeAt(a, b, |a| - 1); }
  }

  /** A tab, line feed, vertical tab, form feed or carriage return separates words as a space does. */
  lemma TabIsSpace(line: string, i: nat)
    requires i < |line| && line[i] in {'\t', '\n', '\U{0B}', '\U{0C}', '\r'}
    ensures Parse(line[i := ' ']) == Parse(line)
  {
    WhiteAlike(line[i := ' '], line);
  }

  // ---- where white space makes no difference -------------------------------

  function Insert(s: string, k: nat, c: char): string
    requires k <= |s|
  {
    s[..k] + [c] + s[k..]
  }

  /** At the ends, and next to an operator or white space, but not inside ">>". */
  predicate Gap(s: string, k: nat) {
    && k <= |s|
    && (k == 0 || k == |s| || IsStop(s[k - 1]) || IsStop(s[k]))
    && !(0 < k < |s| && s[k - 1] == '>' && s[k] == '>')
  }

  /** `t` is `s`, with a white-space character more in some gap at most. */
  ghost predicate Spaced(s: string, t: string, c: char) {
    t == s || exists k: nat :: k <= |s| && Gap(s, k) && t == Insert(s, k, c)
  }

  lemma InsertRest(s: string, k: nat, c: char, n: nat)
    requires n <= k <= |s|
    ensures n <= |Insert(s, k, c)| && Insert(s, k, c)[..n] == s[..n]
    ensures Insert(s, k, c)[n..] == Insert(s[n..], k - n, c)
  {
  }

  lemma GapRest(s: string, k: nat, n: nat)
    requires Gap(s, k) && n <= k
    ensures Gap(s[n..], k - n)
  {
  }

  lemma SpacedRest(s: string, k: nat, c: char, n: nat)
    requires Gap(s, k) && n <= k
    ensures n <= |Insert(s, k, c)| && Insert(s, k, c)[..n] == s[..n]
    ensures Spaced(s[n..], Insert(s, k, c)[n..], c)
  {
    InsertRest(s, k, c, n);
    GapRest(s, k, n);
  }

  /** Skipping leading white space swallows one more, or leaves it where it is. */
  lemma {:induction false} SkipInsert(s: string, k: nat, c: char)
    requires k <= |s| && IsSpace(c)
    ensures var r, u := SkipSpace(s), SkipSpace(Insert(s, k, c));
            var p := |s| - |r|;
            if k <= p then u == r else u == Insert(r, k - p, c)
  {
    hide Insert, IsSpace, SkipSpace, Suffix;
    SkipUnfold(s);
    SkipUnfold(Insert(s, k, c));
    if k == 0 {
      InsertFirst(s, c);
    } else {
      InsertNext(s, k, c);
      if IsSpace(s[0]) { SkipInsert(s[1..], k - 1, c); }
    }
  }

  lemma SkipUnfold(s: string)
    ensures SkipSpace(s) == (if s != [] && IsSpace(s[0]) then SkipSpace(s[1..]) else s) && |SkipSpace(s)| <= |s|
    ensures s != [] && IsSpace(s[0]) ==> |SkipSpace(s)| < |s|
  {
  }

  lemma InsertFirst(s: string, c: char)
    ensures var t := Insert(s, 0, c); t != [] && t[0] == c && t[1..] == s
  {
  }

  lemma InsertNext(s: string, k: nat, c: char)
    requires 0 < k <= |s|
    ensures var t := Insert(s, k, c); t != [] && t[0] == s[0] && t[1..] == Insert(s[1..], k - 1, c)
  {
  }

  /** A gap inside or behind a text that starts with a word is behind the word. */
  lemma WordInsert(r: string, k: nat, c: char)
    requires 0 < k && Gap(r, k) && IsSpace(c)
    ensures var n, u := WordLen(r), Insert(r, k, c);
            && WordLen(u) == n <= |u| && u[..n] == r[..n] && Spaced(r[n..], u[n..], c)
  {
    var n, u := WordLen(r), Insert(r, k, c);
    assert n <= k;
    SpacedRest(r, k, c, n);
    assert u == r[..n] + u[n..];
    assert IsStop(c);
    if u[n..] != [] { assert u[n] == if k == n then c else r[n]; }
    WordLenIs(r[..n], u[n..]);
  }

  lemma NameInsert(f: string, k: nat, c: char)
    requires Gap(f, k) && IsSpace(c)
    ensures var g := Insert(f, k, c); Name(g).name == Name(f).name && Spaced(Name(f).rest, Name(g).rest, c)
  {
    hide Gap, Insert, SkipSpace, Suffix, IsStop, IsSpace, Name;
    GapEnds(f, k);
    var r := SkipSpace(f);
    var p := |f| - |r|;
    SkipRest(f);
    SkipInsert(f, k, c);
    if k > p {
      GapRest(f, k, p);
      NameBehindSpace(f, Insert(f, k, c), k - p, c);
    } else {
      NameSame(f, Insert(f, k, c), c);
    }
  }

  lemma NameSame(f: string, g: string, c: char)
    requires SkipSpace(f) == SkipSpace(g)
    ensures Name(g) == Name(f) && Spaced(Name(f).rest, Name(g).rest, c)
  {
  }

  lemma NameBehindSpace(f: string, g: string, j: nat, c: char)
    requires 0 < j && Gap(SkipSpace(f), j) && SkipSpace(g) == Insert(SkipSpace(f), j, c) && IsSpace(c)
    ensures Name(g).name == Name(f).name && Spaced(Name(f).rest, Name(g).rest, c)
  {
    WordInsert(SkipSpace(f), j, c);
    hide Gap, Insert, SkipSpace, Suffix, IsStop, IsSpace, WordLen, Spaced;
  }

  lemma SkipRest(f: string)
    ensures |SkipSpace(f)| <= |f| && SkipSpace(f) == f[|f| - |SkipSpace(f)|..]
  {
  }

  lemma GapEnds(s: string, k: nat)
    requires Gap(s, k)
    ensures k <= |s| && (0 < k < |s| && s[k - 1] == '>' ==> s[k] != '>')
  {
  }

  lemma LexInsert(r: string, k: nat, c: char)
    requires |r| > 0 && !IsSpace(r[0]) && 0 < k && Gap(r, k) && IsSpace(c)
    ensures var u := Insert(r, k, c);
            && |u| > 0 && u[0] == r[0] && Lex(u).item == Lex(r).item && Spaced(Lex(r).rest, Lex(u).rest, c)
  {
    var u := Insert(r, k, c);
    assert |u| == |r| + 1 && u[0] == r[0];
    InsertRest(r, k, c, 1);
    GapRest(r, k, 1);
    if r[0] == '<' {
      NameInsert(r[1..], k - 1, c);
      hide Gap, Insert, Name, WordLen, Spaced;
    } else if r[0] == '>' {
      OutputInsert(r, k, c);
      hide Gap, Insert, Output, WordLen, Spaced;
    } else if r[0] == '|' || r[0] == '&' {
      hide Gap, Insert, WordLen;
    } else {
      WordInsert(r, k, c);
      hide Gap, Insert, WordLen, Spaced;
    }
  }

  lemma OutputInsert(r: string, k: nat, c: char)
    requires |r| > 0 && r[0] == '>' && 0 < k && Gap(r, k) && IsSpace(c)
    ensures var u := Insert(r, k, c);
            && |u| > 0 && Output(u).item == Output(r).item && Spaced(Output(r).rest, Output(u).rest, c)
  {
    hide Gap, Insert, Name, Spaced, IsSpace, IsStop;
    GapEnds(r, k);
    var u := Insert(r, k, c);
    var n := if Appends(r) then 2 else 1;
    InsertSecond(r, k, c);
    InsertRest(r, k, c, n);
    GapRest(r, k, n);
    NameInsert(r[n..], k - n, c);
  }

  /** The character behind the first. */
  lemma InsertSecond(r: string, k: nat, c: char)
    requires 0 < k <= |r| && IsSpace(c)
    ensures var u := Insert(r, k, c); |u| == |r| + 1 && u[1] == (if k == 1 then c else r[1]) && c != '>'
  {
  }

  /** White space in a gap changes no item. */
  lemma {:induction false} ItemsInsert(s: string, k: nat, c: char)
    requires Gap(s, k) && IsSpace(c)
    ensures Items(Insert(s, k, c)) == Items(s)
    decreases |s|
  {
    var t, r := Insert(s, k, c), SkipSpace(s);
    ItemsUnfold(s);
    ItemsUnfold(t);
    SkipInsert(s, k, c);
    var p := |s| - |r|;
    if k > p {
      GapRest(s, k, p);
      LexInsert(r, k - p, c);
      hide Lex, Items, SkipSpace, Fatal, Gap, Insert;
      var a, b := Lex(r).rest, Lex(SkipSpace(t)).rest;
      if b != a {
        var j: nat :| j <= |a| && Gap(a, j) && b == Insert(a, j, c);
        if !Fatal(Lex(r).item) { ItemsInsert(a, j, c); }
      }
    }
  }

  // ---- the same for whole lines --------------------------------------------

  lemma {:induction false} UncommentIs(s: string, n: nat)
    requires n <= |s| && '#' !in s[..n] && (n < |s| ==> s[n] == '#')
    ensures Uncomment(s) == s[..n]
  {
    if n > 0 {
      assert s[..n] == [s[0]] + s[1..][..n - 1];
      assert s[0] in s[..n] && forall c :: c in s[1..][..n - 1] ==> c in s[..n];
      UncommentIs(s[1..], n - 1);
    }
  }

  lemma InsertFront(s: string, k: nat, c: char, n: nat)
    requires k <= |s| && n <= |s|
    ensures |Insert(s, k, c)| == |s| + 1
    ensures k <= n ==> Insert(s, k, c)[..n + 1] == Insert(s[..n], k, c)
    ensures n <= k ==> Insert(s, k, c)[..n] == s[..n]
  {
  }

  lemma InsertAt(s: string, k: nat, c: char, i: nat)
    requires k <= |s| && i <= |s|
    ensures |Insert(s, k, c)| == |s| + 1 && Insert(s, k, c)[i] == if i < k then s[i] else if i == k then c else s[i - 1]
  {
  }

  lemma GapWithin(line: string, u: string, i: nat)
    requires u <= line && '#' !in u && i <= |u|
    requires i == 0 || i == |line| || Separates(line[i - 1]) || Separates(line[i])
    requires !(0 < i < |line| && line[i - 1] == '>' && line[i] == '>')
    ensures Gap(u, i)
  {
    if 0 < i < |u| {
      assert u[i - 1] == line[i - 1] && u[i] == line[i] && u[i - 1] in u && u[i] in u;
      SeparatorStops(u[i - 1]);
      SeparatorStops(u[i]);
    }
  }

  lemma {:induction false} TrimIs(s: string, n: nat)
    requires n <= |s| && (forall i :: n <= i < |s| ==> IsSpace(s[i])) && (n > 0 ==> !IsSpace(s[n - 1]))
    ensures TrimEnd(s) == s[..n]
    decreases |s|
  {
    if n < |s| {
      TrimIs(s[..|s| - 1], n);
      assert s[..|s| - 1][..n] == s[..n];
    } else {
      assert s[..n] == s;
    }
  }

  /** A white-space character or an operator, or the start of a comment. */
  predicate Separates(c: char) {
    White(c) || c in {'<', '>', '|', '&', '#'}
  }

  /** A gap of the line is a gap of what is left without the comment. */
  lemma UncommentInsert(line: string, i: nat, c: char)
    requires i <= |line| && White(c) && (i == 0 || i == |line| || Separates(line[i - 1]) || Separates(line[i]))
    requires !(0 < i < |line| && line[i - 1] == '>' && line[i] == '>')
    ensures var u := Uncomment(line);
            if i <= |u| then Gap(u, i) && Uncomment(Insert(line, i, c)) == Insert(u, i, c)
            else Uncomment(Insert(line, i, c)) == u
  {
    hide Insert, Uncomment, Gap, Separates;
    var u, l := Uncomment(line), Insert(line, i, c);
    InsertFront(line, i, c, |u|);
    assert c != '#';
    if i <= |u| {
      GapWithin(line, u, i);
      NoComment(u, i, c);
      if |u| < |line| { InsertAt(line, i, c, |u| + 1); }
      UncommentIs(l, |u| + 1);
    } else {
      InsertAt(line, i, c, |u|);
      UncommentIs(l, |u|);
    }
  }

  lemma NoComment(u: string, i: nat, c: char)
    requires '#' !in u && c != '#' && i <= |u|
    ensures '#' !in Insert(u, i, c)
  {
  }

  lemma SeparatorStops(c: char)
    requires c != '#'
    ensures Separates(c) <==> IsStop(c)
  {
  }

  lemma TrimInsert(r: string, j: nat, c: char)
    requires 0 < j && Gap(r, j) && IsSpace(c) && r != [] && !IsSpace(r[0])
    ensures Inside(TrimEnd(r), TrimEnd(Insert(r, j, c)), c)
  {
    hide Insert, TrimEnd, IsSpace, Gap;
    GapEnds(r, j);
    var n, l := |TrimEnd(r)|, Insert(r, j, c);
    assert n > 0;
    InsertFront(r, j, c, n);
    if j >= n {
      forall i | n <= i < |l| ensures IsSpace(l[i]) { InsertAt(r, j, c, i); }
      TrimIs(l, n);
    } else {
      GapShort(r, j, n);
      forall i | n <= i < |l| ensures l[i] == r[i - 1] { InsertAt(r, j, c, i); }
      TrimIs(l, n + 1);
    }
  }

  lemma GapShort(r: string, j: nat, n: nat)
    requires Gap(r, j) && j < n <= |r|
    ensures Gap(r[..n], j)
  {
  }

  /** `t` is `s`, with a white-space character more in some gap within it at most. */
  ghost predicate Inside(s: string, t: string, c: char) {
    t == s || exists j: nat :: 0 < j < |s| && Gap(s, j) && t == Insert(s, j, c)
  }

  lemma InsideSelf(s: string, c: char)
    ensures Inside(s, s, c)
  {
  }

  lemma EndsInsert(u: string, i: nat, c: char)
    requires Gap(u, i) && IsSpace(c)
    ensures Inside(TrimEnd(SkipSpace(u)), TrimEnd(SkipSpace(Insert(u, i, c))), c)
  {
    hide Gap, Insert, IsSpace, TrimEnd, SkipSpace, Suffix, Inside;
    var r := SkipSpace(u);
    var p := |u| - |r|;
    GapEnds(u, i);
    SkipRest(u);
    SkipInsert(u, i, c);
    InsideSelf(TrimEnd(r), c);
    if i > p {
      GapRest(u, i, p);
      GapEnds(r, i - p);
      TrimInsert(r, i - p, c);
    }
  }

  lemma TrimmedInsert(line: string, i: nat, c: char)
    requires i <= |line| && White(c) && (i == 0 || i == |line| || Separates(line[i - 1]) || Separates(line[i]))
    requires !(0 < i < |line| && line[i - 1] == '>' && line[i] == '>')
    ensures Inside(Trimmed(line), Trimmed(Insert(line, i, c)), c)
  {
    WhiteIs(c);
    UncommentInsert(line, i, c);
    hide Gap, Insert, IsSpace, Separates, White, Uncomment, TrimEnd, SkipSpace, Inside;
    InsideSelf(Trimmed(line), c);
    if i <= |Uncomment(line)| { EndsInsert(Uncomment(line), i, c); }
  }

  /** Next to an operator, white space or a comment, and at the ends of the line, more white space makes no
      difference, except inside ">>". */
  lemma SpaceFree(line: string, i: nat, c: char)
    requires i <= |line| && White(c) && (i == 0 || i == |line| || Separates(line[i - 1]) || Separates(line[i]))
    requires !(0 < i < |line| && line[i - 1] == '>' && line[i] == '>')
    ensures Parse(Insert(line, i, c)) == Parse(line)
  {
    hide *;
    TrimmedInsert(line, i, c);
    WhiteIs(c);
    InsideParse(Trimmed(line), Trimmed(Insert(line, i, c)), c);
    SameParse(line, Insert(line, i, c));
  }

  lemma InsideParse(t: string, t': string, c: char)
    requires Inside(t, t', c) && IsSpace(c)
    ensures SameText(t, t')
  {
    hide Gap, Insert, Items, Cut, EndsInAmpersand;
    if t' != t {
      var j: nat :| 0 < j < |t| && Gap(t, j) && t' == Insert(t, j, c);
      ItemsInsert(t, j, c);
      CutInsert(t, j, c);
      ItemsInsert(Cut(t), j, c);
    }
  }

  lemma CutInsert(t: string, j: nat, c: char)
    requires 0 < j < |t| && Gap(t, j)
    ensures var t' := Insert(t, j, c);
            && Gap(Cut(t), j) && t' != [] && (EndsInAmpersand(t') <==> EndsInAmpersand(t))
            && Cut(t') == Insert(Cut(t), j, c)
  {
    assert Insert(t, j, c)[|t|] == t[|t| - 1];
  }

  /** Whatever follows a '#' makes no difference. */
  lemma CommentFree(line: string, x: string)
    ensures Parse(line + "#" + x) == Parse(line)
  {
    hide Parse, SkipSpace, TrimEnd, Uncomment;
    var u, l := Uncomment(line), line + "#" + x;
    assert l[..|u|] == u && l[|u|] == '#';
    UncommentIs(l, |u|);
    assert Trimmed(l) == Trimmed(line);
    SameParse(l, line);
  }

  // ---- plain words and what lines of them mean -----------------------------

  /** A word of ordinary characters. */
  predicate Plain(w: string) {
    w != "" &&
    forall i :: 0 <= i < |w| ==>
      w[i] !in {'<', '>', '|', '&', '#', ' ', '\t', '\n', '\U{0B}', '\U{0C}', '\r'}
  }

  lemma PlainWord(w: string)
    ensures Plain(w) <==> IsWord(w)
  {
    forall i | 0 <= i < |w| { WhiteIs(w[i]); }
  }

  /** Pieces with one space between them. */
  function Joined(ts: seq<string>): string
    decreases |ts|, 0
  {
    if ts == [] then "" else ts[0] + Tail(ts[1..])
  }

  function Tail(ts: seq<string>): string
    decreases |ts|, 1
  {
    if ts == [] then "" else " " + Joined(ts)
  }

  lemma JoinedMore(t: string, ts: seq<string>)
    ensures Joined([t] + ts) == t + Tail(ts) && (Tail(ts) != [] ==> IsSpace(Tail(ts)[0]))
    ensures Items(Tail(ts)) == Items(Joined(ts))
  {
    hide Items;
    assert ([t] + ts)[1..] == ts;
    if ts != [] { ItemsSpace(Joined(ts)); }
  }

  lemma JoinedName(o: string, f: string, ts: seq<string>)
    ensures Joined([o, f] + ts) == o + (" " + (f + Tail(ts)))
  {
    JoinedMore(f, ts);
    JoinedMore(o, [f] + ts);
    assert [o, f] + ts == [o] + ([f] + ts);
  }

  lemma WordReads(w: string, ts: seq<string>)
    requires Plain(w)
    ensures Items(Joined([w] + ts)) == [Word(w)] + Items(Joined(ts))
  {
    hide Items, Joined, Tail, Plain, IsWord, IsSpace;
    JoinedMore(w, ts);
    PlainWord(w);
    ItemsCore(Word(w), Tail(ts));
  }

  lemma InReads(f: string, ts: seq<string>)
    requires Plain(f)
    ensures Items(Joined(["<", f] + ts)) == [In(f)] + Items(Joined(ts))
  {
    hide Items, Joined, Tail, Plain, IsWord, IsSpace, Core;
    JoinedMore(f, ts);
    JoinedName("<", f, ts);
    PlainWord(f);
    CoreIs(In(f), Tail(ts));
    ItemsCore(In(f), Tail(ts));
  }

  lemma OutReads(f: string, append: bool, ts: seq<string>)
    requires Plain(f)
    ensures Items(Joined([if append then ">>" else ">", f] + ts)) == [Out(f, append)] + Items(Joined(ts))
  {
    hide Items, Joined, Tail, Plain, IsWord, IsSpace, Core;
    JoinedMore(f, ts);
    JoinedName(if append then ">>" else ">", f, ts);
    PlainWord(f);
    CoreIs(Out(f, append), Tail(ts));
    ItemsCore(Out(f, append), Tail(ts));
  }

  lemma PipeReads(ts: seq<string>)
    ensures Items(Joined(["|"] + ts)) == [Pipe] + Items(Joined(ts))
  {
    hide Items, Joined, Tail, IsSpace;
    JoinedMore("|", ts);
    ItemsCore(Pipe, Tail(ts));
  }

  lemma AmpersandReads(ts: seq<string>)
    ensures Items(Joined(["&"] + ts)) == [Ampersand]
  {
    JoinedMore("&", ts);
    var s := "&" + Tail(ts);
    assert s[0] == '&' && !IsSpace('&');
    hide Tail, Items, Joined, IsSpace, Input, Output, FirstWord, Behind;
    ItemsUnfold(s);
    NoSkip(s);
  }

  /** An operator without the name that must follow it. */
  lemma BareReads(o: string)
    requires o in {"<", ">"}
    ensures Items(Joined([o])) == [if o == "<" then NoInName else NoOutName]
  {
    hide *;
    JoinedMore(o, []);
    TailNone();
    assert [o] + [] == [o] && o + "" == o && |o| == 1;
    NotWhite();
    NoSkip(o);
    ItemsUnfold(o);
    BareLex(o);
  }

  lemma BareLex(o: string)
    requires o in {"<", ">"}
    ensures Lex(o).item == (if o == "<" then NoInName else NoOutName) && Fatal(Lex(o).item)
  {
    assert o[1..] == "";
    NoName();
    hide Name, WordLen, SkipSpace, Suffix;
  }

  lemma NoName()
    ensures Name("").name == ""
  {
  }

  lemma TailNone()
    ensures Tail([]) == "" && Joined([]) == ""
  {
  }

  lemma NothingReads()
    ensures Items(Joined([])) == []
  {
    BlankTail("");
  }

  // ---- joined pieces as a line ---------------------------------------------

  /** Something without white space or '#'. */
  predicate Piece(t: string) {
    t != "" && forall i :: 0 <= i < |t| ==> !White(t[i]) && t[i] != '#'
  }

  predicate Pieces(ts: seq<string>) {
    ts != [] && forall i :: 0 <= i < |ts| ==> Piece(ts[i])
  }

  /** Nothing to cut off: no comment, and no white space at the ends. */
  predicate Bare(s: string) {
    Clean(s) && s != "" && !IsSpace(s[0]) && !IsSpace(s[|s| - 1])
  }

  lemma PieceBare(t: string)
    requires Piece(t)
    ensures Bare(t)
  {
    WhiteIs(t[0]);
    WhiteIs(t[|t| - 1]);
  }

  function End(s: string): char {
    if s == "" then ' ' else s[|s| - 1]
  }

  lemma BareBoth(t: string, u: string)
    requires Bare(t) && Bare(u)
    ensures Bare(t + (" " + u)) && End(t + (" " + u)) == End(u)
  {
    var s := t + (" " + u);
    assert s[0] == t[0] && s[|s| - 1] == u[|u| - 1];
    hide IsSpace;
  }

  lemma {:induction false} JoinedEnds(ts: seq<string>)
    requires Pieces(ts)
    ensures Bare(Joined(ts)) && End(Joined(ts)) == End(ts[|ts| - 1])
    decreases |ts|
  {
    var t, rest := ts[0], ts[1..];
    assert ts == [t] + rest;
    PieceBare(t);
    JoinedMore(t, rest);
    if rest == [] {
      TailNone();
      assert t + "" == t;
    } else {
      assert Pieces(rest) && rest[|rest| - 1] == ts[|ts| - 1];
      TailSome(rest);
      hide *;
      JoinedEnds(rest);
      BareBoth(t, Joined(rest));
    }
  }

  lemma TailSome(ts: seq<string>)
    requires ts != []
    ensures Tail(ts) == " " + Joined(ts)
  {
  }

  /** A line of pieces means what its items mean. */
  lemma JoinedParse(ts: seq<string>)
    requires Pieces(ts) && End(ts[|ts| - 1]) != '&'
    ensures Parse(Joined(ts)) == ParseText(Joined(ts), false)
  {
    hide Items, Joined, ParseText, Pieces, IsSpace;
    var s := Joined(ts);
    JoinedEnds(ts);
    UncommentClean(s);
    NoSkip(s);
    NoTrim(s);
    hide Uncomment, SkipSpace, TrimEnd;
  }

  lemma Regroup(t: string, a: string, z: string)
    ensures t + (" " + (a + (" " + z))) == (t + (" " + a)) + (" " + z)
  {
  }

  lemma JoinedFirst(ts: seq<string>)
    requires |ts| > 1
    ensures Joined(ts) == ts[0] + (" " + Joined(ts[1..]))
  {
  }

  lemma JoinedOne(t: string)
    ensures Joined([t]) == t
  {
    assert t + "" == t;
  }

  lemma {:induction false} JoinedLast(ts: seq<string>, z: string)
    requires ts != []
    ensures Joined(ts + [z]) == Joined(ts) + (" " + z)
  {
    hide Joined, Tail;
    assert (ts + [z])[1..] == ts[1..] + [z] && (ts + [z])[0] == ts[0];
    JoinedFirst(ts + [z]);
    if |ts| == 1 {
      assert ts[1..] + [z] == [z] && ts == [ts[0]];
      JoinedOne(z);
      JoinedOne(ts[0]);
    } else {
      hide *;
      JoinedLast(ts[1..], z);
      JoinedFirst(ts);
      Regroup(ts[0], Joined(ts[1..]), z);
    }
  }

  /** The same with '&' behind it. */
  lemma JoinedBackground(ts: seq<string>)
    requires Pieces(ts)
    ensures Parse(Joined(ts + ["&"])) == ParseText(Joined(ts), true)
  {
    hide *;
    SomePieces(ts);
    PieceAmpersand(ts);
    JoinedLast(ts, "&");
    JoinedEnds(ts + ["&"]);
    var s := Joined(ts);
    Regroup2(s);
    BareTrimmed(s + " " + "&");
    ParseBody(s + " " + "&", s + " ", true);
    BlankBehind(s);
    SameItems(s, s + " ", true);
  }

  lemma SomePieces(ts: seq<string>)
    requires Pieces(ts)
    ensures ts != []
  {
  }

  lemma Regroup2(s: string)
    ensures s + (" " + "&") == s + " " + "&" && (s + " " + "&")[|s + " " + "&"| - 1] == '&'
  {
  }

  lemma BlankBehind(s: string)
    ensures Items(s) == Items(s + " ")
  {
    hide Items;
    ItemsInsert(s, |s|, ' ');
    assert Insert(s, |s|, ' ') == s + " ";
  }

  lemma BareTrimmed(s: string)
    requires Bare(s)
    ensures Trimmed(s) == s && s != ""
  {
    UncommentClean(s);
    NoSkip(s);
    NoTrim(s);
    hide Uncomment, SkipSpace, TrimEnd;
  }

  lemma PieceAmpersand(ts: seq<string>)
    requires Pieces(ts)
    ensures Pieces(ts + ["&"])
  {
    assert Piece("&");
  }

  lemma SameItems(s: string, t: string, background: bool)
    requires Items(s) == Items(t)
    ensures ParseText(s, background) == ParseText(t, background)
  {
  }

  lemma FeedFirst(d: Draft, x: Item, rest: seq<Item>)
    ensures Take(d, x).Ok? ==> Feed(d, [x] + rest) == Feed(Take(d, x).value, rest)
    ensures Take(d, x).Error? ==> Feed(d, [x] + rest) == Error(Take(d, x).code)
  {
    assert ([x] + rest)[0] == x && ([x] + rest)[1..] == rest;
    hide Take;
  }

  /** What the words and operators of a line mean, for all ordinary words. */
  lemma LineMeans(w: string, y: string, f: string, x: string, g: string)
    requires Plain(w) && Plain(y) && Plain(f) && Plain(x) && Plain(g)
    ensures Parse(Joined([w, y, "<", f, "|", x, ">>", g, "&"])) ==
            Ok(Command(true, true, Some(f), Some(g), [[w, y], [x]]))
    ensures Parse(Joined([w, "<", f, ">", g])) == Ok(Command(false, false, Some(f), Some(g), [[w]]))
  {
    LongReads(w, y, f, x, g);
    ShortReads(w, f, g);
    LinePieces(w, y, f, x, g);
    hide *;
    JoinedBackground([w, y, "<", f, "|", x, ">>", g]);
    JoinedParse([w, "<", f, ">", g]);
  }

  lemma LinePieces(w: string, y: string, f: string, x: string, g: string)
    requires Plain(w) && Plain(y) && Plain(f) && Plain(x) && Plain(g)
    ensures Pieces([w, y, "<", f, "|", x, ">>", g]) && Pieces([w, "<", f, ">", g])
    ensures var ts := [w, "<", f, ">", g]; ts[|ts| - 1] == g && End(g) != '&'
    ensures [w, y, "<", f, "|", x, ">>", g] + ["&"] == [w, y, "<", f, "|", x, ">>", g, "&"]
  {
    hide Plain, Piece, End;
    forall t | t in {w, y, f, x, g} ensures Piece(t) && End(t) != '&' { PlainPiece(t); }
    Operators();
  }

  lemma Operators()
    ensures Piece("<") && Piece("|") && Piece(">>") && Piece(">") && Piece("&")
    ensures End("<") == '<' && End(">") == '>' && End("|") == '|'
  {
  }

  lemma PlainPiece(t: string)
    requires Plain(t)
    ensures Piece(t) && End(t) != '&'
  {
  }

  lemma LongReads(w: string, y: string, f: string, x: string, g: string)
    requires Plain(w) && Plain(y) && Plain(f) && Plain(x) && Plain(g)
    ensures ParseText(Joined([w, y, "<", f, "|", x, ">>", g]), true) ==
            Ok(Command(true, true, Some(f), Some(g), [[w, y], [x]]))
  {
    hide Items, Joined, Plain, Feed;
    var t5 := [">>", g] + [];
    var t4 := [x] + t5;
    var t3 := ["|"] + t4;
    var t2 := ["<", f] + t3;
    var t1 := [y] + t2;
    assert [w] + t1 == [w, y, "<", f, "|", x, ">>", g];
    WordReads(w, t1);
    WordReads(y, t2);
    InReads(f, t3);
    PipeReads(t4);
    WordReads(x, t5);
    OutReads(g, true, []);
    NothingReads();
    var i5 := [Out(g, true)] + [];
    var i4 := [Word(x)] + i5;
    var i3 := [Pipe] + i4;
    var i2 := [In(f)] + i3;
    var i1 := [Word(y)] + i2;
    FeedFirst(Blank, Word(w), i1);
    var d1 := Blank.(open := [w]);
    assert [] + [w] == [w] && [w] + [y] == [w, y] && [] + [x] == [x] && [] + [[w, y]] == [[w, y]];
    FeedFirst(d1, Word(y), i2);
    var d2 := d1.(open := [w, y]);
    FeedFirst(d2, In(f), i3);
    var d3 := d2.(input := Some(f));
    FeedFirst(d3, Pipe, i4);
    var d4 := d3.(closed := [[w, y]], open := []);
    FeedFirst(d4, Word(x), i5);
    var d5 := d4.(open := [x]);
    FeedFirst(d5, Out(g, true), []);
    var d6 := d5.(output := Some(g), append := true);
    FeedNothing(d6);
    assert d6.closed + [d6.open] == [[w, y], [x]];
  }

  lemma ShortReads(w: string, f: string, g: string)
    requires Plain(w) && Plain(f) && Plain(g)
    ensures ParseText(Joined([w, "<", f, ">", g]), false) == Ok(Command(false, false, Some(f), Some(g), [[w]]))
  {
    hide Items, Joined, Plain, Feed;
    var t2 := [">", g] + [];
    var t1 := ["<", f] + t2;
    assert [w] + t1 == [w, "<", f, ">", g];
    WordReads(w, t1);
    InReads(f, t2);
    OutReads(g, false, []);
    NothingReads();
    var i2 := [Out(g, false)] + [];
    var i1 := [In(f)] + i2;
    FeedFirst(Blank, Word(w), i1);
    var d1 := Blank.(open := [] + [w]);
    FeedFirst(d1, In(f), i2);
    var d2 := d1.(input := Some(f));
    FeedFirst(d2, Out(g, false), []);
    FeedNothing(d2.(output := Some(g), append := false));
    assert [] + [w] == [w] && [] + [[w]] == [[w]];
  }

  // ---- the codes -----------------------------------------------------------

  /** What is wrong with a line, for all ordinary words. */
  lemma ErrorCodes(w: string, f: string, g: string)
    requires Plain(w) && Plain(f) && Plain(g)
    ensures Parse(Joined([w, "<", f, "<", g])) == Error(1) && Parse(Joined([w, ">", f, ">", g])) == Error(2)
    ensures Parse(Joined([w, "|"])) == Error(3) && Parse(Joined([w, "&", f])) == Error(4)
    ensures Parse(Joined([w, "<"])) == Error(5) && Parse(Joined([w, ">"])) == Error(6)
    ensures Parse(Joined(["<", f])) == Error(7)
  {
    TwiceReads(w, f, g);
    EndReads(w, f);
    OnlyReads(f);
    Operators();
    PlainPiece(w);
    PlainPiece(f);
    PlainPiece(g);
    hide *;
    FinalFive(w, "<", f, "<", g);
    FinalFive(w, ">", f, ">", g);
    FinalTwo(w, "|");
    FinalThree(w, "&", f);
    FinalTwo(w, "<");
    FinalTwo(w, ">");
    FinalTwo("<", f);
  }

  lemma FinalTwo(a: string, z: string)
    requires Piece(a) && Piece(z) && End(z) != '&'
    ensures Parse(Joined([a, z])) == ParseText(Joined([a, z]), false)
  {
    hide Piece, End, Parse, ParseText, Joined;
    JoinedParse([a, z]);
  }

  lemma FinalThree(a: string, b: string, z: string)
    requires Piece(a) && Piece(b) && Piece(z) && End(z) != '&'
    ensures Parse(Joined([a, b, z])) == ParseText(Joined([a, b, z]), false)
  {
    hide Piece, End, Parse, ParseText, Joined;
    JoinedParse([a, b, z]);
  }

  lemma FinalFive(a: string, b: string, c: string, d: string, z: string)
    requires Piece(a) && Piece(b) && Piece(c) && Piece(d) && Piece(z) && End(z) != '&'
    ensures Parse(Joined([a, b, c, d, z])) == ParseText(Joined([a, b, c, d, z]), false)
  {
    hide Piece, End, Parse, ParseText, Joined;
    JoinedParse([a, b, c, d, z]);
  }

  lemma TwiceReads(w: string, f: string, g: string)
    requires Plain(w) && Plain(f) && Plain(g)
    ensures ParseText(Joined([w, "<", f, "<", g]), false) == Error(1)
    ensures ParseText(Joined([w, ">", f, ">", g]), false) == Error(2)
  {
    hide Items, Joined, Plain, Feed;
    var s2, t2 := ["<", g] + [], [">", g] + [];
    var s1, t1 := ["<", f] + s2, [">", f] + t2;
    assert [w] + s1 == [w, "<", f, "<", g] && [w] + t1 == [w, ">", f, ">", g];
    WordReads(w, s1);
    InReads(f, s2);
    InReads(g, []);
    WordReads(w, t1);
    OutReads(f, false, t2);
    OutReads(g, false, []);
    NothingReads();
    var i2, j2 := [In(g)] + [], [Out(g, false)] + [];
    var i1, j1 := [In(f)] + i2, [Out(f, false)] + j2;
    var d := Blank.(open := [] + [w]);
    FeedFirst(Blank, Word(w), i1);
    FeedFirst(d, In(f), i2);
    FeedFirst(d.(input := Some(f)), In(g), []);
    FeedFirst(Blank, Word(w), j1);
    FeedFirst(d, Out(f, false), j2);
    FeedFirst(d.(output := Some(f), append := false), Out(g, false), []);
  }

  lemma EndReads(w: string, f: string)
    requires Plain(w) && Plain(f)
    ensures ParseText(Joined([w, "|"]), false) == Error(3) && ParseText(Joined([w, "&", f]), false) == Error(4)
    ensures ParseText(Joined([w, "<"]), false) == Error(5) && ParseText(Joined([w, ">"]), false) == Error(6)
  {
    hide Items, Joined, Plain, Feed;
    var pipe, ampersand := ["|"] + [], ["&"] + [f];
    assert [w] + pipe == [w, "|"] && [w] + ampersand == [w, "&", f];
    assert [w] + ["<"] == [w, "<"] && [w] + [">"] == [w, ">"];
    WordReads(w, pipe);
    WordReads(w, ampersand);
    WordReads(w, ["<"]);
    WordReads(w, [">"]);
    PipeReads([]);
    NothingReads();
    AmpersandReads([f]);
    BareReads("<");
    BareReads(">");
    var d := Blank.(open := [] + [w]);
    forall x: Item { LastFed(w, x); }
    assert [Pipe] + [] == [Pipe];
    FeedNothing(d.(closed := [] + [d.open], open := []));
  }

  lemma LastFed(w: string, x: Item)
    ensures var d := Blank.(open := [] + [w]);
      && (Take(d, x).Ok? ==> Feed(Blank, [Word(w)] + [x]) == Feed(Take(d, x).value, []))
      && (Take(d, x).Error? ==> Feed(Blank, [Word(w)] + [x]) == Error(Take(d, x).code))
  {
    var d := Blank.(open := [] + [w]);
    hide Feed;
    FeedFirst(Blank, Word(w), [x]);
    FeedFirst(d, x, []);
    assert [x] + [] == [x];
  }

  lemma OnlyReads(f: string)
    requires Plain(f)
    ensures ParseText(Joined(["<", f]), false) == Error(7)
  {
    hide Items, Joined, Plain, Feed;
    assert ["<", f] + [] == ["<", f];
    InReads(f, []);
    NothingReads();
    FeedFirst(Blank, In(f), []);
    FeedNothing(Blank.(input := Some(f)));
  }
}
