/** The parser and the printer as they run: cursors over the line, and a buffer filled in a second pass. */
module Parser {
  import opened Wrappers
  import opened ParserModel
  import opened ParserGrammar
  import opened ParserLayout

  /** struct parsed_command; pointers are offsets into `text`, empty slots are NULL. */
  class ParsedCommand {
    var isBackground: bool
    var isFileAppend: bool
    var stdinFile: Option<nat>
    var stdoutFile: Option<nat>
    var numCommands: nat
    var commands: array<nat>
    var arguments: array<Option<nat>>
    var text: array<char>

    /** As allocated: all zero. */
    constructor ()
      ensures !isBackground && !isFileAppend && stdinFile == None && stdoutFile == None && numCommands == 0
      ensures fresh(commands) && fresh(arguments) && fresh(text) && arguments.Length == 0
    {
      isBackground := false;
      isFileAppend := false;
      stdinFile := None;
      stdoutFile := None;
      numCommands := 0;
      commands := new nat[0];
      arguments := new Option<nat>[0];
      text := new char[0];
    }

    ghost function Mem(): Memory
      reads this, commands, arguments, text
    {
      Memory(commands[..], arguments[..], text[..], stdinFile, stdoutFile)
    }

    /** The command this memory stands for. */
    ghost function View(): Command
      reads this, commands, arguments, text
      requires numCommands <= commands.Length
    {
      Command(isBackground, isFileAppend, Pointed(stdinFile, text[..]), Pointed(stdoutFile, text[..]),
              StagesAt(commands[..numCommands], arguments[..], text[..]))
    }

    /** Every list of arguments ends inside its array, and every string inside the text. */
    ghost predicate Valid()
      reads this, commands, arguments, text
    {
      && numCommands <= commands.Length
      && (forall i :: 0 <= i < numCommands ==> commands[i] < arguments.Length)
      && (numCommands > 0 ==> arguments.Length > 0 && arguments[arguments.Length - 1].None?)
      && (forall k :: 0 <= k < arguments.Length && arguments[k].Some? ==> Ends(text[..], arguments[k].value))
      && (stdinFile.Some? ==> Ends(text[..], stdinFile.value))
      && (stdoutFile.Some? ==> Ends(text[..], stdoutFile.value))
    }
  }

  // ---- scanning ------------------------------------------------------------

  lemma {:induction false} WordLenUnique(s: string, n: nat)
    requires n <= |s| && (forall i :: 0 <= i < n ==> !IsStop(s[i])) && (n < |s| ==> IsStop(s[n]))
    ensures WordLen(s) == n
  {
  }

  lemma {:induction false} SkipSpaceUnique(s: string, n: nat)
    requires n <= |s| && (forall i :: 0 <= i < n ==> IsSpace(s[i])) && (n < |s| ==> !IsSpace(s[n]))
    ensures SkipSpace(s) == s[n..]
  {
    if n > 0 { SkipSpaceUnique(s[1..], n - 1); }
  }

  /** Cutting a cut at `to`. */
  lemma Slice(line: string, cur: nat, to: nat, end: nat)
    requires cur <= to <= end <= |line|
    ensures line[cur..end][to - cur..] == line[to..end] && line[cur..end][..to - cur] == line[cur..to]
  {
  }

  method SkipWord(line: string, cur: nat, end: nat) returns (to: nat)
    requires cur <= end <= |line|
    ensures cur <= to <= end && to == cur + WordLen(line[cur..end])
    ensures (forall i :: cur <= i < to ==> !IsStop(line[i])) && (to < end ==> IsStop(line[to]))
  {
    to := cur;
    while to < end && line[to] != '<' && line[to] != '>' && line[to] != '|' && line[to] != '&' && !IsSpace(line[to])
      invariant cur <= to <= end && forall i :: cur <= i < to ==> !IsStop(line[i])
    {
      to := to + 1;
    }
    WordLenUnique(line[cur..end], to - cur);
  }

  method SkipSpaces(line: string, cur: nat, end: nat) returns (to: nat)
    requires cur <= end <= |line|
    ensures cur <= to <= end && line[to..end] == SkipSpace(line[cur..end]) && (to < end ==> !IsSpace(line[to]))
  {
    to := cur;
    while to < end && IsSpace(line[to])
      invariant cur <= to <= end && forall i :: cur <= i < to ==> IsSpace(line[i])
    {
      to := to + 1;
    }
    SkipSpaceUnique(line[cur..end], to - cur);
    Slice(line, cur, to, end);
  }

  /** The file name behind a redirection operator. */
  method ReadName(line: string, cur: nat, end: nat) returns (from: nat, to: nat)
    requires cur <= end <= |line|
    ensures cur <= from <= to <= end && Name(line[cur..end]) == Named(line[from..to], line[to..end])
    ensures Name(line[cur..end]).name == "" <==> to == from
    ensures (forall i :: from <= i < to ==> !IsStop(line[i])) && (to < end ==> IsStop(line[to]))
  {
    hide *;
    from := SkipSpaces(line, cur, end);
    to := SkipWord(line, from, end);
    Slice(line, from, to, end);
    NameIs(line[cur..end], line[from..end], line[from..to], line[to..end]);
  }

  lemma NameIs(s: string, f: string, w: string, rest: string)
    requires f == SkipSpace(s) && |w| == WordLen(f) && w == f[..|w|] && rest == f[|w|..]
    ensures Name(s) == Named(w, rest) && (Name(s).name == "" <==> |w| == 0)
  {
    hide SkipSpace, WordLen;
  }

  // ---- the first pass ------------------------------------------------------

  /** Reading goes on behind the item a text starts with, or stops there with an error. */
  lemma NextItem(d: Draft, s: string)
    requires s != [] && !IsSpace(s[0])
    ensures var k := Lex(s);
            Feed(d, Items(s)) == if Take(d, k.item).Ok? then Feed(Take(d, k.item).value, Items(SkipSpace(k.rest)))
                                 else Error(Take(d, k.item).code)
  {
    hide Lex, Items, Feed, SkipSpace, Take;
    var k := Lex(s);
    ItemsUnfold(s);
    NoSkip(s);
    SkipTwice(k.rest);
    if Fatal(k.item) { FeedFatal(d, k.item); } else { FeedHead(d, k.item, Items(k.rest)); }
  }

  lemma FeedHead(d: Draft, x: Item, rest: seq<Item>)
    ensures Feed(d, [x] + rest) == if Take(d, x).Ok? then Feed(Take(d, x).value, rest) else Error(Take(d, x).code)
  {
    assert ([x] + rest)[1..] == rest;
  }

  lemma FeedFatal(d: Draft, x: Item)
    requires Fatal(x)
    ensures Take(d, x).Error? && Feed(d, [x]) == Error(Take(d, x).code)
  {
  }

  lemma SkipTwice(s: string)
    ensures SkipSpace(SkipSpace(s)) == SkipSpace(s) && Items(SkipSpace(s)) == Items(s)
  {
    hide Lex;
  }

  /** The counters and flags of the first pass, next to the two kept in the command itself. */
  datatype Scan = Scan(total: nat, hasTokenLast: bool, hasFileInput: bool, hasFileOutput: bool)

  /** What they know of the draft. */
  ghost predicate Counted(d: Draft, c: Scan, pipes: nat, append: bool) {
    && |Filled(d)| == c.total + pipes && |d.closed| == pipes && (c.total == 0 <==> d.closed == [] && d.open == [])
    && (c.hasTokenLast <==> d.open != []) && (c.hasFileInput <==> d.input.Some?)
    && (c.hasFileOutput <==> d.output.Some?)
    && append == d.append && (append ==> c.hasFileOutput)
  }

  /** What they are behind item `x`. */
  ghost function Counting(c: Scan, x: Item): Scan {
    Scan(if x.Word? then c.total + 1 else c.total, x.Word? || (c.hasTokenLast && !x.Pipe?),
         x.In? || c.hasFileInput, x.Out? || c.hasFileOutput)
  }

  lemma CountedBlank()
    ensures Counted(Blank, Scan(0, false, false, false), 0, false)
  {
  }

  /** What the counters and flags say about the next item. */
  lemma CountedTest(d: Draft, x: Item, c: Scan, pipes: nat, append: bool)
    requires Counted(d, c, pipes, append)
    ensures append ==> c.hasFileOutput
    ensures x.Ampersand? ==> Take(d, x) == Error(UNEXPECTED_AMPERSAND)
    ensures (x.In? || x.NoInName?) && (pipes > 0 || c.hasFileInput) ==> Take(d, x) == Error(UNEXPECTED_FILE_INPUT)
    ensures x.NoInName? && !(pipes > 0 || c.hasFileInput) ==> Take(d, x) == Error(EXPECT_INPUT_FILENAME)
    ensures (x.Out? || x.NoOutName? || x.Pipe?) && c.hasFileOutput ==> Take(d, x) == Error(UNEXPECTED_FILE_OUTPUT)
    ensures x.NoOutName? && !c.hasFileOutput ==> Take(d, x) == Error(EXPECT_OUTPUT_FILENAME)
    ensures x.Pipe? && !c.hasFileOutput && !c.hasTokenLast ==> Take(d, x) == Error(UNEXPECTED_PIPELINE)
    ensures x.Word? || (x.In? && !(pipes > 0 || c.hasFileInput)) || (x.Out? && !c.hasFileOutput)
            || (x.Pipe? && !c.hasFileOutput && c.hasTokenLast) ==>
              Take(d, x).Ok?
  {
    hide Filled;
  }

  lemma CountedTake(d: Draft, x: Item, c: Scan, pipes: nat, append: bool)
    requires Counted(d, c, pipes, append)
    ensures Take(d, x).Ok? ==>
              Counted(Take(d, x).value, Counting(c, x), if x.Pipe? then pipes + 1 else pipes,
                      if x.Out? then x.append else append)
  {
    if x.Word? {
      FilledWord(d, x.text);
    } else if x.Pipe? {
      FilledPipe(d);
    } else if Take(d, x).Ok? {
      FilledSame(d, Take(d, x).value);
    }
    hide Filled;
  }

  lemma CountedEnd(d: Draft, background: bool, c: Scan, pipes: nat, append: bool)
    requires Counted(d, c, pipes, append)
    ensures Close(d, background) ==
            if c.total == 0 then
              if background || c.hasFileInput || c.hasFileOutput then Error(EXPECT_COMMANDS) else Ok(NoCommand)
            else if !c.hasTokenLast then Error(UNEXPECTED_PIPELINE)
            else Ok(Command(background, append, d.input, d.output, d.closed + [d.open]))
    ensures (c.total == 0 ==> pipes == 0) && (append ==> c.hasFileOutput) && (c.hasTokenLast ==> d.open != [])
    ensures |Filled(d)| == c.total + pipes && |d.closed| == pipes && append == d.append
  {
  }

  /** What checking the token `k` must give: its error, or the text behind it and the counters there. */
  ghost predicate Checked(d: Draft, k: Token, code: int, rest: string, r: Scan, pipes: nat, append: bool) {
    if Take(d, k.item).Error? then code == Take(d, k.item).code != 0
    else code == 0 && rest == k.rest && Counted(Take(d, k.item).value, r, pipes, append)
  }

  lemma CheckedInput(d: Draft, k: Token, c: Scan, pipes: nat, append: bool)
    requires Counted(d, c, pipes, append) && (k.item.In? || k.item.NoInName?)
    ensures pipes > 0 || c.hasFileInput ==> forall rest, r, p, a :: Checked(d, k, UNEXPECTED_FILE_INPUT, rest, r, p, a)
    ensures k.item.NoInName? && !(pipes > 0 || c.hasFileInput) ==>
              forall rest, r, p, a :: Checked(d, k, EXPECT_INPUT_FILENAME, rest, r, p, a)
    ensures k.item.In? && !(pipes > 0 || c.hasFileInput) ==>
              Checked(d, k, 0, k.rest, c.(hasFileInput := true), pipes, append)
  {
    CountedTest(d, k.item, c, pipes, append);
    CountedTake(d, k.item, c, pipes, append);
    hide Counted, Take;
  }

  lemma CheckedOutput(d: Draft, k: Token, c: Scan, pipes: nat, append: bool)
    requires Counted(d, c, pipes, append) && (k.item.Out? || k.item.NoOutName?)
    ensures c.hasFileOutput ==> forall rest, r, p, a :: Checked(d, k, UNEXPECTED_FILE_OUTPUT, rest, r, p, a)
    ensures k.item.NoOutName? && !c.hasFileOutput ==>
              forall rest, r, p, a :: Checked(d, k, EXPECT_OUTPUT_FILENAME, rest, r, p, a)
    ensures k.item.Out? && !c.hasFileOutput ==>
              Checked(d, k, 0, k.rest, c.(hasFileOutput := true), pipes, k.item.append || append)
  {
    CountedTest(d, k.item, c, pipes, append);
    CountedTake(d, k.item, c, pipes, append);
    hide Counted, Take;
  }

  lemma CheckedPipe(d: Draft, k: Token, c: Scan, pipes: nat, append: bool)
    requires Counted(d, c, pipes, append) && k.item.Pipe?
    ensures c.hasFileOutput ==> forall rest, r, p, a :: Checked(d, k, UNEXPECTED_FILE_OUTPUT, rest, r, p, a)
    ensures !c.hasFileOutput && !c.hasTokenLast ==>
              forall rest, r, p, a :: Checked(d, k, UNEXPECTED_PIPELINE, rest, r, p, a)
    ensures !c.hasFileOutput && c.hasTokenLast ==>
              Checked(d, k, 0, k.rest, c.(hasTokenLast := false), pipes + 1, append)
  {
    CountedTest(d, k.item, c, pipes, append);
    CountedTake(d, k.item, c, pipes, append);
    hide Counted, Take;
  }

  lemma CheckedOther(d: Draft, k: Token, c: Scan, pipes: nat, append: bool)
    requires Counted(d, c, pipes, append) && (k.item.Word? || k.item.Ampersand?)
    ensures k.item.Ampersand? ==> forall rest, r, p, a :: Checked(d, k, UNEXPECTED_AMPERSAND, rest, r, p, a)
    ensures k.item.Word? ==> Checked(d, k, 0, k.rest, c.(hasTokenLast := true, total := c.total + 1), pipes, append)
  {
    CountedTest(d, k.item, c, pipes, append);
    CountedTake(d, k.item, c, pipes, append);
    hide Counted, Take;
  }

  method CheckInput(cmd: ParsedCommand, line: string, cur: nat, end: nat, c: Scan, ghost d: Draft)
    returns (code: int, next: nat, r: Scan)
    requires cur < end <= |line| && line[cur] == '<' && Counted(d, c, cmd.numCommands, cmd.isFileAppend)
    ensures cur < next <= end
    ensures Checked(d, Lex(line[cur..end]), code, line[next..end], r, cmd.numCommands, cmd.isFileAppend)
  {
    LexInput(line, cur, end);
    CheckedInput(d, Lex(line[cur..end]), c, cmd.numCommands, cmd.isFileAppend);
    hide *;
    code, next, r := 0, cur + 1, c;
    if cmd.numCommands > 0 || c.hasFileInput {
      code := UNEXPECTED_FILE_INPUT;
      return;
    }
    var from;
    from, next := ReadName(line, cur + 1, end);
    if next <= from {
      code := EXPECT_INPUT_FILENAME;
      return;
    }
    r := c.(hasFileInput := true);
  }

  /** ">" or ">>" and the file name behind it, if there is one. */
  method OutputFile(line: string, cur: nat, end: nat) returns (append: bool, named: bool, next: nat)
    requires cur < end <= |line| && line[cur] == '>'
    ensures append <==> cur + 1 < end && line[cur + 1] == '>'
    ensures cur < next <= end
    ensures var k := Lex(line[cur..end]);
            && k.rest == line[next..end]
            && (if named then k.item.Out? && k.item.append == append else k.item.NoOutName?)
  {
    append := cur + 1 < end && line[cur + 1] == '>';
    var at := if append then cur + 2 else cur + 1;
    LexOutput(line, cur, end, append, at);
    hide *;
    var from;
    from, next := ReadName(line, at, end);
    named := from < next;
  }

  method CheckOutput(cmd: ParsedCommand, line: string, cur: nat, end: nat, c: Scan, ghost d: Draft)
    returns (code: int, next: nat, r: Scan)
    requires cur < end <= |line| && line[cur] == '>' && Counted(d, c, cmd.numCommands, cmd.isFileAppend)
    modifies cmd`isFileAppend
    ensures cur < next <= end
    ensures Checked(d, Lex(line[cur..end]), code, line[next..end], r, cmd.numCommands, cmd.isFileAppend)
  {
    hide *;
    var append, named;
    append, named, next := OutputFile(line, cur, end);
    CheckedOutput(d, Lex(line[cur..end]), c, cmd.numCommands, cmd.isFileAppend);
    code, r := 0, c;
    if c.hasFileOutput {
      code := UNEXPECTED_FILE_OUTPUT;
      return;
    }
    if append { cmd.isFileAppend := true; }
    if !named {
      code := EXPECT_OUTPUT_FILENAME;
      return;
    }
    r := c.(hasFileOutput := true);
  }

  method CheckPipe(cmd: ParsedCommand, line: string, cur: nat, end: nat, c: Scan, ghost d: Draft)
    returns (code: int, next: nat, r: Scan)
    requires cur < end <= |line| && line[cur] == '|' && Counted(d, c, cmd.numCommands, cmd.isFileAppend)
    modifies cmd`numCommands
    ensures cur < next <= end
    ensures Checked(d, Lex(line[cur..end]), code, line[next..end], r, cmd.numCommands, cmd.isFileAppend)
  {
    LexPipe(line, cur, end);
    CheckedPipe(d, Lex(line[cur..end]), c, cmd.numCommands, cmd.isFileAppend);
    hide *;
    code, next, r := 0, cur + 1, c;
    if c.hasFileOutput {
      code := UNEXPECTED_FILE_OUTPUT;
      return;
    }
    if !c.hasTokenLast {
      code := UNEXPECTED_PIPELINE;
      return;
    }
    r := c.(hasTokenLast := false);
    cmd.numCommands := cmd.numCommands + 1;
  }

  /** One token of the first pass: an error, or the counters behind it and where it ends. */
  method CheckToken(cmd: ParsedCommand, line: string, cur: nat, end: nat, c: Scan, ghost d: Draft)
    returns (code: int, next: nat, r: Scan)
    requires cur < end <= |line| && !IsSpace(line[cur]) && Counted(d, c, cmd.numCommands, cmd.isFileAppend)
    modifies cmd`numCommands, cmd`isFileAppend
    ensures cur < next <= end
    ensures Checked(d, Lex(line[cur..end]), code, line[next..end], r, cmd.numCommands, cmd.isFileAppend)
  {
    StopCases(line[cur]);
    if line[cur] == '&' { LexAmpersand(line, cur, end); }
    if !IsStop(line[cur]) { LexArgument(line, cur, cur + WordLen(line[cur..end]), end); }
    if line[cur] !in {'<', '>', '|'} { CheckedOther(d, Lex(line[cur..end]), c, cmd.numCommands, cmd.isFileAppend); }
    hide Lex, SkipSpace, WordLen, Name, IsStop, Counted, Take, Checked;
    if line[cur] == '&' {
      code, next, r := UNEXPECTED_AMPERSAND, cur + 1, c;
    } else if line[cur] == '<' {
      code, next, r := CheckInput(cmd, line, cur, end, c, d);
    } else if line[cur] == '>' {
      code, next, r := CheckOutput(cmd, line, cur, end, c, d);
    } else if line[cur] == '|' {
      code, next, r := CheckPipe(cmd, line, cur, end, c, d);
    } else {
      next := SkipWord(line, cur, end);
      code, r := 0, c.(hasTokenLast := true, total := c.total + 1);
    }
  }

  /** The first pass: checks every token and counts arguments and stages. */
  method FirstPass(cmd: ParsedCommand, line: string, start: nat, end: nat) returns (code: int, total: nat)
    requires start <= end <= |line| && (start < end ==> !IsSpace(line[start]))
    requires cmd.numCommands == 0 && !cmd.isFileAppend
    modifies cmd`numCommands, cmd`isFileAppend
    ensures var r := ParseText(line[start..end], cmd.isBackground);
            code == if r.Error? then r.code else 0
    ensures code == 0 && total == 0 ==>
              ParseText(line[start..end], cmd.isBackground) == Ok(NoCommand) && cmd.numCommands == 0 &&
              !cmd.isFileAppend
    ensures code == 0 && total > 0 ==>
              var f := Feed(Blank, Items(line[start..end]));
              && f.Ok? && f.value.open != [] && cmd.numCommands == |f.value.closed| + 1
              && total + cmd.numCommands == |Filled(f.value)| + 1 && cmd.isFileAppend == f.value.append
  {
    hide Feed, Items, Lex, Filled, Slots, SkipSpace, Counted, Take, Close;
    ghost var t := line[start..end];
    var cur, c := start, Scan(0, false, false, false);
    ghost var d := Blank;
    CountedBlank();
    while cur < end
      invariant start <= cur <= end && (cur < end ==> !IsSpace(line[cur]))
      invariant Feed(d, Items(line[cur..end])) == Feed(Blank, Items(t))
      invariant Counted(d, c, cmd.numCommands, cmd.isFileAppend)
    {
      NextItem(d, line[cur..end]);
      ghost var x := Lex(line[cur..end]).item;
      var next;
      code, next, c := CheckToken(cmd, line, cur, end, c, d);
      if code != 0 {
        total := 0;
        return;
      }
      d := Take(d, x).value;
      cur := SkipSpaces(line, next, end);
    }
    total := c.total;
    assert line[cur..end] == [];
    FeedNone(d);
    CountedEnd(d, cmd.isBackground, c, cmd.numCommands, cmd.isFileAppend);
    if c.total == 0 {
      code := if cmd.isBackground || c.hasFileInput || c.hasFileOutput then EXPECT_COMMANDS else 0;
      return;
    }
    if !c.hasTokenLast {
      code := UNEXPECTED_PIPELINE;
      return;
    }
    cmd.numCommands := cmd.numCommands + 1;
    code := 0;
  }

  lemma FeedNone(d: Draft)
    ensures Feed(d, Items([])) == Ok(d)
  {
  }

  // The item at the cursor, by its first character.

  lemma StopCases(c: char)
    ensures IsStop(c) <==> c in {'<', '>', '|', '&'} || IsSpace(c)
  {
  }

  lemma LexInput(line: string, cur: nat, end: nat)
    requires cur < end <= |line| && line[cur] == '<'
    ensures var n := Name(line[cur + 1..end]);
            Lex(line[cur..end]) == Token(if n.name == "" then NoInName else In(n.name), n.rest)
  {
    Slice(line, cur, cur + 1, end);
    hide Name;
  }

  lemma LexOutput(line: string, cur: nat, end: nat, append: bool, at: nat)
    requires cur < end <= |line| && line[cur] == '>' && (append <==> cur + 1 < end && line[cur + 1] == '>')
    requires at == if append then cur + 2 else cur + 1
    ensures var n := Name(line[at..end]);
            Lex(line[cur..end]) == Token(if n.name == "" then NoOutName else Out(n.name, append), n.rest)
  {
    hide *;
    LexArrow(line[cur..end]);
    AppendsAt(line, cur, end);
    Slice(line, cur, at, end);
  }

  lemma LexArrow(s: string)
    requires |s| > 0 && s[0] == '>'
    ensures var n := Name(s[if Appends(s) then 2 else 1..]);
            Lex(s) == Token(if n.name == "" then NoOutName else Out(n.name, Appends(s)), n.rest)
  {
    hide Name;
  }

  lemma AppendsAt(line: string, cur: nat, end: nat)
    requires cur < end <= |line|
    ensures Appends(line[cur..end]) <==> cur + 1 < end && line[cur + 1] == '>'
  {
  }

  lemma LexPipe(line: string, cur: nat, end: nat)
    requires cur < end <= |line| && line[cur] == '|'
    ensures Lex(line[cur..end]) == Token(Pipe, line[cur + 1..end])
  {
    Slice(line, cur, cur + 1, end);
    hide Name;
  }

  lemma LexAmpersand(line: string, cur: nat, end: nat)
    requires cur < end <= |line| && line[cur] == '&'
    ensures Lex(line[cur..end]).item == Ampersand
  {
  }

  lemma LexArgument(line: string, cur: nat, to: nat, end: nat)
    requires cur < end <= |line| && !IsStop(line[cur]) && to == cur + WordLen(line[cur..end])
    ensures cur < to <= end && Lex(line[cur..end]) == Token(Word(line[cur..to]), line[to..end])
  {
    WordStarts(line[cur..end]);
    Slice(line, cur, to, end);
    hide Name, WordLen, Appends;
  }

  lemma WordStarts(s: string)
    requires s != [] && !IsStop(s[0])
    ensures WordLen(s) > 0
  {
  }

  // ---- the second pass -----------------------------------------------------

  /** The buffer between two tokens of the second pass. */
  ghost predicate Filling(cmd: ParsedCommand, t: string, d: Draft, f: Draft, argvPtr: nat, curCmd: nat)
    reads cmd, cmd.commands, cmd.arguments, cmd.text
  {
    && Lays(t, cmd.Mem(), d) && argvPtr == |Filled(d)| && curCmd == |d.closed|
    && cmd.arguments.Length == |Filled(f)| + 1 && cmd.commands.Length == |f.closed| + 1 && cmd.text.Length == |t| + 1
    && cmd.isFileAppend == f.append
  }

  /** A token of the line is a token of its copy once a NUL stands behind it. */
  lemma TokenAt(line: string, start: nat, end: nat, from: nat, to: nat, text: string)
    requires start <= from <= to <= end <= |line| && |text| == end - start + 1
    requires (forall i :: from <= i < to ==> !IsStop(line[i]))
    ensures Stands(line[start..end], text[to - start := '\0'], from - start, line[from..to])
  {
    var t, w := line[start..end], line[from..to];
    var u := t[from - start..from - start + |w|];
    assert forall i :: 0 <= i < |w| ==> u[i] == t[from - start + i] == line[from + i] == w[i];
    assert u == w;
  }

  /** Stores the argument from `from` to `to` and ends it. */
  method PlaceWord(cmd: ParsedCommand, line: string, start: nat, end: nat, from: nat, to: nat, argvPtr: nat,
                   ghost curCmd: nat, ghost d: Draft, ghost f: Draft)
    requires start <= from <= to <= end <= |line| && Filling(cmd, line[start..end], d, f, argvPtr, curCmd)
    requires (forall i :: from <= i < to ==> !IsStop(line[i])) && (to < end ==> IsStop(line[to]))
    requires |Filled(d)| < |Filled(f)|
    modifies cmd.arguments, cmd.text
    ensures Filling(cmd, line[start..end], d.(open := d.open + [line[from..to]]), f, argvPtr + 1, curCmd)
  {
    ghost var t, w, m := line[start..end], line[from..to], cmd.Mem();
    LaysEnd(t, m, d, to - start);
    TokenAt(line, start, end, from, to, m.text);
    LaysWord(t, m.(text := m.text[to - start := '\0']), d, from - start, w);
    FilledWord(d, w);
    cmd.arguments[argvPtr] := Some(from - start);
    cmd.text[to - start] := '\0';
    hide Lays, Filled, Stands, IsStop;
    assert cmd.Mem() == m.(text := m.text[to - start := '\0'], slots := m.slots[argvPtr := Some(from - start)]);
  }

  /** Ends the current stage and stores where the next one starts. */
  method PlacePipe(cmd: ParsedCommand, ghost t: string, argvPtr: nat, curCmd: nat, ghost d: Draft, ghost f: Draft)
    requires Filling(cmd, t, d, f, argvPtr, curCmd) && |Filled(d)| < |Filled(f)| && |d.closed| < |f.closed|
    modifies cmd.arguments, cmd.commands
    ensures Filling(cmd, t, d.(closed := d.closed + [d.open], open := []), f, argvPtr + 1, curCmd + 1)
  {
    ghost var m := cmd.Mem();
    LaysPipe(t, m, d);
    FilledPipe(d);
    cmd.arguments[argvPtr] := None;
    cmd.commands[curCmd + 1] := argvPtr + 1;
    hide Lays, Filled;
    assert cmd.Mem() == m.(slots := m.slots[argvPtr := None], heads := m.heads[curCmd + 1 := argvPtr + 1]);
  }

  method PlaceInput(cmd: ParsedCommand, line: string, start: nat, end: nat, from: nat, to: nat, ghost argvPtr: nat,
                    ghost curCmd: nat, ghost d: Draft, ghost f: Draft)
    requires start <= from <= to <= end <= |line| && Filling(cmd, line[start..end], d, f, argvPtr, curCmd)
    requires (forall i :: from <= i < to ==> !IsStop(line[i])) && (to < end ==> IsStop(line[to]))
    modifies cmd`stdinFile, cmd.text
    ensures Filling(cmd, line[start..end], d.(input := Some(line[from..to])), f, argvPtr, curCmd)
  {
    ghost var t, w, m := line[start..end], line[from..to], cmd.Mem();
    LaysEnd(t, m, d, to - start);
    TokenAt(line, start, end, from, to, m.text);
    LaysInput(t, m.(text := m.text[to - start := '\0']), d, from - start, w);
    FilledSame(d, d.(input := Some(w)));
    cmd.stdinFile := Some(from - start);
    cmd.text[to - start] := '\0';
    hide Lays, Filled, Stands, IsStop;
    assert cmd.Mem() == m.(text := m.text[to - start := '\0'], input := Some(from - start));
  }

  method PlaceOutput(cmd: ParsedCommand, line: string, start: nat, end: nat, from: nat, to: nat, ghost argvPtr: nat,
                     ghost curCmd: nat, ghost d: Draft, ghost f: Draft)
    requires start <= from <= to <= end <= |line| && Filling(cmd, line[start..end], d, f, argvPtr, curCmd)
    requires (forall i :: from <= i < to ==> !IsStop(line[i])) && (to < end ==> IsStop(line[to]))
    modifies cmd`stdoutFile, cmd.text
    ensures Filling(cmd, line[start..end], d.(output := Some(line[from..to]), append := f.append), f, argvPtr, curCmd)
  {
    ghost var t, w, m := line[start..end], line[from..to], cmd.Mem();
    LaysEnd(t, m, d, to - start);
    TokenAt(line, start, end, from, to, m.text);
    LaysOutput(t, m.(text := m.text[to - start := '\0']), d, from - start, w, f.append);
    FilledSame(d, d.(output := Some(w), append := f.append));
    cmd.stdoutFile := Some(from - start);
    cmd.text[to - start] := '\0';
    hide Lays, Filled, Stands, IsStop;
    assert cmd.Mem() == m.(text := m.text[to - start := '\0'], output := Some(from - start));
  }

  /** Once the whole text reads well, so does each token, and there is room for it. */
  lemma NextPlaced(d: Draft, f: Draft, s: string)
    requires s != [] && !IsSpace(s[0]) && Feed(d, Items(s)) == Ok(f)
    ensures var k := Lex(s);
            && Take(d, k.item).Ok? && Feed(Take(d, k.item).value, Items(SkipSpace(k.rest))) == Ok(f)
            && (k.item.Word? || k.item.Pipe? ==> |Filled(d)| < |Filled(f)|)
            && (k.item.Pipe? ==> |d.closed| < |f.closed|)
            && (k.item.Out? ==> k.item.append == f.append)
            && !Fatal(k.item)
  {
    hide Lex, Feed, Items, SkipSpace, Filled, Slots;
    NextItem(d, s);
    var x, rest := Lex(s).item, Items(SkipSpace(Lex(s).rest));
    var e := Take(d, x).value;
    FeedGrows(e, rest);
    if x.Word? { FilledWord(d, x.text); }
    if x.Pipe? { FilledPipe(d); }
    if x.Out? { AppendStays(e, rest); }
  }

  /** What an item does to the draft when it is in its place. */
  lemma TakeIs(d: Draft, x: Item)
    requires Take(d, x).Ok?
    ensures x.Word? ==> Take(d, x).value == d.(open := d.open + [x.text])
    ensures x.Pipe? ==> Take(d, x).value == d.(closed := d.closed + [d.open], open := [])
    ensures x.In? ==> Take(d, x).value == d.(input := Some(x.file))
    ensures x.Out? ==> Take(d, x).value == d.(output := Some(x.file), append := x.append)
  {
  }

  method StoreInput(cmd: ParsedCommand, line: string, start: nat, cur: nat, end: nat, ghost argvPtr: nat,
                    ghost curCmd: nat, ghost d: Draft, ghost f: Draft)
    returns (next: nat)
    requires start <= cur < end <= |line| && line[cur] == '<' && Lex(line[cur..end]).item.In?
    requires Filling(cmd, line[start..end], d, f, argvPtr, curCmd)
    modifies cmd`stdinFile, cmd.text
    ensures cur < next <= end && line[next..end] == Lex(line[cur..end]).rest
    ensures Filling(cmd, line[start..end], d.(input := Some(Lex(line[cur..end]).item.file)), f, argvPtr, curCmd)
  {
    LexInput(line, cur, end);
    hide *;
    var from;
    from, next := ReadName(line, cur + 1, end);
    PlaceInput(cmd, line, start, end, from, next, argvPtr, curCmd, d, f);
  }

  method StoreOutput(cmd: ParsedCommand, line: string, start: nat, cur: nat, end: nat, ghost argvPtr: nat,
                     ghost curCmd: nat, ghost d: Draft, ghost f: Draft)
    returns (next: nat)
    requires start <= cur < end <= |line| && line[cur] == '>' && Lex(line[cur..end]).item.Out?
    requires Lex(line[cur..end]).item.append == cmd.isFileAppend
    requires Filling(cmd, line[start..end], d, f, argvPtr, curCmd)
    modifies cmd`stdoutFile, cmd.text
    ensures cur < next <= end && line[next..end] == Lex(line[cur..end]).rest
    ensures var output := Some(Lex(line[cur..end]).item.file);
            Filling(cmd, line[start..end], d.(output := output, append := f.append), f, argvPtr, curCmd)
  {
    OutputAppends(line, cur, end);
    hide *;
    var at := if cmd.isFileAppend then cur + 2 else cur + 1;
    var from;
    from, next := ReadName(line, at, end);
    PlaceOutput(cmd, line, start, end, from, next, argvPtr, curCmd, d, f);
  }

  method StoreWord(cmd: ParsedCommand, line: string, start: nat, cur: nat, end: nat, argvPtr: nat,
                   ghost curCmd: nat, ghost d: Draft, ghost f: Draft)
    returns (next: nat)
    requires start <= cur < end <= |line| && !IsStop(line[cur]) && |Filled(d)| < |Filled(f)|
    requires Filling(cmd, line[start..end], d, f, argvPtr, curCmd)
    modifies cmd.arguments, cmd.text
    ensures cur < next <= end && line[next..end] == Lex(line[cur..end]).rest && Lex(line[cur..end]).item.Word?
    ensures Filling(cmd, line[start..end], d.(open := d.open + [Lex(line[cur..end]).item.text]), f, argvPtr + 1, curCmd)
  {
    next := SkipWord(line, cur, end);
    LexArgument(line, cur, next, end);
    hide *;
    PlaceWord(cmd, line, start, end, cur, next, argvPtr, curCmd, d, f);
  }

  /** One token of the second pass. */
  method PlaceToken(cmd: ParsedCommand, line: string, start: nat, cur: nat, end: nat, argvPtr: nat, curCmd: nat,
                    ghost d: Draft, ghost f: Draft)
    returns (next: nat, argvPtr': nat, curCmd': nat)
    requires start <= cur < end <= |line| && !IsSpace(line[cur]) && Feed(d, Items(line[cur..end])) == Ok(f)
    requires Filling(cmd, line[start..end], d, f, argvPtr, curCmd)
    modifies cmd`stdinFile, cmd`stdoutFile, cmd.commands, cmd.arguments, cmd.text
    ensures cur < next <= end
    ensures var k := Lex(line[cur..end]);
            && Take(d, k.item).Ok? && line[next..end] == k.rest
            && Filling(cmd, line[start..end], Take(d, k.item).value, f, argvPtr', curCmd')
  {
    hide *;
    FillingAppend(cmd, line[start..end], d, f, argvPtr, curCmd);
    NextPlaced(d, f, line[cur..end]);
    TakeIs(d, Lex(line[cur..end]).item);
    ItemKinds(line, cur, end);
    StopCases(line[cur]);
    argvPtr', curCmd' := argvPtr, curCmd;
    if line[cur] == '<' {
      next := StoreInput(cmd, line, start, cur, end, argvPtr, curCmd, d, f);
    } else if line[cur] == '>' {
      next := StoreOutput(cmd, line, start, cur, end, argvPtr, curCmd, d, f);
    } else if line[cur] == '|' {
      PlacePipe(cmd, line[start..end], argvPtr, curCmd, d, f);
      argvPtr', curCmd', next := argvPtr + 1, curCmd + 1, cur + 1;
    } else {
      next := StoreWord(cmd, line, start, cur, end, argvPtr, curCmd, d, f);
      argvPtr' := argvPtr + 1;
    }
  }

  lemma FillingAppend(cmd: ParsedCommand, t: string, d: Draft, f: Draft, argvPtr: nat, curCmd: nat)
    requires Filling(cmd, t, d, f, argvPtr, curCmd)
    ensures cmd.isFileAppend == f.append
  {
  }

  /** Which item stands at the cursor, unless it is a fatal one. */
  lemma ItemKinds(line: string, cur: nat, end: nat)
    requires cur < end <= |line| && !IsSpace(line[cur])
    ensures var k, c := Lex(line[cur..end]), line[cur];
            !Fatal(k.item) ==> c != '&' && (c == '<' ==> k.item.In?) && (c == '>' ==> k.item.Out?)
                               && (c == '|' ==> k.item.Pipe? && k.rest == line[cur + 1..end])
                               && (!IsStop(c) ==> k.item.Word?)
  {
    var c := line[cur];
    if c == '<' { LexInput(line, cur, end); }
    if c == '>' {
      var append := cur + 1 < end && line[cur + 1] == '>';
      LexOutput(line, cur, end, append, if append then cur + 2 else cur + 1);
    }
    if c == '|' { LexPipe(line, cur, end); }
    if c == '&' { LexAmpersand(line, cur, end); }
    if !IsStop(c) { LexArgument(line, cur, cur + WordLen(line[cur..end]), end); }
    hide Lex, Name, WordLen;
  }

  /** The append flag tells how long the operator is. */
  lemma OutputAppends(line: string, cur: nat, end: nat)
    requires cur < end <= |line| && line[cur] == '>'
    ensures var k := Lex(line[cur..end]);
            k.item.Out? ==>
              var at := if k.item.append then cur + 2 else cur + 1;
              at <= end && k.rest == Name(line[at..end]).rest && k.item.file == Name(line[at..end]).name
  {
    var append := cur + 1 < end && line[cur + 1] == '>';
    LexOutput(line, cur, end, append, if append then cur + 2 else cur + 1);
  }

  /** The second pass: fills the buffer sized by the first. */
  method SecondPass(cmd: ParsedCommand, line: string, start: nat, end: nat, ghost f: Draft)
    requires start < end <= |line| && !IsSpace(line[start]) && '\0' !in line
    requires Feed(Blank, Items(line[start..end])) == Ok(f)
    requires cmd.arguments.Length == |Filled(f)| + 1 && cmd.commands.Length == cmd.numCommands == |f.closed| + 1
    requires cmd.text.Length == end - start + 1 && cmd.text[..end - start] == line[start..end]
    requires cmd.isFileAppend == f.append && cmd.stdinFile == None && cmd.stdoutFile == None
    modifies cmd`stdinFile, cmd`stdoutFile, cmd.commands, cmd.arguments, cmd.text
    ensures cmd.Valid() && cmd.View() == Command(cmd.isBackground, f.append, f.input, f.output, f.closed + [f.open])
  {
    hide Lex, SkipSpace, Feed, Items, Lays, Filled, Take, Ends;
    ghost var t := line[start..end];
    ghost var d := Blank;
    var cur, curCmd, argvPtr := start, 0, 0;
    FilledBlank();
    cmd.commands[0] := 0;
    LaysBlank(t, cmd.Mem());
    while cur < end
      invariant start <= cur <= end && (cur < end ==> !IsSpace(line[cur]))
      invariant Feed(d, Items(line[cur..end])) == Ok(f)
      invariant Filling(cmd, t, d, f, argvPtr, curCmd)
    {
      NextItem(d, line[cur..end]);
      ghost var x := Lex(line[cur..end]).item;
      var next;
      next, argvPtr, curCmd := PlaceToken(cmd, line, start, cur, end, argvPtr, curCmd, d, f);
      d := Take(d, x).value;
      cur := SkipSpaces(line, next, end);
    }
    assert line[cur..end] == [];
    FeedNone(d);
    CloseList(cmd, t, argvPtr, curCmd, f);
  }

  lemma FilledBlank()
    ensures Filled(Blank) == []
  {
  }

  /** The last empty slot. */
  method CloseList(cmd: ParsedCommand, ghost t: string, argvPtr: nat, ghost curCmd: nat, ghost f: Draft)
    requires Filling(cmd, t, f, f, argvPtr, curCmd) && '\0' !in t && cmd.numCommands == |f.closed| + 1
    modifies cmd.arguments
    ensures cmd.Valid() && cmd.View() == Command(cmd.isBackground, f.append, f.input, f.output, f.closed + [f.open])
  {
    ghost var m := cmd.Mem();
    LaysClosed(t, m, f);
    cmd.arguments[argvPtr] := None;
    ghost var n := m.(slots := m.slots[argvPtr := None]);
    LaysAll(t, n, f);
    LaysEnds(t, n, f);
    hide Lays, Filled, Ends;
    assert cmd.Mem() == n;
    assert cmd.commands[..cmd.numCommands] == n.heads;
  }

  lemma LaysClosed(t: string, m: Memory, d: Draft)
    requires Lays(t, m, d) && |Filled(d)| < |m.slots|
    ensures Lays(t, m.(slots := m.slots[|Filled(d)| := None]), d)
  {
    hide Filled, Points, Copied, HeadsAre;
  }

  // ---- parse_command -------------------------------------------------------

  lemma {:induction false} UncommentUnique(s: string, n: nat)
    requires n <= |s| && (forall i :: 0 <= i < n ==> s[i] != '#') && (n < |s| ==> s[n] == '#')
    ensures Uncomment(s) == s[..n]
  {
    if n > 0 {
      UncommentUnique(s[1..], n - 1);
      assert s[..n] == [s[0]] + s[1..][..n - 1];
    }
  }

  lemma {:induction false} TrimEndUnique(s: string, n: nat)
    requires n <= |s| && (forall i :: n <= i < |s| ==> IsSpace(s[i])) && (n > 0 ==> !IsSpace(s[n - 1]))
    ensures TrimEnd(s) == s[..n]
  {
    if n < |s| {
      TrimEndUnique(s[..|s| - 1], n);
      assert s[..|s| - 1][..n] == s[..n];
    }
  }

  /** Where the comment starts. */
  method CutComment(line: string) returns (end: nat)
    ensures end <= |line| && line[..end] == Uncomment(line)
  {
    end := 0;
    while end < |line| && line[end] != '#'
      invariant 0 <= end <= |line| && forall i :: 0 <= i < end ==> line[i] != '#'
    {
      end := end + 1;
    }
    UncommentUnique(line, end);
  }

  /** Where the trailing spaces start. */
  method CutSpaces(line: string, start: nat, all: nat) returns (end: nat)
    requires start <= all <= |line|
    ensures start <= end <= all && line[start..end] == TrimEnd(line[start..all])
  {
    end := all;
    while start < end && IsSpace(line[end - 1])
      invariant start <= end <= all && forall i :: end <= i < all ==> IsSpace(line[i])
    {
      end := end - 1;
    }
    TrimEndUnique(line[start..all], end - start);
    Slice(line, start, end, all);
  }

  /** What is left of a line, by its last character. */
  lemma ParseIs(line: string, start: nat, end: nat)
    requires start < end <= |line| && line[start..end] == Trimmed(line)
    ensures Parse(line) == if line[end - 1] == '&' then ParseText(line[start..end - 1], true)
                           else ParseText(line[start..end], false)
  {
    hide ParseText, Trimmed;
    var t := line[start..end];
    assert t[|t| - 1] == line[end - 1] && t[..|t| - 1] == line[start..end - 1];
  }

  /** parse_command: an error code, or 0 and the command in memory. */
  method ParseCommand(line: string) returns (code: int, cmd: ParsedCommand?)
    requires '\0' !in line
    ensures code == 0 <==> cmd != null
    ensures cmd == null ==> Parse(line) == Error(code)
    ensures cmd != null ==> fresh(cmd) && cmd.Valid() && Parse(line) == Ok(cmd.View())
  {
    hide ParseText, SkipSpace, Uncomment, TrimEnd, IsSpace, Ends;
    var end := CutComment(line);
    assert line[0..end] == line[..end];
    var start := SkipSpaces(line, 0, end);
    end := CutSpaces(line, start, end);
    cmd := new ParsedCommand();
    code := 0;
    if start == end {
      EmptyView(cmd);
      return;
    }
    ParseIs(line, start, end);
    hide Parse, Trimmed;
    if line[end - 1] == '&' {
      cmd.isBackground := true;
      end := end - 1;
    }
    code := Compile(cmd, line, start, end);
    if code != 0 {
      cmd := null;
    }
  }

  lemma EmptyView(cmd: ParsedCommand)
    requires cmd.numCommands == 0 && !cmd.isBackground && !cmd.isFileAppend && cmd.stdinFile == None
    requires cmd.stdoutFile == None
    requires cmd.arguments.Length == 0
    ensures cmd.Valid() && cmd.View() == NoCommand
  {
  }

  /** Both passes over the text between `start` and `end`. */
  method Compile(cmd: ParsedCommand, line: string, start: nat, end: nat) returns (code: int)
    requires start <= end <= |line| && (start < end ==> !IsSpace(line[start])) && '\0' !in line
    requires cmd.numCommands == 0 && !cmd.isFileAppend && cmd.stdinFile == None && cmd.stdoutFile == None
    requires cmd.arguments.Length == 0
    modifies cmd
    ensures cmd.isBackground == old(cmd.isBackground)
    ensures code == 0 ==> cmd.Valid() && ParseText(line[start..end], cmd.isBackground) == Ok(cmd.View())
    ensures code != 0 ==> ParseText(line[start..end], cmd.isBackground) == Error(code)
  {
    hide Lex, Feed, Items, Filled, Slots, SkipSpace;
    var total;
    code, total := FirstPass(cmd, line, start, end);
    NonZero(line[start..end], cmd.isBackground);
    if code != 0 { return; }
    if total == 0 {
      NoBackground(line[start..end], cmd.isBackground);
      EmptyView(cmd);
      return;
    }
    ghost var f := Feed(Blank, Items(line[start..end])).value;
    if start == end { FeedNone(Blank); }
    cmd.commands := new nat[cmd.numCommands];
    cmd.arguments := new Option<nat>[total + cmd.numCommands];
    cmd.text := Copy(line, start, end);
    SecondPass(cmd, line, start, end, f);
    hide *;
    CloseOpen(f, cmd.isBackground, line[start..end]);
  }

  lemma CloseOpen(f: Draft, background: bool, t: string)
    requires Feed(Blank, Items(t)) == Ok(f) && f.open != []
    ensures ParseText(t, background) == Ok(Command(background, f.append, f.input, f.output, f.closed + [f.open]))
  {
    hide Feed, Items;
  }

  lemma NoBackground(t: string, background: bool)
    requires ParseText(t, background) == Ok(NoCommand)
    ensures !background
  {
    hide Feed, Items;
  }

  /** No error has code 0. */
  lemma NonZero(t: string, background: bool)
    ensures ParseText(t, background).Error? ==> ParseText(t, background).code != 0
  {
    hide Items;
    FeedNonZero(Blank, Items(t));
    hide Feed;
  }

  lemma {:induction false} FeedNonZero(d: Draft, items: seq<Item>)
    ensures Feed(d, items).Error? ==> Feed(d, items).code != 0
    decreases |items|
  {
    if items != [] && Take(d, items[0]).Ok? { FeedNonZero(Take(d, items[0]).value, items[1..]); }
  }

  /** Room for the text and a last NUL, and the text in it. */
  method Copy(line: string, start: nat, end: nat) returns (text: array<char>)
    requires start <= end <= |line|
    ensures fresh(text) && text.Length == end - start + 1 && text[..end - start] == line[start..end]
  {
    text := new char[end - start + 1];
    var i := 0;
    while i < end - start
      invariant 0 <= i <= end - start && forall k :: 0 <= k < i ==> text[k] == line[start + k]
    {
      text[i] := line[start + i];
      i := i + 1;
    }
  }

  // ---- print_parsed_command ------------------------------------------------

  method ReadString(text: array<char>, o: nat) returns (s: string)
    requires Ends(text[..], o)
    ensures s == CString(text[..], o)
  {
    var i := o;
    s := "";
    ghost var k :| o <= k < |text[..]| && text[..][k] == '\0';
    while text[i] != '\0'
      invariant o <= i <= k && s + CString(text[..], i) == CString(text[..], o)
      decreases k - i
    {
      assert CString(text[..], i) == [text[i]] + CString(text[..], i + 1);
      s := s + [text[i]];
      i := i + 1;
    }
    assert CString(text[..], i) == "";
  }

  /** The arguments from slot `h` on, each with a space behind it. */
  method PrintArgs(cmd: ParsedCommand, h: nat) returns (out: string)
    requires cmd.Valid() && cmd.numCommands > 0 && h < cmd.arguments.Length
    ensures out == PrintWords(Argv(cmd.arguments[..], cmd.text[..], h))
  {
    out := "";
    var k := h;
    hide CString, Ends;
    while cmd.arguments[k] != None
      invariant h <= k < cmd.arguments.Length
      invariant out + PrintWords(Argv(cmd.arguments[..], cmd.text[..], k)) ==
                  PrintWords(Argv(cmd.arguments[..], cmd.text[..], h))
      decreases cmd.arguments.Length - k
    {
      ArgvStep(cmd.arguments[..], cmd.text[..], k);
      var s := ReadString(cmd.text, cmd.arguments[k].value);
      out := out + (s + " ");
      k := k + 1;
    }
  }

  lemma ArgvStep(slots: seq<Option<nat>>, text: string, k: nat)
    requires k < |slots| && slots[k].Some?
    ensures PrintWords(Argv(slots, text, k)) ==
              CString(text, slots[k].value) + " " + PrintWords(Argv(slots, text, k + 1))
  {
    hide CString;
    var a := Argv(slots, text, k);
    assert a[1..] == Argv(slots, text, k + 1);
  }

  /** Stage `i` with its redirections, and the '|' behind it. */
  method PrintStage(cmd: ParsedCommand, i: nat) returns (out: string)
    requires cmd.Valid() && i < cmd.numCommands
    ensures PrintStages(cmd.View(), i) == out + PrintStages(cmd.View(), i + 1)
  {
    ghost var c := cmd.View();
    hide CString, Ends, Argv, PrintWords, PrintStages;
    var args := PrintArgs(cmd, cmd.commands[i]);
    var input, last := "", "| ";
    if i == 0 && cmd.stdinFile != None {
      var f := ReadString(cmd.text, cmd.stdinFile.value);
      input := "< " + f + " ";
    }
    if i == cmd.numCommands - 1 {
      last := "";
      if cmd.stdoutFile != None {
        var f := ReadString(cmd.text, cmd.stdoutFile.value);
        last := (if cmd.isFileAppend then ">> " else "> ") + f + " ";
      }
    }
    StagesStep(c, i, args, input, last);
    out := args + input + last;
  }

  /** print_parsed_command, with the output returned. */
  method PrintParsedCommand(cmd: ParsedCommand) returns (out: string)
    requires cmd.Valid()
    ensures out == Print(cmd.View())
  {
    hide CString, Ends, Argv, PrintWords;
    out := "";
    var i := 0;
    ghost var c := cmd.View();
    while i < cmd.numCommands
      invariant 0 <= i <= cmd.numCommands && out + PrintStages(c, i) == PrintStages(c, 0)
    {
      var stage := PrintStage(cmd, i);
      out := out + stage;
      i := i + 1;
    }
    assert PrintStages(c, i) == "";
    out := out + (if cmd.isBackground then "&" else "") + "\n";
  }

  lemma StagesStep(c: Command, i: nat, args: string, input: string, last: string)
    requires i < |c.stages| && args == PrintWords(c.stages[i])
    requires input == if i == 0 then PrintInput(c.input) else ""
    requires last == if i == |c.stages| - 1 then PrintOutput(c.output, c.append) else "| "
    ensures PrintStages(c, i) == args + input + last + PrintStages(c, i + 1)
  {
    hide PrintWords;
  }
}
