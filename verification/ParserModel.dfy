/** Command lines, the items they consist of, and the commands they mean. */
module ParserModel {
  import opened Wrappers

  // ---- characters ----------------------------------------------------------

  /** isspace. */
  predicate IsSpace(c: char) {
    c == ' ' || '\t' <= c <= '\r'
  }

  /** Where a word ends. */
  predicate IsStop(c: char) {
    c == '<' || c == '>' || c == '|' || c == '&' || IsSpace(c)
  }

  /** `t` is the end of `s`. */
  predicate Suffix(s: string, t: string) {
    |t| <= |s| && t == s[|s| - |t|..]
  }

  function SkipSpace(s: string): (r: string)
    ensures Suffix(s, r) && (r != [] ==> !IsSpace(r[0]))
    ensures forall i :: 0 <= i < |s| - |r| ==> IsSpace(s[i])
  {
    if s != [] && IsSpace(s[0]) then SkipSpace(s[1..]) else s
  }

  /** The length of the longest word `s` starts with. */
  function WordLen(s: string): (n: nat)
    ensures n <= |s| && (forall i :: 0 <= i < n ==> !IsStop(s[i])) && (n < |s| ==> IsStop(s[n]))
  {
    if s != [] && !IsStop(s[0]) then 1 + WordLen(s[1..]) else 0
  }

  // ---- items ---------------------------------------------------------------

  /** What a line consists of; the last three end it, for a reason of their own. */
  datatype Item =
    | Word(text: string)
    | In(file: string)
    | Out(file: string, append: bool)
    | Pipe
    | Ampersand
    | NoInName
    | NoOutName

  predicate Fatal(i: Item) {
    i.Ampersand? || i.NoInName? || i.NoOutName?
  }

  /** Does an output redirection start here with ">>"? */
  predicate Appends(s: string) {
    |s| > 1 && s[1] == '>'
  }

  datatype Token = Token(item: Item, rest: string)

  datatype Named = Named(name: string, rest: string)

  /** The name behind a redirection operator, empty if there is none, and what follows it. */
  function Name(s: string): (k: Named)
    ensures Suffix(s, k.rest)
  {
    var f := SkipSpace(s);
    var n := WordLen(f);
    Named(f[..n], f[n..])
  }

  /** The name behind an operator of `n` characters. */
  function NameBehind(r: string, n: nat): (k: Named)
    requires n <= |r|
    ensures |k.rest| <= |r| - n && Suffix(r, k.rest)
  {
    Name(r[n..])
  }

  function Input(r: string): (k: Token)
    requires |r| > 0
    ensures |k.rest| < |r| && Suffix(r, k.rest)
  {
    var k := NameBehind(r, 1);
    Token(if k.name == "" then NoInName else In(k.name), k.rest)
  }

  function Output(r: string): (k: Token)
    requires |r| > 0
    ensures |k.rest| < |r| && Suffix(r, k.rest)
  {
    var k := NameBehind(r, if Appends(r) then 2 else 1);
    Token(if k.name == "" then NoOutName else Out(k.name, Appends(r)), k.rest)
  }

  /** The word a text starts with, and the text behind it. */
  function FirstWord(r: string): (k: Token)
    ensures |k.rest| <= |r| && Suffix(r, k.rest)
    ensures r != [] && !IsStop(r[0]) ==> |k.rest| < |r|
  {
    var n := WordLen(r);
    Token(Word(r[..n]), r[n..])
  }

  function Behind(r: string): (t: string)
    requires |r| > 0
    ensures Suffix(r, t) && |t| < |r|
  {
    r[1..]
  }

  /** The item a text starts with, and the text behind it. */
  function Lex(r: string): (k: Token)
    requires |r| > 0
    ensures |k.rest| <= |r| && Suffix(r, k.rest)
    ensures !IsSpace(r[0]) ==> |k.rest| < |r|
  {
    if r[0] == '&' then Token(Ampersand, Behind(r))
    else if r[0] == '<' then Input(r)
    else if r[0] == '>' then Output(r)
    else if r[0] == '|' then Token(Pipe, Behind(r))
    else FirstWord(r)
  }

  function Items(s: string): seq<Item>
    decreases |s|
  {
    var r := SkipSpace(s);
    if r == [] then []
    else
      var k := Lex(r);
      if Fatal(k.item) then [k.item] else [k.item] + Items(k.rest)
  }

  // ---- commands ------------------------------------------------------------

  const UNEXPECTED_FILE_INPUT := 1
  const UNEXPECTED_FILE_OUTPUT := 2
  const UNEXPECTED_PIPELINE := 3
  const UNEXPECTED_AMPERSAND := 4
  const EXPECT_INPUT_FILENAME := 5
  const EXPECT_OUTPUT_FILENAME := 6
  const EXPECT_COMMANDS := 7

  datatype Result<T> = Ok(value: T) | Error(code: int)

  datatype Command = Command(background: bool, append: bool, input: Option<string>, output: Option<string>,
                             stages: seq<seq<string>>)

  const NoCommand := Command(false, false, None, None, [])

  /** A line read so far: the stages closed by a '|', and the one still open. */
  datatype Draft = Draft(closed: seq<seq<string>>, open: seq<string>, input: Option<string>, output: Option<string>,
                         append: bool)

  const Blank := Draft([], [], None, None, false)

  function Take(d: Draft, i: Item): Result<Draft> {
    match i
    case Ampersand => Error(UNEXPECTED_AMPERSAND)
    case In(_) =>
      if d.closed != [] || d.input.Some? then Error(UNEXPECTED_FILE_INPUT) else Ok(d.(input := Some(i.file)))
    case NoInName =>
      if d.closed != [] || d.input.Some? then Error(UNEXPECTED_FILE_INPUT) else Error(EXPECT_INPUT_FILENAME)
    case Out(_, _) =>
      if d.output.Some? then Error(UNEXPECTED_FILE_OUTPUT) else Ok(d.(output := Some(i.file), append := i.append))
    case NoOutName =>
      if d.output.Some? then Error(UNEXPECTED_FILE_OUTPUT) else Error(EXPECT_OUTPUT_FILENAME)
    case Pipe =>
      if d.output.Some? then Error(UNEXPECTED_FILE_OUTPUT)
      else if d.open == [] then Error(UNEXPECTED_PIPELINE)
      else Ok(d.(closed := d.closed + [d.open], open := []))
    case Word(_) => Ok(d.(open := d.open + [i.text]))
  }

  function Feed(d: Draft, items: seq<Item>): Result<Draft>
    decreases |items|
  {
    if items == [] then Ok(d)
    else match Take(d, items[0])
      case Error(code) => Error(code)
      case Ok(d') => Feed(d', items[1..])
  }

  /** What is decided at the end of the line. */
  function Close(d: Draft, background: bool): Result<Command> {
    if d.closed == [] && d.open == [] then
      if background || d.input.Some? || d.output.Some? then Error(EXPECT_COMMANDS) else Ok(NoCommand)
    else if d.open == [] then Error(UNEXPECTED_PIPELINE)
    else Ok(Command(background, d.append, d.input, d.output, d.closed + [d.open]))
  }

  function ParseText(t: string, background: bool): Result<Command> {
    match Feed(Blank, Items(t))
    case Error(code) => Error(code)
    case Ok(d) => Close(d, background)
  }

  // ---- the line ------------------------------------------------------------

  /** Everything from the first '#' on is a comment. */
  function Uncomment(s: string): (r: string)
    ensures |r| <= |s| && r == s[..|r|] && '#' !in r && (|r| < |s| ==> s[|r|] == '#')
  {
    if s == [] || s[0] == '#' then [] else [s[0]] + Uncomment(s[1..])
  }

  function TrimEnd(s: string): (r: string)
    ensures |r| <= |s| && r == s[..|r|] && (r != [] ==> !IsSpace(r[|r| - 1]))
    ensures forall i :: |r| <= i < |s| ==> IsSpace(s[i])
  {
    if s != [] && IsSpace(s[|s| - 1]) then TrimEnd(s[..|s| - 1]) else s
  }

  function Trimmed(line: string): string {
    TrimEnd(SkipSpace(Uncomment(line)))
  }

  /** parse_command, as a function of the line. */
  function Parse(line: string): Result<Command> {
    var t := Trimmed(line);
    if t == [] then Ok(NoCommand)
    else if t[|t| - 1] == '&' then ParseText(t[..|t| - 1], true)
    else ParseText(t, false)
  }

  // ---- the printer ---------------------------------------------------------

  function PrintWords(words: seq<string>): string {
    if words == [] then "" else words[0] + " " + PrintWords(words[1..])
  }

  function PrintInput(input: Option<string>): string {
    if input.Some? then "< " + input.value + " " else ""
  }

  function PrintOutput(output: Option<string>, append: bool): string {
    if output.Some? then (if append then ">> " else "> ") + output.value + " " else ""
  }

  /** The stages from number `i` on. */
  function PrintStages(c: Command, i: nat): string
    decreases |c.stages| - i
  {
    if i >= |c.stages| then ""
    else
      PrintWords(c.stages[i])
      + (if i == 0 then PrintInput(c.input) else "")
      + (if i == |c.stages| - 1 then PrintOutput(c.output, c.append) else "| ")
      + PrintStages(c, i + 1)
  }

  /** print_parsed_command. */
  function Print(c: Command): string {
    PrintStages(c, 0) + (if c.background then "&" else "") + "\n"
  }
}
