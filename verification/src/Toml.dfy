/**
 The restricted TOML reader (xtask/src/deps.rs:308-736): hand-written scanners over one line at a time,
 each tracking whether it is inside a basic string. The functions say what a scanner answers; the
 methods of `TomlScanner` are the loops.
 */
module Toml {
  import opened Prelude
  import opened JsonPointer

  datatype Value = Text(text: string) | Integer(n: nat) | Texts(items: seq<string>)

  type Table = map<string, Value>

  /** The segments of a table path. */
  type Segments = seq<string>

  datatype Document = Document(root: Table, tables: map<Segments, Table>, arrays: map<Segments, seq<Table>>)

  const Empty := Document(map[], map[], map[])

  datatype Section = RootSection | TableSection(path: Segments) | ArraySection(path: Segments, index: nat)

  datatype Detail =
    | UnterminatedString | MalformedHeader | EmptyPath | UnterminatedSegment | EmptySegment | BadSegment
    | TableIsRegular | DuplicateTable | NoAssignment | BadKey | EmptyValue | UnterminatedArray | UnexpectedBracket
    | InvalidInteger | UnsupportedValue | MalformedString | EndsWithEscape | UnsupportedEscape | BadUnicodeEscape
    | MalformedArray | EmptyItem | OnlyStrings | UnterminatedItem | MissingComma | NoCurrentTable | DuplicateKey

  datatype TomlError = TomlError(line: nat, detail: Detail)

  type Parsed<T> = Result<T, TomlError>

  function Fail<T>(line: nat, detail: Detail): Parsed<T> { Err(TomlError(line, detail)) }

  // ------------------------------------------------------------------ characters

  /** The characters Unicode calls white space. */
  predicate IsWhite(c: char) {
    || '\U{0009}' <= c <= '\U{000D}' || c == ' ' || c == '\U{0085}' || c == '\U{00A0}' || c == '\U{1680}'
    || '\U{2000}' <= c <= '\U{200A}' || c == '\U{2028}' || c == '\U{2029}' || c == '\U{202F}' || c == '\U{205F}'
      || c == '\U{3000}'
  }

  predicate IsBare(c: char) {
    '0' <= c <= '9' || 'a' <= c <= 'z' || 'A' <= c <= 'Z' || c == '_' || c == '-'
  }

  predicate AllBare(s: string) { forall i | 0 <= i < |s| :: IsBare(s[i]) }

  function TrimStart(s: string): (t: string)
    ensures |t| <= |s|
    ensures t != "" ==> !IsWhite(t[0])
  {
    if s != "" && IsWhite(s[0]) then TrimStart(s[1..]) else s
  }

  function TrimEnd(s: string): (t: string)
    ensures |t| <= |s|
  {
    if s != "" && IsWhite(s[|s| - 1]) then TrimEnd(s[..|s| - 1]) else s
  }

  function Trim(s: string): (t: string)
    ensures |t| <= |s|
  {
    TrimEnd(TrimStart(s))
  }

  predicate EndsWith(s: string, suffix: string) { |suffix| <= |s| && s[|s| - |suffix|..] == suffix }

  // ------------------------------------------------------------------ strings within a line

  datatype Quote = Outside | Inside | Escaped

  function Next(q: Quote, c: char): Quote {
    match q
    case Outside => if c == '"' then Inside else Outside
    case Inside => if c == '\\' then Escaped else if c == '"' then Outside else Inside
    case Escaped => Inside
  }

  /** Where a scan that starts at `q` stands after reading `s`. */
  function After(q: Quote, s: string): Quote
    decreases |s|
  {
    if s == "" then q else After(Next(q, s[0]), s[1..])
  }

  /** The first place outside strings where `c` stands. */
  function FirstOutside(q: Quote, s: string, c: char): (found: Option<nat>)
    ensures found.Some? ==> found.value < |s| && s[found.value] == c
    decreases |s|
  {
    if s == "" then None
    else if q == Outside && s[0] == c then Some(0)
    else
      var rest := FirstOutside(Next(q, s[0]), s[1..], c);
      if rest.None? then None else Some(rest.value + 1)
  }

  function StripComment(line: string, n: nat): Parsed<string> {
    var hash := FirstOutside(Outside, line, '#');
    if hash.Some? then Ok(line[..hash.value])
    else if After(Outside, line) != Outside then Fail(n, UnterminatedString)
    else Ok(line)
  }

  // ------------------------------------------------------------------ basic strings

  function HexDigit(c: char): Option<nat> {
    if '0' <= c <= '9' then Some(c as int - '0' as int)
    else if 'a' <= c <= 'f' then Some(c as int - 'a' as int + 10)
    else if 'A' <= c <= 'F' then Some(c as int - 'A' as int + 10)
    else None
  }

  function HexValue(s: string): Option<nat> {
    if s == "" then Some(0)
    else
      var front, last := HexValue(s[..|s| - 1]), HexDigit(s[|s| - 1]);
      if front.None? || last.None? then None else Some(front.value * 16 + last.value)
  }

  function Scalar(v: nat): Option<char> {
    if v < 0xD800 || 0xE000 <= v < 0x11_0000 then Some(v as char) else None
  }

  function UnicodeEscape(s: string, digits: nat, n: nat): Parsed<char> {
    if |s| < digits || HexValue(s[..digits]).None? then Fail(n, BadUnicodeEscape)
    else
      var c := Scalar(HexValue(s[..digits]).value);
      if c.None? then Fail(n, BadUnicodeEscape) else Ok(c.value)
  }

  function SimpleEscape(c: char): Option<char> {
    match c
    case '"' => Some('"')
    case '\\' => Some('\\')
    case 'b' => Some('\U{0008}')
    case 't' => Some('\t')
    case 'n' => Some('\n')
    case 'f' => Some('\U{000C}')
    case 'r' => Some('\r')
    case _ => None
  }

  /** How many characters follow a backslash and this letter. */
  function EscapeWidth(c: char): nat { if c == 'u' then 4 else if c == 'U' then 8 else 0 }

  /** One character of a basic string, and how much of the text it takes. */
  function ReadChar(s: string, n: nat): (r: Parsed<(char, nat)>)
    requires s != ""
    ensures r.Ok? ==> 0 < r.value.1 <= |s|
  {
    if s[0] != '\\' then Ok((s[0], 1))
    else if |s| == 1 then Fail(n, EndsWithEscape)
    else if EscapeWidth(s[1]) > 0 then
      var c := UnicodeEscape(s[2..], EscapeWidth(s[1]), n);
      if c.Err? then Err(c.error) else Ok((c.value, 2 + EscapeWidth(s[1])))
    else
      var c := SimpleEscape(s[1]);
      if c.None? then Fail(n, UnsupportedEscape) else Ok((c.value, 2))
  }

  function Unescape(s: string, n: nat): Parsed<string>
    decreases |s|
  {
    if s == "" then Ok("")
    else
      var first := ReadChar(s, n);
      if first.Err? then Err(first.error)
      else
        var rest := Unescape(s[first.value.1..], n);
        if rest.Err? then rest else Ok([first.value.0] + rest.value)
  }

  function BasicString(source: string, n: nat): Parsed<string> {
    if |source| < 2 || source[0] != '"' || source[|source| - 1] != '"' then Fail(n, MalformedString)
    else Unescape(source[1..|source| - 1], n)
  }

  /** The closing quote of the string the text starts with. */
  function StringEnd(s: string): (found: Option<nat>)
    requires s != ""
    ensures found.Some? ==> 0 < found.value < |s|
  {
    var end := EndOfString(Inside, s[1..]);
    if end.None? then None else Some(end.value + 1)
  }

  function EndOfString(q: Quote, s: string): (found: Option<nat>)
    ensures found.Some? ==> found.value < |s|
    decreases |s|
  {
    if s == "" then None
    else if q == Inside && s[0] == '"' then Some(0)
    else
      var rest := EndOfString(if q == Escaped then Inside else if s[0] == '\\' then Escaped else Inside, s[1..]);
      if rest.None? then None else Some(rest.value + 1)
  }

  // ------------------------------------------------------------------ table headers

  /** The text cut at every dot outside strings. */
  function SplitDots(q: Quote, s: string): (parts: seq<string>)
    ensures parts != []
    decreases |s|
  {
    if s == "" then [""]
    else if q == Outside && s[0] == '.' then [""] + SplitDots(Outside, s[1..])
    else
      var rest := SplitDots(Next(q, s[0]), s[1..]);
      [[s[0]] + rest[0]] + rest[1..]
  }

  function Segment(raw: string, n: nat): Parsed<string> {
    if raw == "" then Fail(n, EmptySegment)
    else
      var segment := if raw[0] == '"' then BasicString(raw, n) else if AllBare(raw) then Ok(raw)
        else Fail(n, BadSegment);
      if segment.Ok? && segment.value == "" then Fail(n, EmptySegment) else segment
  }

  function AllSegments(raw: seq<string>, n: nat): Parsed<Segments> {
    if raw == [] then Ok([])
    else
      var first := Segment(Trim(raw[0]), n);
      if first.Err? then Err(first.error)
      else
        var rest := AllSegments(raw[1..], n);
        if rest.Err? then rest else Ok([first.value] + rest.value)
  }

  function HeaderPath(inner: string, n: nat): Parsed<Segments> {
    if inner == "" then Fail(n, EmptyPath)
    else if After(Outside, inner) != Outside then Fail(n, UnterminatedSegment)
    else AllSegments(SplitDots(Outside, inner), n)
  }

  function TableHeader(statement: string, n: nat): Parsed<(Segments, bool)> {
    var isArray := StartsWith(statement, "[[");
    var width := if isArray then 2 else 1;
    if |statement| < 2 * width || !EndsWith(statement, if isArray then "]]" else "]") then Fail(n, MalformedHeader)
    else
      var path := HeaderPath(Trim(statement[width..|statement| - width]), n);
      if path.Err? then Err(path.error) else Ok((path.value, isArray))
  }

  // ------------------------------------------------------------------ assignments and values

  function Assignment(statement: string, n: nat): Parsed<(string, string)> {
    var at := FirstOutside(Outside, statement, '=');
    if at.None? then Fail(n, NoAssignment)
    else
      var key, value := Trim(statement[..at.value]), Trim(statement[at.value + 1..]);
      if key == "" || !AllBare(key) then Fail(n, BadKey)
      else if value == "" then Fail(n, EmptyValue)
      else Ok((key, value))
  }

  const U32_MAX: nat := 0xffff_ffff

  /** Whether the brackets outside strings have been opened and closed again. */
  function ArrayComplete(q: Quote, depth: nat, seen: bool, s: string, n: nat): Parsed<bool>
    decreases |s|
  {
    if s == "" then if q != Outside then Fail(n, UnterminatedString) else Ok(seen && depth == 0)
    else if q == Outside && s[0] == '[' then
      ArrayComplete(Outside, if depth == U32_MAX then depth else depth + 1, true, s[1..], n)
    else if q == Outside && s[0] == ']' then
      if depth == 0 then Fail(n, UnexpectedBracket) else ArrayComplete(Outside, depth - 1, seen, s[1..], n)
    else ArrayComplete(Next(q, s[0]), depth, seen, s[1..], n)
  }

  /** The items of a string array, between its brackets. A trailing comma is allowed. */
  function ArrayItems(s: string, n: nat): Parsed<seq<string>>
    decreases |s|
  {
    var t := TrimStart(s);
    if t == "" then Ok([])
    else if t[0] == ',' then Fail(n, EmptyItem)
    else if t[0] != '"' then Fail(n, OnlyStrings)
    else
      var end := StringEnd(t);
      if end.None? then Fail(n, UnterminatedItem)
      else
        var item := BasicString(t[..end.value + 1], n);
        if item.Err? then Err(item.error)
        else
          var rest := TrimStart(t[end.value + 1..]);
          if rest == "" then Ok([item.value])
          else if rest[0] != ',' then Fail(n, MissingComma)
          else if Trim(rest[1..]) == "" then Ok([item.value])
          else
            var items := ArrayItems(rest[1..], n);
            if items.Err? then items else Ok([item.value] + items.value)
  }

  function StringArray(source: string, n: nat): Parsed<seq<string>> {
    if |source| < 2 || source[0] != '[' || source[|source| - 1] != ']' then Fail(n, MalformedArray)
    else ArrayItems(source[1..|source| - 1], n)
  }

  function ParseValue(raw: string, n: nat): Parsed<Value> {
    var source := Trim(raw);
    if source != "" && source[0] == '"' then
      var text := BasicString(source, n);
      if text.Err? then Err(text.error) else Ok(Text(text.value))
    else if source != "" && source[0] == '[' then
      var items := StringArray(source, n);
      if items.Err? then Err(items.error) else Ok(Texts(items.value))
    else if AllDigits(source) then
      if source == "" || DecimalValue(source) > U64_MAX then Fail(n, InvalidInteger)
        else Ok(Integer(DecimalValue(source)))
    else Fail(n, UnsupportedValue)
  }

  // ------------------------------------------------------------------ statements

  datatype Statement = Open(path: Segments, isArray: bool) | Assign(key: string, value: Value)

  /** An array value goes on over as many lines as its brackets need. Returns the text and the last line. */
  function Gather(lines: seq<string>, k: nat, source: string, n: nat): (r: Parsed<(string, nat)>)
    requires k < |lines|
    ensures r.Ok? ==> k <= r.value.1 < |lines|
    decreases |lines| - k
  {
    var complete := ArrayComplete(Outside, 0, false, source, n);
    if complete.Err? then Err(complete.error)
    else if complete.value then Ok((source, k))
    else if k + 1 == |lines| then Fail(n, UnterminatedArray)
    else
      var more := StripComment(lines[k + 1], k + 2);
      if more.Err? then Err(more.error) else Gather(lines, k + 1, source + "\n" + Trim(more.value), n)
  }

  /** The statement on line `k`, if it holds one, and the line after it. */
  function ReadStatement(lines: seq<string>, k: nat): (r: Parsed<(Option<Statement>, nat)>)
    requires k < |lines|
    ensures r.Ok? ==> k < r.value.1 <= |lines|
  {
    var n := k + 1;
    var stripped := StripComment(lines[k], n);
    if stripped.Err? then Err(stripped.error)
    else
      var statement := Trim(stripped.value);
      if statement == "" then Ok((None, k + 1))
      else if statement[0] == '[' then
        var header := TableHeader(statement, n);
        if header.Err? then Err(header.error) else Ok((Some(Open(header.value.0, header.value.1)), k + 1))
      else ReadAssignment(lines, k, statement)
  }

  function ReadAssignment(lines: seq<string>, k: nat, statement: string): (r: Parsed<(Option<Statement>, nat)>)
    requires k < |lines|
    ensures r.Ok? ==> k < r.value.1 <= |lines|
  {
    var n := k + 1;
    var split := Assignment(statement, n);
    if split.Err? then Err(split.error)
    else
      var (key, initial) := split.value;
      var source := if StartsWith(TrimStart(initial), "[") then Gather(lines, k, initial, n) else Ok((initial, k));
      if source.Err? then Err(source.error)
      else
        var value := ParseValue(source.value.0, n);
        if value.Err? then Err(value.error) else Ok((Some(Assign(key, value.value)), source.value.1 + 1))
  }

  // ------------------------------------------------------------------ the document

  datatype Reading = Reading(document: Document, section: Section)

  function OpenTable(r: Reading, path: Segments, isArray: bool, n: nat): Parsed<Reading> {
    var d := r.document;
    if isArray then
      if path in d.tables then Fail(n, TableIsRegular)
      else
        var tables := (if path in d.arrays then d.arrays[path] else []) + [map[]];
        Ok(Reading(d.(arrays := d.arrays[path := tables]), ArraySection(path, |tables| - 1)))
    else if path in d.tables || path in d.arrays then Fail(n, DuplicateTable)
    else Ok(Reading(d.(tables := d.tables[path := map[]]), TableSection(path)))
  }

  function CurrentTable(r: Reading): Option<Table> {
    var d := r.document;
    match r.section
    case RootSection => Some(d.root)
    case TableSection(path) => if path in d.tables then Some(d.tables[path]) else None
    case ArraySection(path, i) => if path in d.arrays && i < |d.arrays[path]| then Some(d.arrays[path][i]) else None
  }

  function SetCurrent(r: Reading, t: Table): Reading
    requires CurrentTable(r).Some?
  {
    var d := r.document;
    match r.section
    case RootSection => r.(document := d.(root := t))
    case TableSection(path) => r.(document := d.(tables := d.tables[path := t]))
    case ArraySection(path, i) => r.(document := d.(arrays := d.arrays[path := d.arrays[path][i := t]]))
  }

  function AssignKey(r: Reading, key: string, value: Value, n: nat): Parsed<Reading> {
    var current := CurrentTable(r);
    if current.None? then Fail(n, NoCurrentTable)
    else if key in current.value then Fail(n, DuplicateKey)
    else Ok(SetCurrent(r, current.value[key := value]))
  }

  function Perform(r: Reading, s: Statement, n: nat): Parsed<Reading> {
    match s
    case Open(path, isArray) => OpenTable(r, path, isArray, n)
    case Assign(key, value) => AssignKey(r, key, value, n)
  }

  /** Reads the lines from `k` on. */
  function ReadFrom(lines: seq<string>, k: nat, r: Reading): Parsed<Document>
    requires k <= |lines|
    decreases |lines| - k
  {
    if k == |lines| then Ok(r.document)
    else
      var read := ReadStatement(lines, k);
      if read.Err? then Err(read.error)
      else if read.value.0.None? then ReadFrom(lines, read.value.1, r)
      else
        var next := Perform(r, read.value.0.value, k + 1);
        if next.Err? then Err(next.error) else ReadFrom(lines, read.value.1, next.value)
  }

  // ------------------------------------------------------------------ lines

  /** The text cut after every line feed. */
  function SplitLines(s: string): (lines: seq<string>)
    ensures lines == [] <==> s == ""
  {
    if s == "" then []
    else if s[0] == '\n' then [""] + SplitLines(s[1..])
    else
      var rest := SplitLines(s[1..]);
      if rest == [] then [[s[0]]] else [[s[0]] + rest[0]] + rest[1..]
  }

  function DropReturn(line: string): string {
    if line != "" && line[|line| - 1] == '\r' then line[..|line| - 1] else line
  }

  function DropReturns(lines: seq<string>): (out: seq<string>)
    ensures |out| == |lines| && forall i | 0 <= i < |lines| :: out[i] == DropReturn(lines[i])
  {
    seq(|lines|, i requires 0 <= i < |lines| => DropReturn(lines[i]))
  }

  /** `str::lines`. A carriage return is dropped only before a line feed. */
  function Lines(s: string): seq<string> {
    var cut := SplitLines(s);
    if s == "" || s[|s| - 1] == '\n' then DropReturns(cut)
    else DropReturns(cut[..|cut| - 1]) + [cut[|cut| - 1]]
  }

  function ParseRestrictedToml(source: string): Parsed<Document> {
    ReadFrom(Lines(source), 0, Reading(Empty, RootSection))
  }
}
