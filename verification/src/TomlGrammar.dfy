/**
 How the restricted TOML can be written (String, Integer, Array, Table and Array of Tables sections of TOML
 v1.0.0, cut down to what the reader supports): which text stands for which value, independent of how the
 reader scans it.
 */
module TomlGrammar {
  import opened Prelude
  import opened Toml

  // ------------------------------------------------------------------ strings

  /** The letter after a backslash, and the character the two stand for. */
  const SHORT: map<char, char> :=
    map['"' := '"', '\\' := '\\', 'b' := '\U{0008}', 't' := '\t', 'n' := '\n', 'f' := '\U{000C}', 'r' := '\r']

  const LOWER := "0123456789abcdef"
  const UPPER := "0123456789ABCDEF"

  ghost predicate Hex(t: string, v: nat) {
    if t == "" then v == 0
    else
      var digit := t[|t| - 1];
      (digit == LOWER[v % 16] || digit == UPPER[v % 16]) && Hex(t[..|t| - 1], v / 16)
  }

  /** One character of a string. The barred characters must be escaped. */
  ghost predicate WritesChar(w: string, c: char, barred: string) {
    || (w == [c] && c != '\\' && c !in barred)
    || (|w| == 2 && w[0] == '\\' && w[1] in SHORT && SHORT[w[1]] == c)
    || (|w| == 6 && w[0] == '\\' && w[1] == 'u' && Hex(w[2..], c as int))
    || (|w| == 10 && w[0] == '\\' && w[1] == 'U' && Hex(w[2..], c as int))
  }

  ghost predicate Writes(w: string, s: string, barred: string)
    decreases |s|
  {
    if s == "" then w == ""
    else exists k | 0 < k <= |w| :: WritesChar(w[..k], s[0], barred) && Writes(w[k..], s[1..], barred)
  }

  ghost predicate Quoted(w: string, s: string, barred: string) {
    |w| >= 2 && w[0] == '"' && w[|w| - 1] == '"' && Writes(w[1..|w| - 1], s, barred)
  }

  /** What must be escaped so that a string ends at its closing quote and stays on its line. */
  const DELIMITERS := "\"\n"

  // ------------------------------------------------------------------ blanks

  ghost predicate Blank(s: string) { forall i | 0 <= i < |s| :: IsWhite(s[i]) }

  /** Text that starts and ends with something visible. */
  ghost predicate Visible(s: string) { s != "" && !IsWhite(s[0]) && !IsWhite(s[|s| - 1]) }

  ghost predicate Tidy(s: string) { s == "" || Visible(s) }

  /** The text with blanks around it. */
  ghost predicate Around(t: string, w: string) {
    exists a, b :: Blank(a) && Blank(b) && t == a + w + b
  }

  // ------------------------------------------------------------------ headers

  /** A segment stands bare or as a string, with blanks around it. */
  ghost predicate WritesSegment(t: string, s: string, barred: string) {
    s != "" && exists w :: Around(t, w) && ((w == s && AllBare(w)) || Quoted(w, s, barred))
  }

  ghost predicate WritesPath(t: string, path: Segments, barred: string)
    decreases |path|
  {
    if path == [] then false
    else if |path| == 1 then WritesSegment(t, path[0], barred)
    else exists k | 0 <= k < |t| ::
           t[k] == '.' && WritesSegment(t[..k], path[0], barred) && WritesPath(t[k + 1..], path[1..], barred)
  }

  function Bracketed(inner: string, isArray: bool): string {
    if isArray then "[[" + inner + "]]" else "[" + inner + "]"
  }

  ghost predicate WritesHeader(t: string, path: Segments, isArray: bool, barred: string) {
    exists inner, core ::
      t == Bracketed(inner, isArray) && Around(inner, core) && Visible(core) && WritesPath(core, path, barred)
  }

  // ------------------------------------------------------------------ values

  ghost predicate Decimal(t: string, n: nat) {
    if t == "" then n == 0 else t[|t| - 1] == "0123456789"[n % 10] && Decimal(t[..|t| - 1], n / 10)
  }

  /** One item of an array from `i` to `j`, and blanks from there to `k`. */
  ghost predicate ItemAt(t: string, i: nat, j: nat, k: nat, s: string, barred: string) {
    i <= j <= k <= |t| && Blank(t[..i]) && Quoted(t[i..j], s, barred) && Blank(t[j..k])
  }

  /** Strings with commas between them, and perhaps one after the last. */
  ghost predicate WritesItems(t: string, items: seq<string>, barred: string)
    decreases |items|
  {
    if items == [] then Blank(t)
    else
      exists i: nat, j: nat, k: nat | ItemAt(t, i, j, k, items[0], barred) ::
        || (k == |t| && |items| == 1)
        || (k < |t| && t[k] == ',' && WritesItems(t[k + 1..], items[1..], barred))
  }

  ghost predicate WritesArray(t: string, items: seq<string>, barred: string) {
    |t| >= 2 && t[0] == '[' && t[|t| - 1] == ']' && WritesItems(t[1..|t| - 1], items, barred)
  }

  /** Within an array a string must be closed where it ends. Elsewhere that depends on what is barred. */
  ghost predicate WritesValue(t: string, v: Value, barred: string) {
    match v
    case Text(s) => Quoted(t, s, barred)
    case Integer(n) => t != "" && n <= U64_MAX && Decimal(t, n)
    case Texts(items) => WritesArray(t, items, DELIMITERS)
  }

  // ------------------------------------------------------------------ lines

  /** A line: blanks, text, blanks, and perhaps a comment. */
  datatype Row = Row(left: string, text: string, right: string, comment: Option<string>)

  function Code(r: Row): string { r.left + r.text + r.right }

  function RowLine(r: Row): string { if r.comment.None? then Code(r) else Code(r) + ("#" + r.comment.value) }

  ghost predicate RowOk(r: Row) { Blank(r.left) && Blank(r.right) && Tidy(r.text) }

  /** The texts of the lines with line breaks between them. */
  function Joined(first: string, rows: seq<Row>): string
    decreases |rows|
  {
    if rows == [] then first else Joined(first + "\n" + rows[0].text, rows[1..])
  }

  /** A statement, or nothing, and the lines it is written on. */
  datatype Piece = Piece(statement: Option<Statement>, rows: seq<Row>)

  /** An assignment. Only an array goes on over further lines. */
  ghost predicate WritesAssign(rows: seq<Row>, key: string, v: Value, barred: string)
    requires rows != []
  {
    && key != "" && AllBare(key) && (|rows| > 1 ==> v.Texts?)
    && exists a, b, first ::
         && Blank(a) && Blank(b) && rows[0].text == key + a + "=" + (b + first) && Visible(first)
         && WritesValue(Joined(first, rows[1..]), v, barred)
  }

  ghost predicate WritesPiece(p: Piece, barred: string) {
    && p.rows != [] && (forall i | 0 <= i < |p.rows| :: RowOk(p.rows[i]))
    && match p.statement {
      case None => |p.rows| == 1 && p.rows[0].text == ""
      case Some(Open(path, isArray)) => |p.rows| == 1 && WritesHeader(p.rows[0].text, path, isArray, barred)
      case Some(Assign(key, v)) => WritesAssign(p.rows, key, v, barred)
    }
  }

  function RowLines(rows: seq<Row>): (lines: seq<string>)
    ensures |lines| == |rows| && forall i | 0 <= i < |rows| :: lines[i] == RowLine(rows[i])
  {
    seq(|rows|, i requires 0 <= i < |rows| => RowLine(rows[i]))
  }

  function PieceLines(ps: seq<Piece>): seq<string> {
    if ps == [] then [] else RowLines(ps[0].rows) + PieceLines(ps[1..])
  }

  /** Performing the statements one by one, each under the number of its first line. */
  function Build(ps: seq<Piece>, n: nat, r: Reading): Parsed<Document> {
    if ps == [] then Ok(r.document)
    else
      var next := if ps[0].statement.None? then Ok(r) else Perform(r, ps[0].statement.value, n);
      if next.Err? then Err(next.error) else Build(ps[1..], n + |ps[0].rows|, next.value)
  }

  // ------------------------------------------------------------------ texts

  /** Lines and what ends them. */
  ghost predicate Ended(lines: seq<string>, ends: seq<string>)
  {
    && |ends| == |lines|
    && forall i | 0 <= i < |lines| ::
         && '\n' !in lines[i]
         && (|| (ends[i] == "\n" && DropReturn(lines[i]) == lines[i])
             || ends[i] == "\r\n"
             || (ends[i] == "" && i == |lines| - 1 && lines[i] != ""))
  }

  function TextOf(lines: seq<string>, ends: seq<string>): string
    requires |lines| == |ends|
  {
    if lines == [] then "" else lines[0] + ends[0] + TextOf(lines[1..], ends[1..])
  }
}
