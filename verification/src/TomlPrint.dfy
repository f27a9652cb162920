/** One way to write every statement: strings and segments quoted and escaped, everything on one line. */
module TomlPrint {
  import opened Prelude
  import J = JsonPointer
  import opened Toml
  import opened TomlGrammar
  import opened TomlReads

  function PrintChar(c: char): string {
    match c
    case '"' => "\\\""
    case '\\' => "\\\\"
    case '\n' => "\\n"
    case _ => [c]
  }

  function PrintChars(s: string): string {
    if s == "" then "" else PrintChar(s[0]) + PrintChars(s[1..])
  }

  function PrintText(s: string): string { "\"" + PrintChars(s) + "\"" }

  function PrintPath(path: Segments): string {
    if path == [] then ""
    else if |path| == 1 then PrintText(path[0])
    else PrintText(path[0]) + ("." + PrintPath(path[1..]))
  }

  function PrintItems(items: seq<string>): string {
    if items == [] then "" else PrintText(items[0]) + ("," + PrintItems(items[1..]))
  }

  function PrintValue(v: Value): string {
    match v
    case Text(s) => PrintText(s)
    case Integer(n) => NatText(n)
    case Texts(items) => "[" + PrintItems(items) + "]"
  }

  function PrintStatement(s: Statement): string {
    match s
    case Open(path, isArray) => Bracketed(PrintPath(path), isArray)
    case Assign(key, value) => key + "" + "=" + ("" + PrintValue(value))
  }

  function PrintPiece(s: Statement): Piece { Piece(Some(s), [Row("", PrintStatement(s), "", None)]) }

  /** What the format can express: bare keys, non-empty paths of non-empty segments, 64-bit numbers. */
  ghost predicate Expressible(s: Statement) {
    match s
    case Open(path, _) => path != [] && forall i | 0 <= i < |path| :: path[i] != ""
    case Assign(key, value) => key != "" && AllBare(key) && (value.Integer? ==> value.n <= U64_MAX)
  }

  lemma CharPrinted(c: char)
    ensures WritesChar(PrintChar(c), c, DELIMITERS) && '\n' !in PrintChar(c)
  {
  }

  lemma {:induction false} CharsPrinted(s: string)
    ensures Writes(PrintChars(s), s, DELIMITERS) && '\n' !in PrintChars(s)
  {
    hide PrintChar, WritesChar;
    if s != "" {
      var w, rest := PrintChar(s[0]), PrintChars(s[1..]);
      CharPrinted(s[0]);
      CharsPrinted(s[1..]);
      assert w != "" by { CharNotEmpty(s[0]); }
      assert (w + rest)[..|w|] == w && (w + rest)[|w|..] == rest;
    }
  }

  lemma CharNotEmpty(c: char)
    ensures PrintChar(c) != ""
  {
  }

  lemma TextPrinted(s: string)
    ensures Quoted(PrintText(s), s, DELIMITERS) && '\n' !in PrintText(s)
  {
    hide PrintChars, Writes;
    CharsPrinted(s);
    var w := PrintText(s);
    assert w[1..|w| - 1] == PrintChars(s);
  }

  lemma AroundItself(t: string)
    ensures Around(t, t)
  {
    assert t == "" + t + "" && Blank("");
  }

  lemma SegmentPrinted(s: string)
    requires s != ""
    ensures WritesSegment(PrintText(s), s, DELIMITERS) && '\n' !in PrintText(s) && Visible(PrintText(s))
  {
    hide PrintText, Quoted, Around;
    TextPrinted(s);
    QuotedStarts(PrintText(s), s, DELIMITERS);
    AroundItself(PrintText(s));
  }

  lemma {:induction false} PathPrinted(path: Segments)
    requires path != [] && forall i | 0 <= i < |path| :: path[i] != ""
    ensures WritesPath(PrintPath(path), path, DELIMITERS) && '\n' !in PrintPath(path) && Visible(PrintPath(path))
  {
    hide PrintText, WritesSegment;
    SegmentPrinted(path[0]);
    if |path| > 1 {
      var w, rest := PrintText(path[0]), PrintPath(path[1..]);
      PathPrinted(path[1..]);
      var t := w + ("." + rest);
      assert t[..|w|] == w && t[|w|] == '.' && t[|w| + 1..] == rest;
    }
  }

  lemma {:induction false} ItemsPrinted(items: seq<string>)
    ensures WritesItems(PrintItems(items), items, DELIMITERS) && '\n' !in PrintItems(items)
  {
    hide PrintText, Quoted;
    if items != [] {
      var w, rest := PrintText(items[0]), PrintItems(items[1..]);
      TextPrinted(items[0]);
      ItemsPrinted(items[1..]);
      var t := w + ("," + rest);
      assert t[0..|w|] == w && t[|w|] == ',' && t[|w| + 1..] == rest;
      assert ItemAt(t, 0, |w|, |w|, items[0], DELIMITERS);
    }
  }

  lemma ValuePrinted(v: Value)
    requires v.Integer? ==> v.n <= U64_MAX
    ensures WritesValue(PrintValue(v), v, DELIMITERS) && '\n' !in PrintValue(v)
  {
    hide PrintText, PrintItems, NatText, Quoted, WritesItems;
    match v
    case Text(s) => TextPrinted(s);
    case Integer(n) =>
      J.NatTextDecimal(n);
      DecimalExactly(NatText(n), n);
      assert forall i | 0 <= i < |NatText(n)| :: J.IsDigit(NatText(n)[i]);
    case Texts(items) =>
      ItemsPrinted(items);
      var t := PrintValue(v);
      assert t[1..|t| - 1] == PrintItems(items);
  }

  lemma HeaderPrinted(path: Segments, isArray: bool)
    requires Expressible(Open(path, isArray))
    ensures
      var t := Bracketed(PrintPath(path), isArray);
      WritesHeader(t, path, isArray, DELIMITERS) && '\n' !in t && Visible(t)
  {
    hide PrintPath, WritesPath, Around;
    PathPrinted(path);
    AroundItself(PrintPath(path));
  }

  lemma AssignPrinted(key: string, v: Value)
    requires Expressible(Assign(key, v))
    ensures
      var t := PrintStatement(Assign(key, v));
      WritesAssign([Row("", t, "", None)], key, v, DELIMITERS) && '\n' !in t && Visible(t)
  {
    hide PrintValue, WritesValue, IsWhite;
    ValuePrinted(v);
    ValueStarts(PrintValue(v), v, DELIMITERS);
    BareKey(key);
    assert forall i | 0 <= i < |key| :: IsBare(key[i]);
    var t := PrintStatement(Assign(key, v));
    assert t[0] == key[0] && t[|t| - 1] == PrintValue(v)[|PrintValue(v)| - 1];
    assert Blank("");
  }

  /** Whatever the format can express has a text. */
  lemma StatementPrinted(s: Statement)
    requires Expressible(s)
    ensures WritesPiece(PrintPiece(s), DELIMITERS)
    ensures '\n' !in PrintStatement(s) && DropReturn(PrintStatement(s)) == PrintStatement(s)
  {
    hide PrintPath, PrintValue, WritesHeader, WritesAssign, Bracketed;
    match s
    case Open(path, isArray) => HeaderPrinted(path, isArray);
    case Assign(key, v) => AssignPrinted(key, v);
  }
}
