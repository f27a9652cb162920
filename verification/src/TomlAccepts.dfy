/**
 What the reader accepts. Every accepted text is one the grammar writes, except that a string value or a quoted
 segment may hold quotes without a backslash.
 */
module TomlAccepts {
  import opened Prelude
  import J = JsonPointer
  import opened Toml
  import opened TomlGrammar
  import opened TomlReads

  // ------------------------------------------------------------------ trimming

  lemma {:induction false} TrimStartSplits(s: string) returns (a: string)
    ensures Blank(a) && s == a + TrimStart(s)
  {
    hide IsWhite;
    a := "";
    if s != "" && IsWhite(s[0]) {
      var rest := TrimStartSplits(s[1..]);
      a := [s[0]] + rest;
      assert s == [s[0]] + s[1..];
    }
  }

  lemma {:induction false} TrimEndSplits(s: string) returns (b: string)
    ensures Blank(b) && s == TrimEnd(s) + b
    ensures TrimEnd(s) == "" || !IsWhite(TrimEnd(s)[|TrimEnd(s)| - 1])
  {
    hide IsWhite;
    b := "";
    if s != "" && IsWhite(s[|s| - 1]) {
      var rest := TrimEndSplits(s[..|s| - 1]);
      b := rest + [s[|s| - 1]];
      assert s == s[..|s| - 1] + [s[|s| - 1]];
    }
  }

  /** What trimming takes off is blank. */
  lemma TrimSplits(s: string) returns (a: string, b: string)
    ensures Blank(a) && Blank(b) && s == a + Trim(s) + b && Tidy(Trim(s)) && Around(s, Trim(s))
  {
    hide IsWhite, TrimStart, TrimEnd;
    a := TrimStartSplits(s);
    b := TrimEndSplits(TrimStart(s));
    assert s == a + (Trim(s) + b) == a + Trim(s) + b;
    if Trim(s) != "" { assert TrimStart(s)[0] == Trim(s)[0]; }
  }

  /** Nothing visible at an end is trimmed off there. */
  lemma TrimFront(s: string) returns (b: string)
    requires s != "" && !IsWhite(s[0])
    ensures Blank(b) && s == Trim(s) + b && Tidy(Trim(s))
  {
    hide IsWhite, Trim;
    var a;
    a, b := TrimSplits(s);
    assert a == "" && "" + Trim(s) == Trim(s);
  }

  lemma TrimBack(s: string) returns (a: string)
    requires s != "" && !IsWhite(s[|s| - 1])
    ensures Blank(a) && s == a + Trim(s) && Tidy(Trim(s))
  {
    hide IsWhite, Trim;
    var b;
    a, b := TrimSplits(s);
    assert b == "" && a + Trim(s) + "" == a + Trim(s);
  }

  lemma TrimNothing(s: string)
    requires Visible(s)
    ensures Trim(s) == s
  {
    TrimPadded("", s, "");
    assert "" + s + "" == s;
  }

  // ------------------------------------------------------------------ lines

  lemma CommentFound(line: string, n: nat) returns (comment: Option<string>)
    requires StripComment(line, n).Ok?
    ensures
      var code := StripComment(line, n).value;
      line == if comment.None? then code else code + ("#" + comment.value)
  {
    hide FirstOutside, After;
    var hash := FirstOutside(Outside, line, '#');
    if hash.None? {
      comment := None;
    } else {
      comment := Some(line[hash.value + 1..]);
      assert line[hash.value..] == "#" + line[hash.value + 1..];
    }
  }

  /** A line whose comment can be stripped is a written line. */
  lemma RowOfLine(line: string, n: nat) returns (r: Row)
    requires StripComment(line, n).Ok?
    ensures RowLine(r) == line && RowOk(r) && r.text == Trim(StripComment(line, n).value)
  {
    hide StripComment, Trim, Tidy, Blank;
    var comment := CommentFound(line, n);
    var code := StripComment(line, n).value;
    var a, b := TrimSplits(code);
    r := Row(a, Trim(code), b, comment);
  }

  // ------------------------------------------------------------------ headers

  lemma SegmentWritten(t: string, s: string, n: nat)
    requires Segment(Trim(t), n) == Ok(s)
    ensures WritesSegment(t, s, "")
  {
    hide Trim, BasicString, Quoted, Around;
    var a, b := TrimSplits(t);
    BasicStringExactly(Trim(t), s, n);
  }

  function JoinDots(parts: seq<string>): string {
    if parts == [] then "" else if |parts| == 1 then parts[0] else parts[0] + "." + JoinDots(parts[1..])
  }

  lemma {:induction false} SplitJoins(q: Quote, s: string)
    ensures JoinDots(SplitDots(q, s)) == s
    decreases |s|
  {
    if s != "" {
      if q == Outside && s[0] == '.' {
        SplitJoins(Outside, s[1..]);
        var rest := SplitDots(Outside, s[1..]);
        assert ([""] + rest)[1..] == rest;
        assert "" + "." + s[1..] == s;
      } else {
        SplitJoins(Next(q, s[0]), s[1..]);
        var rest := SplitDots(Next(q, s[0]), s[1..]);
        JoinGrows(s[0], rest);
      }
    }
  }

  lemma JoinGrows(c: char, rest: seq<string>)
    requires rest != []
    ensures JoinDots([[c] + rest[0]] + rest[1..]) == [c] + JoinDots(rest)
  {
    var grown := [[c] + rest[0]] + rest[1..];
    assert grown[1..] == rest[1..];
    if |rest| > 1 {
      assert [c] + rest[0] + "." + JoinDots(rest[1..]) == [c] + (rest[0] + "." + JoinDots(rest[1..]));
    }
  }

  lemma {:induction false} PathWritten(parts: seq<string>, path: Segments, n: nat)
    requires parts != [] && AllSegments(parts, n) == Ok(path)
    ensures WritesPath(JoinDots(parts), path, "")
    decreases |parts|
  {
    hide Segment, Trim, WritesSegment;
    var first, rest := Segment(Trim(parts[0]), n), parts[1..];
    SegmentWritten(parts[0], first.value, n);
    assert path == [first.value] + AllSegments(rest, n).value;
    if |parts| == 1 {
      assert AllSegments(rest, n).value == [];
    } else {
      PathWritten(rest, path[1..], n);
      var t, k := JoinDots(parts), |parts[0]|;
      assert t[..k] == parts[0] && t[k] == '.' && t[k + 1..] == JoinDots(rest);
      assert |path| > 1;
    }
  }

  /** Every accepted header is written. */
  lemma HeaderWritten(t: string, path: Segments, isArray: bool, n: nat)
    requires t != "" && t[0] == '[' && TableHeader(t, n) == Ok((path, isArray))
    ensures WritesHeader(t, path, isArray, "")
  {
    hide AllSegments, SplitDots, Trim, After, WritesPath, Around;
    var width := if isArray then 2 else 1;
    var inner := t[width..|t| - width];
    var core := Trim(inner);
    assert t == Bracketed(inner, isArray) by {
      if isArray {
        assert t[..2] == "[[" && t[|t| - 2..] == "]]";
        assert t == t[..2] + inner + t[|t| - 2..];
      } else {
        assert t[|t| - 1..] == "]" && t[..1] == "[";
        assert t == t[..1] + inner + t[|t| - 1..];
      }
    }
    var a, b := TrimSplits(inner);
    SplitJoins(Outside, core);
    PathWritten(SplitDots(Outside, core), path, n);
  }

  // ------------------------------------------------------------------ arrays

  lemma ClosedChar(w: string, c: char, t: string)
    requires WritesChar(w, c, "") && w != "" && EndOfString(Inside, w + t) != Some(0)
    ensures WritesChar(w, c, "\"")
  {
    hide EndOfString, Hex;
    QuoteEnds(w + t);
    assert (w + t)[0] == w[0];
  }

  /** A string that ends where the scan finds its end holds no bare quote. */
  lemma {:induction false} ClosedBody(w: string, s: string, t: string)
    requires Writes(w, s, "") && EndOfString(Inside, w + t) == Some(|w|)
    ensures Writes(w, s, "\"")
    decreases |s|
  {
    hide EndOfString, WritesChar;
    if s != "" {
      var k :| 0 < k <= |w| && WritesChar(w[..k], s[0], "") && Writes(w[k..], s[1..], "");
      var rest := w[k..] + t;
      assert w + t == w[..k] + rest;
      ClosedChar(w[..k], s[0], rest);
      CharInside(w[..k], s[0], "\"", rest, '.');
      ClosedBody(w[k..], s[1..], t);
    }
  }

  lemma QuoteEnds(s: string)
    ensures s != "" && s[0] == '"' ==> EndOfString(Inside, s) == Some(0)
  {
  }

  lemma ItemWritten(u: string, e: nat, s: string, n: nat)
    requires u != "" && u[0] == '"' && StringEnd(u) == Some(e) && BasicString(u[..e + 1], n) == Ok(s)
    ensures Quoted(u[..e + 1], s, "\"")
  {
    hide Writes, BasicString, EndOfString;
    var w := u[..e + 1];
    BasicStringExactly(w, s, n);
    var body := w[1..|w| - 1];
    assert u[1..] == body + u[e..];
    ClosedBody(body, s, u[e..]);
  }

  /** The items of an accepted array are written. */
  lemma {:induction false} ItemsWritten(t: string, items: seq<string>, n: nat)
    requires ArrayItems(t, n) == Ok(items)
    ensures WritesItems(t, items, "\"")
    decreases |t|
  {
    hide StringEnd, BasicString, Quoted, IsWhite, TrimStart, Trim;
    var a := TrimStartSplits(t);
    var u := TrimStart(t);
    if u == "" {
      assert t == a;
    } else {
      var e := StringEnd(u).value;
      var s := BasicString(u[..e + 1], n).value;
      ItemWritten(u, e, s, n);
      var after := u[e + 1..];
      var b := TrimStartSplits(after);
      var rest := TrimStart(after);
      var i, j := |a|, |a| + e + 1;
      var k := j + |b|;
      assert t[..i] == a && t[i..j] == u[..e + 1] && t[j..] == after && t[j..k] == b && t[k..] == rest;
      assert items[0] == s;
      assert ItemAt(t, i, j, k, s, "\"");
      if rest == "" {
        assert k == |t| && |items| == 1;
      } else {
        assert t[k] == rest[0] == ',' && t[k + 1..] == rest[1..];
        if Trim(rest[1..]) == "" {
          NothingLeft(rest[1..]);
          assert items[1..] == [] && WritesItems(t[k + 1..], items[1..], "\"");
        } else {
          var more := ArrayItems(rest[1..], n).value;
          assert items == [s] + more && items[1..] == more;
          ItemsWritten(rest[1..], more, n);
        }
      }
    }
  }

  lemma NothingLeft(t: string)
    requires Trim(t) == ""
    ensures Blank(t)
  {
    hide Trim, IsWhite;
    var a, b := TrimSplits(t);
    assert t == a + b;
  }

  // ------------------------------------------------------------------ line breaks

  /** Line breaks stand outside strings. */
  ghost predicate BreaksOutside(t: string) {
    forall j | 0 <= j < |t| && t[j] == '\n' :: After(Outside, t[..j]) == Outside
  }

  lemma {:induction false} StillInside(q: Quote, x: string, m: nat, p: nat)
    requires q != Outside && EndOfString(q, x) == Some(m) && p <= m
    ensures After(q, x[..p]) != Outside
    decreases |x|
  {
    if p > 0 {
      assert x[..p][1..] == x[1..][..p - 1];
      StillInside(Next(q, x[0]), x[1..], m - 1, p - 1);
    }
  }

  lemma NoBreakInString(before: string, w: string, s: string, t: string)
    requires Quoted(w, s, "\"") && After(Outside, before) == Outside && BreaksOutside(before + w + t)
    ensures '\n' !in w
  {
    hide Writes;
    var body := w[1..|w| - 1];
    CharsInside(body, s, "\"", "\"", '.');
    QuoteEnds("\"");
    assert EndOfString(Inside, body + "\"") == Some(|body|);
    forall p | 0 < p < |w| - 1 ensures w[p] != '\n' {
      var all := before + w + t;
      assert all[|before| + p] == w[p] && all[..|before| + p] == before + w[..p];
      AfterAppend(Outside, before, w[..p]);
      StillInside(Inside, body + "\"", |body|, p - 1);
      assert w[..p][1..] == (body + "\"")[..p - 1];
    }
  }

  lemma AfterItem(t: string, i: nat, j: nat, k: nat, s: string)
    requires ItemAt(t, i, j, k, s, "\"")
    ensures After(Outside, t[..i]) == Outside && After(Outside, t[..k]) == Outside
  {
    hide FirstOutside, After, Quoted, IsWhite;
    NotWhite();
    NotBlank();
    BlankPlain(t[..i], '#');
    BlankPlain(t[j..k], '#');
    QuotedSealed(t[i..j], s, "\"", '#');
    AfterAppend(Outside, t[..i], t[i..j]);
    AfterAppend(Outside, t[..i] + t[i..j], t[j..k]);
    assert t[..k] == t[..i] + t[i..j] + t[j..k];
  }

  lemma BreaksAfter(a: string, b: string)
    requires BreaksOutside(a + b) && After(Outside, a) == Outside
    ensures BreaksOutside(b)
  {
    hide After;
    forall j | 0 <= j < |b| && b[j] == '\n' ensures After(Outside, b[..j]) == Outside {
      assert (a + b)[|a| + j] == '\n' && (a + b)[..|a| + j] == a + b[..j];
      AfterAppend(Outside, a, b[..j]);
    }
  }

  lemma ItemOnLine(t: string, i: nat, j: nat, k: nat, s: string)
    requires ItemAt(t, i, j, k, s, "\"") && BreaksOutside(t)
    ensures ItemAt(t, i, j, k, s, DELIMITERS)
  {
    hide Writes, After, BreaksOutside, IsWhite;
    AfterItem(t, i, j, k, s);
    var w := t[i..j];
    assert t == t[..i] + w + t[j..];
    NoBreakInString(t[..i], w, s, t[j..]);
    Rebarred(w[1..|w| - 1], s, "\"", DELIMITERS);
  }

  lemma BreaksAfterItem(t: string, i: nat, j: nat, k: nat, s: string)
    requires ItemAt(t, i, j, k, s, "\"") && k < |t| && t[k] == ',' && BreaksOutside(t)
    ensures BreaksOutside(t[k + 1..])
  {
    hide After, BreaksOutside, ItemAt;
    AfterItem(t, i, j, k, s);
    AfterAppend(Outside, t[..k], ",");
    CommaOutside();
    assert t == (t[..k] + ",") + t[k + 1..];
    BreaksAfter(t[..k] + ",", t[k + 1..]);
  }

  lemma {:induction false} ItemsOnLines(t: string, items: seq<string>)
    requires WritesItems(t, items, "\"") && BreaksOutside(t)
    ensures WritesItems(t, items, DELIMITERS)
    decreases |items|
  {
    hide ItemAt, BreaksOutside;
    if items != [] {
      var i: nat, j: nat, k: nat :| ItemAt(t, i, j, k, items[0], "\"") &&
        ((k == |t| && |items| == 1) || (k < |t| && t[k] == ',' && WritesItems(t[k + 1..], items[1..], "\"")));
      ItemOnLine(t, i, j, k, items[0]);
      if k < |t| {
        BreaksAfterItem(t, i, j, k, items[0]);
        ItemsOnLines(t[k + 1..], items[1..]);
      }
    }
  }

  lemma CommaOutside()
    ensures After(Outside, ",") == Outside && After(Outside, "[") == Outside && After(Outside, "\n") == Outside
  {
    PlainSealed(",", '#');
    PlainSealed("[", '#');
    PlainSealed("\n", '#');
  }

  lemma ArrayWritten(t: string, items: seq<string>, n: nat)
    requires StringArray(t, n) == Ok(items) && BreaksOutside(t)
    ensures WritesArray(t, items, DELIMITERS)
  {
    hide ArrayItems, WritesItems, After, BreaksOutside;
    var inner := t[1..|t| - 1];
    ItemsWritten(inner, items, n);
    assert t == "[" + (inner + "]");
    CommaOutside();
    BreaksAfter("[", inner + "]");
    BreaksBefore(inner, "]");
    ItemsOnLines(inner, items);
  }

  lemma BreaksBefore(a: string, b: string)
    requires BreaksOutside(a + b)
    ensures BreaksOutside(a)
  {
    hide After;
    forall j | 0 <= j < |a| && a[j] == '\n' ensures After(Outside, a[..j]) == Outside {
      assert (a + b)[j] == '\n' && (a + b)[..j] == a[..j];
    }
  }

  /** Every accepted value is written. */
  lemma ValueWritten(t: string, v: Value, n: nat)
    requires Visible(t) && ParseValue(t, n) == Ok(v) && BreaksOutside(t)
    ensures WritesValue(t, v, "") && (v.Texts? <==> t[0] == '[')
  {
    hide BasicString, StringArray, Trim, Quoted, WritesArray, BreaksOutside;
    TrimNothing(t);
    match v
    case Text(s) => BasicStringExactly(t, s, n);
    case Integer(m) => DecimalExactly(t, m);
    case Texts(items) => ArrayWritten(t, items, n);
  }

  // ------------------------------------------------------------------ arrays over several lines

  lemma {:induction false} CompleteOutside(q: Quote, depth: nat, seen: bool, s: string, n: nat)
    requires ArrayComplete(q, depth, seen, s, n).Ok?
    ensures After(q, s) == Outside
    ensures ArrayComplete(q, depth, seen, s + "\n", n) == ArrayComplete(q, depth, seen, s, n)
    decreases |s|
  {
    if s == "" {
      assert (s + "\n")[1..] == "";
    } else {
      assert (s + "\n")[1..] == s[1..] + "\n";
      if q == Outside && s[0] == '[' {
        CompleteOutside(Outside, if depth == U32_MAX then depth else depth + 1, true, s[1..], n);
      } else if q == Outside && s[0] == ']' {
        CompleteOutside(Outside, depth - 1, seen, s[1..], n);
      } else {
        CompleteOutside(Next(q, s[0]), depth, seen, s[1..], n);
      }
    }
  }

  lemma BreaksGrow(source: string, text: string)
    requires BreaksOutside(source) && After(Outside, source) == Outside && '\n' !in text
    ensures BreaksOutside(source + "\n" + text)
  {
    hide After;
    var t := source + "\n" + text;
    assert forall i | 0 <= i < |text| :: t[|source| + 1 + i] == text[i];
    forall j | 0 <= j < |t| && t[j] == '\n' ensures After(Outside, t[..j]) == Outside {
      if j < |source| {
        assert t[..j] == source[..j] && t[j] == source[j];
      } else if j == |source| {
        assert t[..j] == source;
      }
    }
  }

  lemma RowHasNoBreak(r: Row)
    requires '\n' !in RowLine(r)
    ensures '\n' !in r.text
  {
    var line := RowLine(r);
    assert forall i | 0 <= i < |r.text| :: line[|r.left| + i] == r.text[i];
  }

  /** The lines an array was gathered from. */
  lemma {:induction false} GatherWritten(lines: seq<string>, k: nat, source: string, n: nat) returns (rows: seq<Row>)
    requires k < |lines| && (forall i | 0 <= i < |lines| :: '\n' !in lines[i]) && Gather(lines, k, source, n).Ok?
    requires BreaksOutside(source) && source != ""
    requires Visible(source) || ArrayComplete(Outside, 0, false, source, n) == Ok(false)
    requires !IsWhite(source[0])
    ensures
      var (t, last) := Gather(lines, k, source, n).value;
      && last == k + |rows| && RowLines(rows) == lines[k + 1..last + 1] && t == Joined(source, rows)
      && (forall i | 0 <= i < |rows| :: RowOk(rows[i]))
      && BreaksOutside(t) && Visible(t)
    decreases |lines| - k
  {
    hide ArrayComplete, StripComment, Trim, IsWhite, After, BreaksOutside, RowLine;
    if ArrayComplete(Outside, 0, false, source, n).value {
      rows := [];
    } else {
      CompleteOutside(Outside, 0, false, source, n);
      var row := RowOfLine(lines[k + 1], k + 2);
      RowHasNoBreak(row);
      BreaksGrow(source, row.text);
      var next := source + "\n" + row.text;
      assert next[0] == source[0];
      NextSource(source, row.text, n);
      var rest := GatherWritten(lines, k + 1, next, n);
      rows := [row] + rest;
      assert rows[1..] == rest;
      assert lines[k + 1..k + 2 + |rest|] == [lines[k + 1]] + lines[k + 2..k + 2 + |rest|];
    }
  }

  lemma NextSource(source: string, text: string, n: nat)
    requires source != "" && !IsWhite(source[0]) && Tidy(text)
    requires ArrayComplete(Outside, 0, false, source, n) == Ok(false)
    ensures Visible(source + "\n" + text) || ArrayComplete(Outside, 0, false, source + "\n" + text, n) == Ok(false)
  {
    hide ArrayComplete, IsWhite;
    CompleteOutside(Outside, 0, false, source, n);
    var t := source + "\n" + text;
    if text == "" {
      assert t == source + "\n";
    } else {
      assert t[0] == source[0] && t[|t| - 1] == text[|text| - 1];
    }
  }

  // ------------------------------------------------------------------ statements

  lemma AssignmentWritten(t: string, key: string, first: string, n: nat) returns (a: string, b: string)
    requires Visible(t) && Assignment(t, n) == Ok((key, first))
    ensures Blank(a) && Blank(b) && t == key + a + "=" + (b + first) && Visible(first)
    ensures key != "" && AllBare(key)
  {
    hide FirstOutside, Trim, IsWhite, AllBare;
    var at := FirstOutside(Outside, t, '=').value;
    var left, right := t[..at], t[at + 1..];
    assert left != "" by { if left == "" { TrimmedAway(); } }
    assert right != "" by { if right == "" { TrimmedAway(); } }
    assert left[0] == t[0] && right[|right| - 1] == t[|t| - 1];
    a := TrimFront(left);
    b := TrimBack(right);
    assert t == left + "=" + right;
  }

  lemma TrimmedAway()
    ensures Trim("") == ""
  {
  }

  lemma AssignWritten(lines: seq<string>, k: nat, row: Row, key: string, v: Value, next: nat) returns (rows: seq<Row>)
    requires k < |lines| && (forall i | 0 <= i < |lines| :: '\n' !in lines[i])
    requires RowOk(row) && row.text != "" && RowLine(row) == lines[k]
    requires ReadAssignment(lines, k, row.text) == Ok((Some(Assign(key, v)), next))
    ensures next == k + |rows| && rows != [] && RowLines(rows) == lines[k..next]
    ensures (forall i | 0 <= i < |rows| :: RowOk(rows[i])) && WritesAssign(rows, key, v, "")
  {
    hide Assignment, Gather, ParseValue, WritesValue, TrimStart, RowLine, BreaksOutside, IsWhite, Blank;
    var n := k + 1;
    var first := Assignment(row.text, n).value.1;
    var a, b := AssignmentWritten(row.text, key, first, n);
    RowHasNoBreak(row);
    FirstHasNoBreak(row.text, key + a + "=" + b, first);
    StartsItself(first);
    var rest := [];
    if StartsWith(TrimStart(first), "[") {
      rest := GatherWritten(lines, k, first, n);
      assert first[..1][0] == "["[0];
    } else {
      assert first[..1] == [first[0]];
    }
    rows := [row] + rest;
    assert rows[1..] == rest;
    assert lines[k..k + 1 + |rest|] == [lines[k]] + lines[k + 1..k + 1 + |rest|];
    var t := Joined(first, rest);
    JoinedStarts(first, rest);
    assert t[0] == t[..|first|][0];
    ValueWritten(t, v, n);
  }

  lemma FirstHasNoBreak(t: string, before: string, first: string)
    requires '\n' !in t && t == before + first
    ensures BreaksOutside(first)
  {
    assert forall i | 0 <= i < |first| :: t[|before| + i] == first[i];
  }

  lemma StartsItself(s: string)
    requires Visible(s)
    ensures TrimStart(s) == s
  {
  }

  /** Every accepted line, and the lines it goes on over, are written. */
  lemma StatementWritten(lines: seq<string>, k: nat) returns (p: Piece)
    requires k < |lines| && (forall i | 0 <= i < |lines| :: '\n' !in lines[i]) && ReadStatement(lines, k).Ok?
    ensures
      var (s, next) := ReadStatement(lines, k).value;
      p.statement == s && WritesPiece(p, "") && next == k + |p.rows| && RowLines(p.rows) == lines[k..next]
  {
    hide StripComment, Trim, TableHeader, ReadAssignment, RowLine, WritesHeader, WritesAssign, RowOk;
    var row := RowOfLine(lines[k], k + 1);
    var (s, next) := ReadStatement(lines, k).value;
    assert lines[k..k + 1] == [lines[k]];
    if row.text == "" {
      p := Piece(None, [row]);
    } else if row.text[0] == '[' {
      HeaderWritten(row.text, s.value.path, s.value.isArray, k + 1);
      p := Piece(s, [row]);
    } else {
      AssignmentAnswers(lines, k, row.text);
      var rows := AssignWritten(lines, k, row, s.value.key, s.value.value, next);
      p := Piece(s, rows);
    }
  }

  lemma AssignmentAnswers(lines: seq<string>, k: nat, t: string)
    requires k < |lines| && ReadAssignment(lines, k, t).Ok?
    ensures ReadAssignment(lines, k, t).value.0.Some? && ReadAssignment(lines, k, t).value.0.value.Assign?
  {
    hide Assignment, Gather, ParseValue, TrimStart;
  }

  lemma {:induction false} LinesWritten(lines: seq<string>, k: nat, r: Reading) returns (ps: seq<Piece>)
    requires k <= |lines| && (forall i | 0 <= i < |lines| :: '\n' !in lines[i]) && ReadFrom(lines, k, r).Ok?
    ensures (forall i | 0 <= i < |ps| :: WritesPiece(ps[i], "")) && PieceLines(ps) == lines[k..]
    ensures Build(ps, k + 1, r) == ReadFrom(lines, k, r)
    decreases |lines| - k
  {
    hide ReadStatement, Perform, WritesPiece, RowLine;
    if k == |lines| {
      ps := [];
    } else {
      var p := StatementWritten(lines, k);
      var (s, next) := ReadStatement(lines, k).value;
      var after := if s.None? then Ok(r) else Perform(r, s.value, k + 1);
      var rest := LinesWritten(lines, next, after.value);
      ps := [p] + rest;
      assert ps[1..] == rest;
      assert lines[k..] == lines[k..next] + lines[next..];
    }
  }

  // ------------------------------------------------------------------ texts

  lemma {:induction false} FirstBreak(text: string) returns (p: nat)
    requires '\n' in text
    ensures p < |text| && text[p] == '\n' && '\n' !in text[..p]
  {
    if text[0] == '\n' {
      p := 0;
    } else {
      assert text == [text[0]] + text[1..];
      var q := FirstBreak(text[1..]);
      p := q + 1;
      assert text[..p] == [text[0]] + text[1..][..q];
    }
  }

  lemma EndedCons(line: string, end: string, lines: seq<string>, ends: seq<string>)
    requires Ended(lines, ends) && '\n' !in line && (end == "\r\n" || (end == "\n" && DropReturn(line) == line))
    ensures Ended([line] + lines, [end] + ends)
    ensures TextOf([line] + lines, [end] + ends) == line + end + TextOf(lines, ends)
  {
    hide DropReturn;
    assert ([line] + lines)[1..] == lines && ([end] + ends)[1..] == ends;
  }

  /** Every text is made of its lines and what ends them. */
  lemma {:induction false} TextFalls(text: string) returns (ends: seq<string>)
    ensures Ended(Lines(text), ends) && TextOf(Lines(text), ends) == text
    decreases |text|
  {
    hide Lines, DropReturn, Ended, TextOf;
    if text == "" {
      NoLines();
      ends := [];
      NothingEnds();
    } else if '\n' !in text {
      LastLine(text);
      ends := [""];
      LastEnds(text);
    } else {
      var p := FirstBreak(text);
      var line, rest := text[..p], text[p + 1..];
      assert text == line + ("\n" + rest);
      LinesCons(line, rest);
      var more := TextFalls(rest);
      var end := ReturnDropped(line);
      ends := [end] + more;
      EndedCons(DropReturn(line), end, Lines(rest), more);
      assert DropReturn(line) + end + rest == text;
    }
  }

  lemma NothingEnds()
    ensures Ended([], []) && TextOf([], []) == ""
  {
  }

  lemma LastEnds(line: string)
    requires '\n' !in line && line != ""
    ensures Ended([line], [""]) && TextOf([line], [""]) == line
  {
    assert [line][1..] == [] && [""][1..] == [];
    assert line + "" + "" == line;
  }

  lemma ReturnDropped(line: string) returns (end: string)
    requires '\n' !in line
    ensures DropReturn(line) + end == line + "\n" && '\n' !in DropReturn(line)
    ensures end == "\r\n" || (end == "\n" && DropReturn(DropReturn(line)) == DropReturn(line))
  {
    if line != "" && line[|line| - 1] == '\r' {
      end := "\r\n";
      assert line == line[..|line| - 1] + "\r";
      assert line[..|line| - 1] + "\r\n" == line + "\n";
    } else {
      end := "\n";
    }
  }

  /** Every accepted text is written by the grammar, and read as what it writes. */
  lemma AcceptedIsWritten(text: string) returns (ps: seq<Piece>, ends: seq<string>)
    requires ParseRestrictedToml(text).Ok?
    ensures (forall i | 0 <= i < |ps| :: WritesPiece(ps[i], "")) && Ended(PieceLines(ps), ends)
    ensures TextOf(PieceLines(ps), ends) == text
    ensures Build(ps, 1, Reading(Empty, RootSection)) == ParseRestrictedToml(text)
  {
    hide ReadFrom, Build, WritesPiece, PieceLines, Lines, TextOf;
    var lines := Lines(text);
    ends := TextFalls(text);
    ps := LinesWritten(lines, 0, Reading(Empty, RootSection));
    assert lines[0..] == lines;
  }

  // ------------------------------------------------------------------ quotes without a backslash

  lemma {:induction false} PlainWrites(s: string)
    requires '\\' !in s
    ensures Writes(s, s, "")
  {
    if s != "" {
      PlainWrites(s[1..]);
      assert s[..1] == [s[0]] && WritesChar(s[..1], s[0], "");
    }
  }

  /** Between the first and the last quote, further quotes are taken as they stand. */
  lemma BareQuotesAccepted(s: string, n: nat)
    requires '\\' !in s
    ensures BasicString("\"" + s + "\"", n) == Ok(s)
  {
    hide Writes, BasicString;
    PlainWrites(s);
    var w := "\"" + s + "\"";
    assert w[1..|w| - 1] == s;
    BasicStringExactly(w, s, n);
  }
}
