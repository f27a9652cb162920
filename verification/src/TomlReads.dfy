/**
 Reading back what is written. However a restricted text is laid out (strings escaped this way or that, bare or
 quoted segments, blanks, comments, arrays over several lines, either kind of line end), reading it performs
 exactly the statements it stands for.
 */
module TomlReads {
  import opened Prelude
  import J = JsonPointer
  import opened Toml
  import opened TomlGrammar

  // ------------------------------------------------------------------ strings come back

  lemma DigitExactly(c: char, d: nat)
    ensures HexDigit(c) == Some(d) <==> d < 16 && (c == LOWER[d] || c == UPPER[d])
  {
    if d < 16 {
      DigitOf(d);
      assert c == LOWER[d] ==> HexDigit(c) == Some(d);
      assert c == UPPER[d] ==> HexDigit(c) == Some(d);
    }
  }

  lemma DigitOf(d: nat)
    requires d < 16
    ensures LOWER[d] == if d < 10 then '0' + d as char else 'a' + (d - 10) as char
    ensures UPPER[d] == if d < 10 then '0' + d as char else 'A' + (d - 10) as char
  {
  }

  lemma {:induction false} HexExactly(t: string, v: nat)
    ensures HexValue(t) == Some(v) <==> Hex(t, v)
  {
    hide HexDigit;
    if t != "" {
      HexExactly(t[..|t| - 1], v / 16);
      DigitExactly(t[|t| - 1], v % 16);
      var front, last := HexValue(t[..|t| - 1]), HexDigit(t[|t| - 1]);
      if front.Some? && last.Some? {
        DigitExactly(t[|t| - 1], last.value);
        Base16(front.value, last.value, v);
      }
    }
  }

  lemma Base16(front: nat, last: nat, v: nat)
    requires last < 16
    ensures front * 16 + last == v <==> front == v / 16 && last == v % 16
  {
  }

  /** Reading one character takes exactly a text that stands for it. */
  lemma CharExactly(s: string, c: char, k: nat, n: nat)
    requires s != ""
    ensures ReadChar(s, n) == Ok((c, k)) <==> 0 < k <= |s| && WritesChar(s[..k], c, "")
  {
    hide HexValue, Hex;
    if s[0] == '\\' && |s| > 1 {
      var width := EscapeWidth(s[1]);
      if width > 0 && 2 + width <= |s| {
        HexExactly(s[2..][..width], c as int);
        assert s[2..][..width] == s[..2 + width][2..];
      }
    }
  }

  lemma {:induction false} UnescapeExactly(w: string, s: string, n: nat)
    ensures Unescape(w, n) == Ok(s) <==> Writes(w, s, "")
    decreases |w|
  {
    hide ReadChar, WritesChar;
    if w != "" {
      var first := ReadChar(w, n);
      if first.Ok? {
        var (c, k) := first.value;
        CharExactly(w, c, k, n);
        if s != "" { UnescapeExactly(w[k..], s[1..], n); }
      }
      forall k | s != "" && 0 < k <= |w| ensures WritesChar(w[..k], s[0], "") <==> first == Ok((s[0], k)) {
        CharExactly(w, s[0], k, n);
      }
      if Writes(w, s, "") && s != "" {
        var k :| 0 < k <= |w| && WritesChar(w[..k], s[0], "") && Writes(w[k..], s[1..], "");
        assert s == [s[0]] + s[1..];
      }
    }
  }

  /** What may stand unescaped matters only for the characters that do. */
  lemma {:induction false} Rebarred(w: string, s: string, barred: string, other: string)
    requires Writes(w, s, barred) && forall c | c in other :: c in barred || c !in w
    ensures Writes(w, s, other)
    decreases |s|
  {
    hide Hex;
    if s != "" {
      var k :| 0 < k <= |w| && WritesChar(w[..k], s[0], barred) && Writes(w[k..], s[1..], barred);
      Rebarred(w[k..], s[1..], barred, other);
      assert w[..k] == [s[0]] ==> w[0] == s[0];
      assert WritesChar(w[..k], s[0], other);
    }
  }

  /** A basic string is accepted exactly if its inside stands for some text. Quotes need no escape to be accepted. */
  lemma BasicStringExactly(w: string, s: string, n: nat)
    ensures BasicString(w, n) == Ok(s) <==> Quoted(w, s, "")
  {
    hide Unescape, Writes;
    if |w| >= 2 { UnescapeExactly(w[1..|w| - 1], s, n); }
  }

  lemma QuotedReads(w: string, s: string, barred: string, n: nat)
    requires Quoted(w, s, barred)
    ensures BasicString(w, n) == Ok(s)
  {
    hide BasicString, Writes;
    Rebarred(w[1..|w| - 1], s, barred, "");
    BasicStringExactly(w, s, n);
  }

  // ------------------------------------------------------------------ scanning concatenations

  lemma {:induction false} AfterAppend(q: Quote, a: string, b: string)
    ensures After(q, a + b) == After(After(q, a), b)
    decreases |a|
  {
    if a == "" {
      assert a + b == b;
    } else {
      assert (a + b)[1..] == a[1..] + b;
      AfterAppend(Next(q, a[0]), a[1..], b);
    }
  }

  lemma {:induction false} FirstAppend(q: Quote, a: string, b: string, c: char)
    requires FirstOutside(q, a, c).None?
    ensures FirstOutside(q, a + b, c) == Shift(|a|, FirstOutside(After(q, a), b, c))
    decreases |a|
  {
    hide FirstOutside, After, Next;
    if a == "" {
      assert a + b == b;
      AfterNothing(q, a);
    } else {
      assert (a + b)[1..] == a[1..] + b && (a + b)[0] == a[0];
      FirstStep(q, a, c);
      FirstStep(q, a + b, c);
      FirstAppend(Next(q, a[0]), a[1..], b, c);
    }
  }

  lemma AfterNothing(q: Quote, s: string)
    requires s == ""
    ensures After(q, s) == q
  {
  }

  lemma FirstStep(q: Quote, s: string, c: char)
    requires s != ""
    ensures After(q, s) == After(Next(q, s[0]), s[1..])
    ensures FirstOutside(q, s, c) == if q == Outside && s[0] == c then Some(0)
      else Shift(1, FirstOutside(Next(q, s[0]), s[1..], c))
  {
  }

  lemma {:induction false} SplitAppend(q: Quote, a: string, b: string)
    requires FirstOutside(q, a, '.').None?
    ensures
      var parts := SplitDots(After(q, a), b);
      SplitDots(q, a + b) == [a + parts[0]] + parts[1..]
    decreases |a|
  {
    var parts := SplitDots(After(q, a), b);
    if a == "" {
      assert a + b == b && a + parts[0] == parts[0];
    } else {
      assert (a + b)[1..] == a[1..] + b;
      SplitAppend(Next(q, a[0]), a[1..], b);
      assert a + parts[0] == [a[0]] + (a[1..] + parts[0]);
    }
  }

  lemma {:induction false} CompleteAppend(q: Quote, depth: nat, seen: bool, a: string, b: string, n: nat)
    requires FirstOutside(q, a, '[').None? && FirstOutside(q, a, ']').None?
    ensures ArrayComplete(q, depth, seen, a + b, n) == ArrayComplete(After(q, a), depth, seen, b, n)
    decreases |a|
  {
    if a == "" {
      assert a + b == b;
    } else {
      assert (a + b)[1..] == a[1..] + b;
      CompleteAppend(Next(q, a[0]), depth, seen, a[1..], b, n);
    }
  }

  /** A piece of text that leaves a scan outside strings and shows it no `c`. */
  ghost predicate Sealed(t: string, c: char) {
    After(Outside, t) == Outside && FirstOutside(Outside, t, c).None?
  }

  lemma SealedAppend(a: string, b: string, c: char)
    requires Sealed(a, c) && Sealed(b, c)
    ensures Sealed(a + b, c)
  {
    AfterAppend(Outside, a, b);
    FirstAppend(Outside, a, b, c);
  }

  lemma {:induction false} PlainSealed(p: string, c: char)
    requires '"' !in p && c !in p
    ensures Sealed(p, c)
  {
    if p != "" { PlainSealed(p[1..], c); }
  }

  lemma {:induction false} HexPlain(t: string, v: nat)
    requires Hex(t, v)
    ensures forall i | 0 <= i < |t| :: t[i] != '"' && t[i] != '\\' && t[i] != '\n'
  {
    if t != "" {
      HexPlain(t[..|t| - 1], v / 16);
      DigitOf(v % 16);
      assert t[|t| - 1] != '"' && t[|t| - 1] != '\\' && t[|t| - 1] != '\n';
    }
  }

  lemma OneInside(c: char, t: string, d: char)
    requires c != '"' && c != '\\'
    ensures After(Inside, [c] + t) == After(Inside, t)
    ensures FirstOutside(Inside, [c] + t, d) == Shift(1, FirstOutside(Inside, t, d))
    ensures EndOfString(Inside, [c] + t) == Shift(1, EndOfString(Inside, t))
  {
    assert ([c] + t)[1..] == t;
  }

  lemma PairInside(e: char, t: string, d: char)
    ensures After(Inside, ['\\', e] + t) == After(Inside, t)
    ensures FirstOutside(Inside, ['\\', e] + t, d) == Shift(2, FirstOutside(Inside, t, d))
    ensures EndOfString(Inside, ['\\', e] + t) == Shift(2, EndOfString(Inside, t))
  {
    var s := ['\\', e] + t;
    var s1 := [e] + t;
    assert s[1..] == s1 && s1[1..] == t;
    assert After(Inside, s) == After(Escaped, s1) == After(Inside, t);
    assert FirstOutside(Escaped, s1, d) == Shift(1, FirstOutside(Inside, t, d));
    assert EndOfString(Escaped, s1) == Shift(1, EndOfString(Inside, t));
  }

  lemma {:induction false} PlainInside(p: string, t: string, d: char)
    requires forall i | 0 <= i < |p| :: p[i] != '"' && p[i] != '\\'
    ensures After(Inside, p + t) == After(Inside, t)
    ensures FirstOutside(Inside, p + t, d) == Shift(|p|, FirstOutside(Inside, t, d))
    ensures EndOfString(Inside, p + t) == Shift(|p|, EndOfString(Inside, t))
    decreases |p|
  {
    hide After, FirstOutside, EndOfString;
    if p == "" {
      assert p + t == t;
    } else {
      assert p + t == [p[0]] + (p[1..] + t);
      OneInside(p[0], p[1..] + t, d);
      PlainInside(p[1..], t, d);
    }
  }

  lemma CharInside(w: string, c: char, barred: string, t: string, d: char)
    requires WritesChar(w, c, barred) && '"' in barred
    ensures After(Inside, w + t) == After(Inside, t)
    ensures FirstOutside(Inside, w + t, d) == Shift(|w|, FirstOutside(Inside, t, d))
    ensures EndOfString(Inside, w + t) == Shift(|w|, EndOfString(Inside, t))
    ensures '\n' in barred ==> '\n' !in w
  {
    hide After, FirstOutside, EndOfString, Hex;
    if |w| == 1 {
      OneInside(c, t, d);
    } else {
      var p := w[2..];
      assert w + t == ['\\', w[1]] + (p + t);
      PairInside(w[1], p + t, d);
      if |w| > 2 { HexPlain(p, c as int); }
      PlainInside(p, t, d);
      assert forall i | 2 <= i < |w| :: w[i] == p[i - 2];
    }
  }

  /** A written string hides everything in it from the scanners. */
  lemma {:induction false} CharsInside(w: string, s: string, barred: string, t: string, d: char)
    requires Writes(w, s, barred) && '"' in barred
    ensures After(Inside, w + t) == After(Inside, t)
    ensures FirstOutside(Inside, w + t, d) == Shift(|w|, FirstOutside(Inside, t, d))
    ensures EndOfString(Inside, w + t) == Shift(|w|, EndOfString(Inside, t))
    ensures '\n' in barred ==> '\n' !in w
    decreases |s|
  {
    hide WritesChar, After, FirstOutside, EndOfString;
    if s == "" {
      assert w + t == t;
    } else {
      var k :| 0 < k <= |w| && WritesChar(w[..k], s[0], barred) && Writes(w[k..], s[1..], barred);
      assert w + t == w[..k] + (w[k..] + t) && w == w[..k] + w[k..];
      CharInside(w[..k], s[0], barred, w[k..] + t, d);
      CharsInside(w[k..], s[1..], barred, t, d);
    }
  }

  lemma QuotedSealed(w: string, s: string, barred: string, c: char)
    requires Quoted(w, s, barred) && '"' in barred && c != '"'
    ensures Sealed(w, c)
    ensures '\n' in barred ==> '\n' !in w
  {
    hide Writes;
    var body := w[1..|w| - 1];
    assert w[1..] == body + "\"" && w == "\"" + body + "\"";
    CharsInside(body, s, barred, "\"", c);
    assert "\""[1..] == "";
  }

  lemma QuotedEnds(w: string, s: string, barred: string, t: string)
    requires Quoted(w, s, barred) && '"' in barred
    ensures StringEnd(w + t) == Some(|w| - 1)
  {
    hide Writes;
    var body := w[1..|w| - 1];
    assert (w + t)[1..] == body + ("\"" + t);
    CharsInside(body, s, barred, "\"" + t, '.');
  }

  // ------------------------------------------------------------------ trimming

  lemma {:induction false} TrimStartBlank(a: string, s: string)
    requires Blank(a) && (s == "" || !IsWhite(s[0]))
    ensures TrimStart(a + s) == s
    decreases |a|
  {
    hide IsWhite;
    if a == "" {
      assert a + s == s;
    } else {
      assert (a + s)[1..] == a[1..] + s;
      TrimStartBlank(a[1..], s);
    }
  }

  lemma {:induction false} TrimEndBlank(s: string, b: string)
    requires Blank(b) && (s == "" || !IsWhite(s[|s| - 1]))
    ensures TrimEnd(s + b) == s
    decreases |b|
  {
    hide IsWhite;
    if b == "" {
      assert s + b == s;
    } else {
      assert (s + b)[..|s + b| - 1] == s + b[..|b| - 1];
      TrimEndBlank(s, b[..|b| - 1]);
    }
  }

  /** Trimming takes off the blanks on both sides and nothing else. */
  lemma TrimPadded(a: string, s: string, b: string)
    requires Blank(a) && Blank(b) && Tidy(s)
    ensures Trim(a + s + b) == s
  {
    hide IsWhite, TrimStart, TrimEnd;
    if s == "" {
      TrimStartBlank(a + b, "");
      assert a + s + b == (a + b) + "";
      TrimEndBlank("", "");
    } else {
      TrimStartBlank(a, s + b);
      assert a + s + b == a + (s + b);
      TrimEndBlank(s, b);
    }
  }

  lemma TrimAround(t: string, w: string)
    requires Around(t, w) && Tidy(w)
    ensures Trim(t) == w
  {
    hide Trim, Tidy;
    var a, b :| Blank(a) && Blank(b) && t == a + w + b;
    TrimPadded(a, w, b);
  }

  lemma BlankPlain(b: string, c: char)
    requires Blank(b) && !IsWhite(c) && c != '"'
    ensures Sealed(b, c)
  {
    hide Sealed;
    PlainSealed(b, c);
  }

  lemma PaddedSealed(a: string, s: string, b: string, c: char)
    requires Blank(a) && Blank(b) && Sealed(s, c) && !IsWhite(c) && c != '"'
    ensures Sealed(a + s + b, c)
  {
    hide Sealed, Blank;
    BlankPlain(a, c);
    BlankPlain(b, c);
    SealedAppend(a, s, c);
    SealedAppend(a + s, b, c);
  }

  // ------------------------------------------------------------------ headers come back

  /** The text between the blanks around a segment. */
  ghost predicate SegmentCore(w: string, s: string, barred: string) {
    s != "" && ((w == s && AllBare(w)) || Quoted(w, s, barred))
  }

  lemma CoreReads(w: string, s: string, barred: string, n: nat)
    requires SegmentCore(w, s, barred)
    ensures Segment(w, n) == Ok(s) && Visible(w) && (w[0] == '"' || IsBare(w[0]))
  {
    hide BasicString, Writes;
    if w == s && AllBare(w) {
      assert IsBare(w[0]) && IsBare(w[|w| - 1]);
    } else {
      QuotedReads(w, s, barred, n);
    }
  }

  lemma CoreSealed(w: string, s: string, barred: string, c: char)
    requires SegmentCore(w, s, barred) && '"' in barred && c != '"' && !IsBare(c)
    ensures Sealed(w, c)
  {
    hide Sealed, Writes;
    if w == s && AllBare(w) {
      assert forall i | 0 <= i < |w| :: IsBare(w[i]);
      PlainSealed(w, c);
    } else {
      QuotedSealed(w, s, barred, c);
    }
  }

  lemma SegmentReads(t: string, s: string, barred: string, n: nat)
    requires WritesSegment(t, s, barred)
    ensures Segment(Trim(t), n) == Ok(s)
  {
    hide Segment, Trim, Around, Quoted;
    var w :| Around(t, w) && ((w == s && AllBare(w)) || Quoted(w, s, barred));
    CoreReads(w, s, barred, n);
    TrimAround(t, w);
  }

  lemma SegmentSealed(t: string, s: string, barred: string, c: char)
    requires WritesSegment(t, s, barred) && '"' in barred && c != '"' && !IsBare(c) && !IsWhite(c)
    ensures Sealed(t, c)
  {
    hide Sealed, Quoted, IsWhite;
    var w :| Around(t, w) && ((w == s && AllBare(w)) || Quoted(w, s, barred));
    CoreSealed(w, s, barred, c);
    var a, b :| Blank(a) && Blank(b) && t == a + w + b;
    PaddedSealed(a, w, b, c);
  }

  lemma SegmentStarts(t: string, s: string, barred: string)
    requires WritesSegment(t, s, barred)
    ensures t != "" && (IsWhite(t[0]) || t[0] == '"' || IsBare(t[0]))
  {
    hide Quoted, IsWhite;
    var w :| Around(t, w) && ((w == s && AllBare(w)) || Quoted(w, s, barred));
    CoreReads(w, s, barred, 0);
    var a, b :| Blank(a) && Blank(b) && t == a + w + b;
    assert t[0] == if a != "" then a[0] else w[0];
  }

  lemma {:induction false} PathScans(t: string, path: Segments, barred: string)
    requires WritesPath(t, path, barred) && '"' in barred
    ensures Sealed(t, '#') && t != "" && (IsWhite(t[0]) || t[0] == '"' || IsBare(t[0]))
    decreases |path|
  {
    hide WritesSegment, Sealed, IsWhite;
    NotBlank();
    if |path| == 1 {
      SegmentSealed(t, path[0], barred, '#');
      SegmentStarts(t, path[0], barred);
    } else {
      var k :| 0 <= k < |t| && t[k] == '.' && WritesSegment(t[..k], path[0], barred) &&
        WritesPath(t[k + 1..], path[1..], barred);
      SegmentSealed(t[..k], path[0], barred, '#');
      SegmentStarts(t[..k], path[0], barred);
      PathScans(t[k + 1..], path[1..], barred);
      PlainSealed(".", '#');
      SealedAppend(t[..k], ".", '#');
      SealedAppend(t[..k] + ".", t[k + 1..], '#');
      assert t == t[..k] + "." + t[k + 1..];
    }
  }

  lemma NotBlank()
    ensures !IsWhite('#') && !IsWhite('.') && !IsWhite('[') && !IsWhite(']') && !IsWhite('=')
  {
  }

  lemma SegmentsCons(raw: string, rest: seq<string>, segment: string, path: Segments, n: nat)
    requires Segment(Trim(raw), n) == Ok(segment) && AllSegments(rest, n) == Ok(path)
    ensures AllSegments([raw] + rest, n) == Ok([segment] + path)
  {
    hide Segment, Trim;
    assert ([raw] + rest)[1..] == rest;
  }

  lemma LastSegmentSplits(t: string)
    requires Sealed(t, '.')
    ensures SplitDots(Outside, t) == [t]
  {
    SplitAppend(Outside, t, "");
    assert t + "" == t;
  }

  lemma SegmentSplits(t: string, rest: string)
    requires Sealed(t, '.')
    ensures SplitDots(Outside, t + "." + rest) == [t] + SplitDots(Outside, rest)
  {
    SplitAppend(Outside, t, "." + rest);
    assert t + "." + rest == t + ("." + rest);
    assert ("." + rest)[1..] == rest && t + "" == t;
  }

  lemma {:induction false} PathSplits(t: string, path: Segments, barred: string, n: nat)
    requires WritesPath(t, path, barred) && '"' in barred
    ensures AllSegments(SplitDots(Outside, t), n) == Ok(path)
    decreases |path|
  {
    hide WritesSegment, SplitDots, AllSegments, Segment, Trim, Sealed, IsWhite;
    NotBlank();
    if |path| == 1 {
      SegmentReads(t, path[0], barred, n);
      SegmentSealed(t, path[0], barred, '.');
      LastSegmentSplits(t);
      NoSegmentsLeft(n);
      SegmentsCons(t, [], path[0], [], n);
      assert [t] + [] == [t] && path == [path[0]] + [];
    } else {
      var k :| 0 <= k < |t| && t[k] == '.' && WritesSegment(t[..k], path[0], barred) &&
        WritesPath(t[k + 1..], path[1..], barred);
      var first, rest := t[..k], t[k + 1..];
      SegmentReads(first, path[0], barred, n);
      SegmentSealed(first, path[0], barred, '.');
      SegmentSplits(first, rest);
      PathSplits(rest, path[1..], barred, n);
      SegmentsCons(first, SplitDots(Outside, rest), path[0], path[1..], n);
      assert path == [path[0]] + path[1..] && t == first + "." + rest;
    }
  }

  lemma NoSegmentsLeft(n: nat)
    ensures AllSegments([], n) == Ok([])
  {
  }

  /** What stands between the brackets of a header. */
  ghost predicate Inner(inner: string, core: string, path: Segments, barred: string) {
    Around(inner, core) && Visible(core) && WritesPath(core, path, barred)
  }

  lemma InnerScans(inner: string, core: string, path: Segments, barred: string)
    requires Inner(inner, core, path, barred) && '"' in barred
    ensures Sealed(inner, '#') && inner != "" && inner[0] != '['
  {
    hide Sealed, WritesPath, IsWhite;
    NotBlank();
    PathScans(core, path, barred);
    var a, b :| Blank(a) && Blank(b) && inner == a + core + b;
    PaddedSealed(a, core, b, '#');
    assert inner[0] == if a != "" then a[0] else core[0];
    assert !IsBare('[');
  }

  /** A written header gives back its path and kind. */
  lemma HeaderReads(t: string, path: Segments, isArray: bool, barred: string, n: nat)
    requires WritesHeader(t, path, isArray, barred) && '"' in barred
    ensures TableHeader(t, n) == Ok((path, isArray))
    ensures Sealed(t, '#') && Visible(t) && t[0] == '['
  {
    hide AllSegments, SplitDots, Trim, WritesPath, Sealed, Around, IsWhite;
    NotBlank();
    var inner, core :| t == Bracketed(inner, isArray) && Around(inner, core) && Visible(core) &&
      WritesPath(core, path, barred);
    InnerScans(inner, core, path, barred);
    TrimAround(inner, core);
    PathScans(core, path, barred);
    PathSplits(core, path, barred, n);
    SealedOutside(core);
    var open, close := if isArray then "[[" else "[", if isArray then "]]" else "]";
    PlainSealed(open, '#');
    PlainSealed(close, '#');
    SealedAppend(open, inner, '#');
    SealedAppend(open + inner, close, '#');
    if isArray {
      assert t[..2] == "[[" && t[|t| - 2..] == "]]" && t[2..|t| - 2] == inner;
    } else {
      assert t[1] == inner[0];
      assert t[|t| - 1..] == "]" && t[1..|t| - 1] == inner;
      assert t[..2][1] == t[1] && "[["[1] == '[';
    }
  }

  lemma SealedOutside(t: string)
    requires Sealed(t, '#')
    ensures After(Outside, t) == Outside
  {
  }

  // ------------------------------------------------------------------ line breaks

  /** Scanned from outside strings, the text shows no `c`, and breaks its lines only outside strings. */
  ghost predicate Tame(t: string, c: char) {
    Sealed(t, c) && forall j | 0 <= j < |t| && t[j] == '\n' :: After(Outside, t[..j]) == Outside
  }

  lemma TameAppend(a: string, b: string, c: char)
    requires Tame(a, c) && Tame(b, c)
    ensures Tame(a + b, c)
  {
    hide FirstOutside, After;
    SealedAppend(a, b, c);
    forall j | 0 <= j < |a + b| && (a + b)[j] == '\n' ensures After(Outside, (a + b)[..j]) == Outside {
      if j < |a| {
        assert (a + b)[..j] == a[..j];
      } else {
        assert (a + b)[..j] == a + b[..j - |a|];
        AfterAppend(Outside, a, b[..j - |a|]);
      }
    }
  }

  lemma PlainTame(p: string, c: char)
    requires '"' !in p && c !in p
    ensures Tame(p, c)
  {
    hide FirstOutside, After;
    PlainSealed(p, c);
    forall j | 0 <= j < |p| && p[j] == '\n' ensures After(Outside, p[..j]) == Outside { PlainSealed(p[..j], c); }
  }

  lemma QuotedTame(w: string, s: string, c: char)
    requires Quoted(w, s, DELIMITERS) && c != '"'
    ensures Tame(w, c)
  {
    hide Quoted, Sealed;
    QuotedSealed(w, s, DELIMITERS, c);
  }

  /** The part of a text before another shows no `c` if the whole does not. */
  lemma {:induction false} PrefixClear(q: Quote, a: string, b: string, c: char)
    requires FirstOutside(q, a + b, c).None?
    ensures FirstOutside(q, a, c).None?
    decreases |a|
  {
    if a != "" {
      assert (a + b)[1..] == a[1..] + b;
      PrefixClear(Next(q, a[0]), a[1..], b, c);
    }
  }

  /** A stretch between two line breaks is scanned on its own. */
  lemma BetweenBreaks(a: string, b: string, rest: string, c: char)
    requires Tame(a + b + rest, c) && After(Outside, a) == Outside && (rest == "" || rest[0] == '\n')
    ensures Sealed(b, c)
  {
    hide FirstOutside, After;
    var t := a + b + rest;
    PrefixClear(Outside, a + b, rest, c);
    PrefixClear(Outside, a, b, c);
    FirstAppend(Outside, a, b, c);
    AfterAppend(Outside, a, b);
    assert After(Outside, a + b) == Outside by {
      if rest == "" {
        assert t == a + b;
      } else {
        assert t[|a + b|] == '\n' && t[..|a + b|] == a + b;
      }
    }
  }

  // ------------------------------------------------------------------ values come back

  /** Reading one item goes on after its comma. */
  lemma ItemReads(t: string, i: nat, j: nat, k: nat, s: string, barred: string, n: nat)
    requires ItemAt(t, i, j, k, s, barred) && '"' in barred && (k == |t| || t[k] == ',')
    ensures ArrayItems(t, n) ==
      if k == |t| || Trim(t[k + 1..]) == "" then Ok([s])
      else
        var items := ArrayItems(t[k + 1..], n);
        if items.Err? then items else Ok([s] + items.value)
  {
    hide Quoted, BasicString, StringEnd, Trim, IsWhite;
    var w, rest := t[i..j], t[j..];
    assert w[0] == '"' && |w| >= 2 by { QuotedStarts(w, s, barred); }
    assert t == t[..i] + t[i..] && t[i..] == w + rest && t[i..][0] == '"';
    NotWhite();
    TrimStartBlank(t[..i], t[i..]);
    QuotedEnds(w, s, barred, rest);
    QuotedReads(w, s, barred, n);
    assert t[i..][..|w|] == w && t[i..][|w|..] == rest;
    assert rest == t[j..k] + t[k..];
    TrimStartBlank(t[j..k], t[k..]);
    if k < |t| { assert t[k..][0] == ',' && t[k..][1..] == t[k + 1..]; }
  }

  lemma QuotedStarts(w: string, s: string, barred: string)
    requires Quoted(w, s, barred)
    ensures |w| >= 2 && w[0] == '"' && Visible(w)
  {
  }

  lemma NotWhite()
    ensures !IsWhite('"') && !IsWhite(',')
  {
  }

  lemma BlankItems(t: string, n: nat)
    requires Blank(t)
    ensures ArrayItems(t, n) == Ok([]) && Trim(t) == ""
  {
    hide IsWhite;
    TrimStartBlank(t, "");
    assert t + "" == t;
    TrimPadded(t, "", "");
    assert t + "" + "" == t;
  }

  lemma {:induction false} ItemsRead(t: string, items: seq<string>, barred: string, n: nat)
    requires WritesItems(t, items, barred) && '"' in barred
    ensures ArrayItems(t, n) == Ok(items)
    decreases |items|
  {
    hide ItemAt, ArrayItems, Trim, Blank;
    if items == [] {
      BlankItems(t, n);
    } else {
      var i: nat, j: nat, k: nat :| ItemAt(t, i, j, k, items[0], barred) &&
        ((k == |t| && |items| == 1) || (k < |t| && t[k] == ',' && WritesItems(t[k + 1..], items[1..], barred)));
      ItemReads(t, i, j, k, items[0], barred, n);
      assert items == [items[0]] + items[1..] && (items[1..] == [] ==> items == [items[0]]);
      if k < |t| {
        ItemsRead(t[k + 1..], items[1..], barred, n);
        if Trim(t[k + 1..]) == "" { NoItemsLeft(t[k + 1..], n); }
      }
    }
  }

  lemma NoItemsLeft(t: string, n: nat)
    requires Trim(t) == ""
    ensures ArrayItems(t, n) == Ok([])
  {
    hide IsWhite;
    AllTrimmed(TrimStart(t));
  }

  lemma {:induction false} AllTrimmed(t: string)
    requires TrimEnd(t) == ""
    ensures Blank(t)
  {
    hide IsWhite;
    if t != "" { AllTrimmed(t[..|t| - 1]); }
  }

  lemma ItemTame(t: string, i: nat, j: nat, k: nat, s: string, c: char)
    requires ItemAt(t, i, j, k, s, DELIMITERS) && !IsWhite(c) && c != '"'
    ensures Tame(t[..k], c)
  {
    hide Tame, Quoted, IsWhite;
    NotWhite();
    PlainTame(t[..i], c);
    QuotedTame(t[i..j], s, c);
    PlainTame(t[j..k], c);
    TameAppend(t[..i], t[i..j], c);
    TameAppend(t[..i] + t[i..j], t[j..k], c);
    assert t[..k] == t[..i] + t[i..j] + t[j..k];
  }

  lemma {:induction false} ItemsTame(t: string, items: seq<string>, c: char)
    requires WritesItems(t, items, DELIMITERS) && !IsWhite(c) && c != '"' && c != ','
    ensures Tame(t, c)
    decreases |items|
  {
    hide Tame, ItemAt, IsWhite;
    NotWhite();
    if items == [] {
      PlainTame(t, c);
    } else {
      var i: nat, j: nat, k: nat :| ItemAt(t, i, j, k, items[0], DELIMITERS) &&
        ((k == |t| && |items| == 1) || (k < |t| && t[k] == ',' && WritesItems(t[k + 1..], items[1..], DELIMITERS)));
      ItemTame(t, i, j, k, items[0], c);
      if k == |t| {
        assert t == t[..k];
      } else {
        ItemsTame(t[k + 1..], items[1..], c);
        PlainTame(",", c);
        TameAppend(t[..k], ",", c);
        TameAppend(t[..k] + ",", t[k + 1..], c);
        assert t == t[..k] + "," + t[k + 1..];
      }
    }
  }

  lemma ArrayTame(t: string, items: seq<string>)
    requires WritesArray(t, items, DELIMITERS)
    ensures Tame(t, '#') && Tame(t[1..|t| - 1], '[') && Tame(t[1..|t| - 1], ']')
  {
    hide Tame, WritesItems, IsWhite;
    NotBlank();
    var inner := t[1..|t| - 1];
    ItemsTame(inner, items, '#');
    ItemsTame(inner, items, '[');
    ItemsTame(inner, items, ']');
    PlainTame("[", '#');
    PlainTame("]", '#');
    TameAppend("[", inner, '#');
    TameAppend("[" + inner, "]", '#');
    assert t == "[" + inner + "]";
  }

  /** The brackets of an array are closed at its end and not at a line break before. */
  lemma ArrayIsComplete(t: string, items: seq<string>, j: nat, n: nat)
    requires WritesArray(t, items, DELIMITERS) && j <= |t| && (j < |t| ==> t[j] == '\n')
    ensures ArrayComplete(Outside, 0, false, t[..j], n) == Ok(j == |t|)
  {
    hide WritesItems, FirstOutside, After;
    ArrayTame(t, items);
    var inner := t[1..|t| - 1];
    if j == |t| {
      assert t[..j] == t && t[1..] == inner + "]";
      CompleteAppend(Outside, 1, true, inner, "]", n);
      assert "]"[1..] == "";
    } else {
      assert 0 < j < |t| - 1 && inner[j - 1] == '\n';
      var part := inner[..j - 1];
      assert inner == part + inner[j - 1..];
      PrefixClear(Outside, part, inner[j - 1..], '[');
      PrefixClear(Outside, part, inner[j - 1..], ']');
      assert t[..j][1..] == part + "" && t[..j][0] == '[';
      CompleteAppend(Outside, 1, true, part, "", n);
    }
  }

  lemma {:induction false} DecimalExactly(t: string, n: nat)
    ensures Decimal(t, n) <==> J.AllDigits(t) && J.DecimalValue(t) == n
  {
    if t != "" {
      var front, last := t[..|t| - 1], t[|t| - 1];
      DecimalExactly(front, n / 10);
      DecimalDigit(n % 10);
      assert J.AllDigits(t) <==> J.AllDigits(front) && J.IsDigit(last);
      if J.AllDigits(t) { Base10(J.DecimalValue(front), last as int - '0' as int, n); }
    }
  }

  lemma DecimalDigit(d: nat)
    requires d < 10
    ensures "0123456789"[d] == '0' + d as char
  {
  }

  lemma Base10(front: nat, last: int, n: nat)
    requires 0 <= last < 10
    ensures front * 10 + last == n <==> front == n / 10 && last == n % 10
  {
  }

  /** A written value is read back the same. */
  lemma ValueReads(t: string, v: Value, barred: string, n: nat)
    requires WritesValue(t, v, barred) && '"' in barred
    ensures ParseValue(t, n) == Ok(v)
    ensures Visible(t) && (t[0] == '[' <==> v.Texts?)
  {
    hide Quoted, WritesItems, BasicString, ArrayItems, Trim;
    assert Visible(t) && (t[0] == '[' <==> v.Texts?) && (t[0] == '"' <==> v.Text?) by { ValueStarts(t, v, barred); }
    TrimPadded("", t, "");
    assert "" + t + "" == t;
    match v
    case Text(s) => QuotedReads(t, s, barred, n);
    case Integer(m) => DecimalExactly(t, m);
    case Texts(items) => ItemsRead(t[1..|t| - 1], items, DELIMITERS, n);
  }

  lemma ValueStarts(t: string, v: Value, barred: string)
    requires WritesValue(t, v, barred)
    ensures Visible(t) && (t[0] == '[' <==> v.Texts?) && (t[0] == '"' <==> v.Text?)
  {
    hide Writes, WritesItems;
    if v.Integer? {
      DecimalExactly(t, v.n);
      assert J.IsDigit(t[0]) && J.IsDigit(t[|t| - 1]);
    }
  }

  lemma ValueTame(t: string, v: Value)
    requires WritesValue(t, v, DELIMITERS)
    ensures Tame(t, '#')
  {
    hide Quoted, Tame, WritesItems;
    match v
    case Text(s) => QuotedTame(t, s, '#');
    case Integer(m) =>
      DecimalExactly(t, m);
      assert forall i | 0 <= i < |t| :: J.IsDigit(t[i]);
      PlainTame(t, '#');
    case Texts(items) => ArrayTame(t, items);
  }

  // ------------------------------------------------------------------ comments

  lemma HashFound(code: string, comment: string)
    requires Sealed(code, '#')
    ensures FirstOutside(Outside, code + ("#" + comment), '#') == Some(|code|)
  {
    FirstAppend(Outside, code, "#" + comment, '#');
  }

  /** Stripping a comment removes the comment and nothing else. */
  lemma CommentStrips(r: Row, n: nat)
    requires Sealed(Code(r), '#')
    ensures StripComment(RowLine(r), n) == Ok(Code(r))
  {
    hide FirstOutside, After, Code;
    if r.comment.Some? {
      HashFound(Code(r), r.comment.value);
      assert RowLine(r)[..|Code(r)|] == Code(r);
    }
  }

  /** What is left of a written line once its comment is stripped and the rest trimmed. */
  lemma RowReads(r: Row, n: nat)
    requires RowOk(r) && Sealed(r.text, '#')
    ensures StripComment(RowLine(r), n) == Ok(Code(r)) && Trim(Code(r)) == r.text
  {
    hide Sealed, StripComment, Trim, Blank, Tidy, IsWhite;
    NotBlank();
    PaddedSealed(r.left, r.text, r.right, '#');
    CommentStrips(r, n);
    TrimPadded(r.left, r.text, r.right);
  }

  // ------------------------------------------------------------------ arrays over several lines

  lemma {:induction false} JoinedStarts(first: string, rows: seq<Row>)
    ensures
      var t := Joined(first, rows);
      && |first| <= |t| && t[..|first|] == first
      && (rows == [] ==> t == first)
      && (rows != [] ==> |first| < |t| && t[|first|] == '\n')
    decreases |rows|
  {
    if rows != [] {
      var next := first + "\n" + rows[0].text;
      JoinedStarts(next, rows[1..]);
      var t := Joined(first, rows);
      assert t[..|first|] == t[..|next|][..|first|] == first;
      assert t[|first|] == t[..|next|][|first|];
    }
  }

  /** The rest of an array is gathered from the lines it is written on. */
  lemma {:induction false} GatherReads(lines: seq<string>, k: nat, source: string, rows: seq<Row>, items: seq<string>,
                                       n: nat)
    requires k + |rows| < |lines| && lines[k + 1..k + 1 + |rows|] == RowLines(rows)
    requires forall i | 0 <= i < |rows| :: RowOk(rows[i])
    requires WritesArray(Joined(source, rows), items, DELIMITERS)
    ensures Gather(lines, k, source, n) == Ok((Joined(source, rows), k + |rows|))
    decreases |rows|
  {
    hide WritesArray, ArrayComplete, StripComment, Trim, RowOk, RowLine, Code;
    var t := Joined(source, rows);
    JoinedStarts(source, rows);
    ArrayIsComplete(t, items, |source|, n);
    if rows == [] {
      assert t[..|source|] == source;
    } else {
      var row, next := rows[0], source + "\n" + rows[0].text;
      assert lines[k + 1] == RowLines(rows)[0];
      GatheredSealed(source, rows, items);
      RowReads(row, k + 2);
      assert lines[k + 2..k + 2 + |rows[1..]|] == RowLines(rows[1..]) by {
        assert lines[k + 2..k + 1 + |rows|] == lines[k + 1..k + 1 + |rows|][1..];
        assert RowLines(rows)[1..] == RowLines(rows[1..]);
      }
      GatherReads(lines, k + 1, next, rows[1..], items, n);
    }
  }

  lemma GatheredSealed(source: string, rows: seq<Row>, items: seq<string>)
    requires rows != [] && WritesArray(Joined(source, rows), items, DELIMITERS)
    ensures Sealed(rows[0].text, '#')
  {
    hide WritesArray, FirstOutside, After;
    var t, a, text := Joined(source, rows), source + "\n", rows[0].text;
    ArrayTame(t, items);
    JoinedStarts(source, rows);
    JoinedStarts(a + text, rows[1..]);
    assert After(Outside, t[..|source|]) == Outside && t[..|source|] == source;
    AfterAppend(Outside, source, "\n");
    assert After(Outside, "\n") == Outside by { PlainSealed("\n", '#'); }
    assert t == a + text + t[|a + text|..];
    BetweenBreaks(a, text, t[|a + text|..], '#');
  }

  // ------------------------------------------------------------------ statements come back

  lemma BareKey(key: string)
    requires key != "" && AllBare(key)
    ensures Visible(key) && '"' !in key && '=' !in key && '#' !in key && key[0] != '['
  {
    assert IsBare(key[0]) && IsBare(key[|key| - 1]);
  }

  lemma AssignmentReads(key: string, a: string, b: string, first: string, n: nat)
    requires key != "" && AllBare(key) && Blank(a) && Blank(b) && Visible(first)
    ensures Assignment(key + a + "=" + (b + first), n) == Ok((key, first))
  {
    hide Trim, IsWhite, Sealed, AllBare;
    var text := key + a + "=" + (b + first);
    BareKey(key);
    TrimPadded("", key, a);
    TrimPadded(b, first, "");
    assert "" + key + a == key + a && b + first + "" == b + first;
    NotBlank();
    PlainSealed(key, '=');
    BlankPlain(a, '=');
    SealedAppend(key, a, '=');
    EqualsFound(key + a, b + first);
    assert text == key + a + ("=" + (b + first));
    assert text[..|key + a|] == key + a && text[|key + a| + 1..] == b + first;
  }

  lemma EqualsFound(left: string, right: string)
    requires Sealed(left, '=')
    ensures FirstOutside(Outside, left + ("=" + right), '=') == Some(|left|)
  {
    FirstAppend(Outside, left, "=" + right, '=');
  }

  /** Where an assignment splits, and that its first line scans to its end. */
  lemma AssignScans(rows: seq<Row>, key: string, v: Value) returns (a: string, b: string, first: string)
    requires rows != [] && WritesAssign(rows, key, v, DELIMITERS)
    ensures Blank(a) && Blank(b) && rows[0].text == key + a + "=" + (b + first) && Visible(first)
    ensures WritesValue(Joined(first, rows[1..]), v, DELIMITERS)
    ensures Sealed(rows[0].text, '#')
  {
    hide WritesValue, FirstOutside, After, IsWhite, AllBare;
    a, b, first :| Blank(a) && Blank(b) && rows[0].text == key + a + "=" + (b + first) && Visible(first) &&
      WritesValue(Joined(first, rows[1..]), v, DELIMITERS);
    var t := Joined(first, rows[1..]);
    ValueTame(t, v);
    JoinedStarts(first, rows[1..]);
    assert t == "" + first + t[|first|..];
    PlainSealed("", '#');
    BetweenBreaks("", first, t[|first|..], '#');
    BareKey(key);
    NotBlank();
    PlainSealed(key, '#');
    BlankPlain(a, '#');
    PlainSealed("=", '#');
    BlankPlain(b, '#');
    SealedAppend(key, a, '#');
    SealedAppend(key + a, "=", '#');
    SealedAppend(b, first, '#');
    SealedAppend(key + a + "=", b + first, '#');
  }

  /** Only an array is gathered further. */
  lemma SourceReads(lines: seq<string>, k: nat, rows: seq<Row>, first: string, v: Value)
    requires rows != [] && k + |rows| <= |lines| && lines[k..k + |rows|] == RowLines(rows)
    requires (forall i | 0 <= i < |rows| :: RowOk(rows[i])) && (|rows| > 1 ==> v.Texts?)
    requires Visible(first) && WritesValue(Joined(first, rows[1..]), v, DELIMITERS)
    ensures StartsWith(TrimStart(first), "[") <==> v.Texts?
    ensures v.Texts? ==> Gather(lines, k, first, k + 1) == Ok((Joined(first, rows[1..]), k + |rows| - 1))
    ensures !v.Texts? ==> Joined(first, rows[1..]) == first && |rows| == 1
  {
    hide Gather, WritesArray, RowOk, RowLine, IsWhite, TrimStart;
    var t := Joined(first, rows[1..]);
    JoinedStarts(first, rows[1..]);
    ValueStarts(t, v, DELIMITERS);
    assert t[..|first|][0] == t[0];
    TrimStartBlank("", first);
    assert "" + first == first && first[..1] == [first[0]];
    if v.Texts? {
      assert lines[k + 1..k + 1 + |rows[1..]|] == RowLines(rows[1..]) by {
        assert lines[k + 1..k + |rows|] == lines[k..k + |rows|][1..];
        assert RowLines(rows)[1..] == RowLines(rows[1..]);
      }
      GatherReads(lines, k, first, rows[1..], v.items, k + 1);
    }
  }

  lemma AssignReads(lines: seq<string>, k: nat, rows: seq<Row>, key: string, v: Value)
    requires rows != [] && k + |rows| <= |lines| && lines[k..k + |rows|] == RowLines(rows)
    requires (forall i | 0 <= i < |rows| :: RowOk(rows[i])) && WritesAssign(rows, key, v, DELIMITERS)
    ensures ReadAssignment(lines, k, rows[0].text) == Ok((Some(Assign(key, v)), k + |rows|))
    ensures rows[0].text != "" && rows[0].text[0] != '['
  {
    hide Assignment, Gather, ParseValue, WritesValue, RowOk, TrimStart, Sealed, RowLine, StartsWith, Joined, Blank;
    var a, b, first := AssignScans(rows, key, v);
    AssignmentReads(key, a, b, first, k + 1);
    BareKey(key);
    ValueReads(Joined(first, rows[1..]), v, DELIMITERS, k + 1);
    SourceReads(lines, k, rows, first, v);
  }

  /** The statement written from a line on is the one read there, and reading goes on after it. */
  lemma LineReads(lines: seq<string>, k: nat, p: Piece)
    requires WritesPiece(p, DELIMITERS) && k + |p.rows| <= |lines| && lines[k..k + |p.rows|] == RowLines(p.rows)
    ensures ReadStatement(lines, k) == Ok((p.statement, k + |p.rows|))
  {
    hide StripComment, TableHeader, ReadAssignment, Trim, Sealed, RowLine, Code, WritesHeader, WritesAssign, RowOk;
    var row, n := p.rows[0], k + 1;
    assert lines[k] == RowLines(p.rows)[0];
    assert RowOk(row);
    match p.statement {
      case None => PlainSealed("", '#');
      case Some(Open(path, isArray)) => HeaderReads(row.text, path, isArray, DELIMITERS, n);
      case Some(Assign(key, v)) =>
        AssignReads(lines, k, p.rows, key, v);
        var a, b, first := AssignScans(p.rows, key, v);
    }
    RowReads(row, n);
  }

  lemma {:induction false} PiecesRead(done: seq<string>, ps: seq<Piece>, r: Reading)
    requires forall i | 0 <= i < |ps| :: WritesPiece(ps[i], DELIMITERS)
    ensures ReadFrom(done + PieceLines(ps), |done|, r) == Build(ps, |done| + 1, r)
    decreases |ps|
  {
    hide ReadStatement, Perform, WritesPiece, ReadFrom, RowLine;
    var lines, k := done + PieceLines(ps), |done|;
    if ps == [] {
      assert lines == done;
      NoMoreLines(lines, r);
    } else {
      var p := ps[0];
      assert p.rows != [] by { PieceHasRows(p); }
      var more := done + RowLines(p.rows);
      assert lines == more + PieceLines(ps[1..]) && lines[k..k + |p.rows|] == RowLines(p.rows);
      LineReads(lines, k, p);
      ReadNext(lines, k, r, p.statement, k + |p.rows|);
      var next := if p.statement.None? then Ok(r) else Perform(r, p.statement.value, k + 1);
      if next.Ok? { PiecesRead(more, ps[1..], next.value); }
    }
  }

  lemma PieceHasRows(p: Piece)
    requires WritesPiece(p, DELIMITERS)
    ensures p.rows != []
  {
  }

  lemma NoMoreLines(lines: seq<string>, r: Reading)
    ensures ReadFrom(lines, |lines|, r) == Ok(r.document)
  {
  }

  lemma ReadNext(lines: seq<string>, k: nat, r: Reading, s: Option<Statement>, next: nat)
    requires k < |lines| && ReadStatement(lines, k) == Ok((s, next))
    ensures next <= |lines|
    ensures ReadFrom(lines, k, r) ==
      if s.None? then ReadFrom(lines, next, r)
      else
        var after := Perform(r, s.value, k + 1);
        if after.Err? then Err(after.error) else ReadFrom(lines, next, after.value)
  {
    hide ReadStatement, Perform;
  }

  // ------------------------------------------------------------------ lines come back

  lemma {:induction false} SplitLine(line: string, rest: string)
    requires '\n' !in line
    ensures SplitLines(line + ("\n" + rest)) == [line] + SplitLines(rest)
  {
    var s := line + ("\n" + rest);
    if line == "" {
      assert s == "\n" + rest && s[1..] == rest;
    } else {
      assert s[1..] == line[1..] + ("\n" + rest);
      SplitLine(line[1..], rest);
      assert [line[0]] + line[1..] == line;
    }
  }

  lemma {:induction false} SplitLast(line: string)
    requires '\n' !in line
    ensures SplitLines(line) == if line == "" then [] else [line]
  {
    if line != "" {
      SplitLast(line[1..]);
      assert [line[0]] + line[1..] == line && (|line| == 1 ==> line == [line[0]]);
    }
  }

  lemma ReturnsCons(line: string, lines: seq<string>)
    ensures DropReturns([line] + lines) == [DropReturn(line)] + DropReturns(lines)
  {
    hide DropReturn;
  }

  lemma LinesCons(line: string, rest: string)
    requires '\n' !in line
    ensures Lines(line + ("\n" + rest)) == [DropReturn(line)] + Lines(rest)
  {
    hide SplitLines, DropReturns, DropReturn;
    var s, cut := line + ("\n" + rest), SplitLines(rest);
    SplitLine(line, rest);
    assert s[|s| - 1] == if rest == "" then '\n' else rest[|rest| - 1];
    if rest == "" || rest[|rest| - 1] == '\n' {
      ReturnsCons(line, cut);
    } else {
      var front, last := cut[..|cut| - 1], cut[|cut| - 1];
      ReturnsCons(line, front);
      assert ([line] + cut)[..|cut|] == [line] + front;
      assert [DropReturn(line)] + DropReturns(front) + [last] == [DropReturn(line)] + (DropReturns(front) + [last]);
    }
  }

  lemma LastLine(line: string)
    requires '\n' !in line && line != ""
    ensures Lines(line) == [line]
  {
    hide SplitLines;
    SplitLast(line);
  }

  /** A text falls into the lines it was made of, whatever ended them. */
  lemma {:induction false} LinesComeBack(lines: seq<string>, ends: seq<string>)
    requires Ended(lines, ends)
    ensures Lines(TextOf(lines, ends)) == lines
  {
    hide Lines;
    if lines == [] {
      NoLines();
    } else {
      var line, rest := lines[0], TextOf(lines[1..], ends[1..]);
      LinesComeBack(lines[1..], ends[1..]);
      assert lines == [line] + lines[1..];
      if ends[0] == "\n" {
        LinesCons(line, rest);
        assert line + "\n" + rest == line + ("\n" + rest);
      } else if ends[0] == "\r\n" {
        LinesCons(line + "\r", rest);
        assert line + "\r\n" + rest == (line + "\r") + ("\n" + rest);
        assert (line + "\r")[..|line|] == line;
      } else {
        assert line + "" + rest == line;
        LastLine(line);
      }
    }
  }

  lemma NoLines()
    ensures Lines("") == []
  {
  }

  /** Reading a written text performs it: the same document, or the same error on the same line. */
  lemma ReadingPerformsWhatWasWritten(ps: seq<Piece>, ends: seq<string>)
    requires (forall i | 0 <= i < |ps| :: WritesPiece(ps[i], DELIMITERS)) && Ended(PieceLines(ps), ends)
    ensures ParseRestrictedToml(TextOf(PieceLines(ps), ends)) == Build(ps, 1, Reading(Empty, RootSection))
  {
    hide ReadFrom, Build, WritesPiece, PieceLines, Lines;
    LinesComeBack(PieceLines(ps), ends);
    PiecesRead([], ps, Reading(Empty, RootSection));
    assert [] + PieceLines(ps) == PieceLines(ps);
  }
}
