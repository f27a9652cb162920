/** The reader's loops (xtask/src/deps.rs:308-376, 392-731), each proved to answer what `Toml` says. */
module TomlScanner {
  import opened Prelude
  import J = JsonPointer
  import opened Toml

  /** The two flags the scanners keep. */
  function State(inString: bool, escaped: bool): Quote {
    if !inString then Outside else if escaped then Escaped else Inside
  }

  /** One character further, as every scanner but the last updates its flags. */
  method Advance(inString: bool, escaped: bool, c: char) returns (inString': bool, escaped': bool)
    requires !inString ==> !escaped
    ensures !inString' ==> !escaped'
    ensures State(inString', escaped') == Next(State(inString, escaped), c)
  {
    inString', escaped' := inString, escaped;
    if inString {
      if escaped {
        escaped' := false;
      } else if c == '\\' {
        escaped' := true;
      } else if c == '"' {
        inString' := false;
      }
    } else if c == '"' {
      inString' := true;
    }
  }

  lemma ScanStep(q: Quote, s: string, k: nat, c: char)
    requires k < |s|
    ensures After(q, s[k..]) == After(Next(q, s[k]), s[k + 1..])
    ensures FirstOutside(q, s[k..], c) ==
      if q == Outside && s[k] == c then Some(0) else Shift(1, FirstOutside(Next(q, s[k]), s[k + 1..], c))
  {
    assert s[k..][1..] == s[k + 1..];
  }

  /** The scan shared by comment stripping and assignment splitting. */
  method FindOutside(s: string, c: char) returns (found: Option<nat>, inString: bool)
    ensures found == FirstOutside(Outside, s, c)
    ensures found.None? ==> (inString <==> After(Outside, s) != Outside)
  {
    var escaped := false;
    inString := false;
    assert s[0..] == s;
    for k := 0 to |s|
      invariant !inString ==> !escaped
      invariant FirstOutside(Outside, s, c) == Shift(k, FirstOutside(State(inString, escaped), s[k..], c))
      invariant After(Outside, s) == After(State(inString, escaped), s[k..])
    {
      ScanStep(State(inString, escaped), s, k, c);
      if !inString && s[k] == c {
        return Some(k), inString;
      }
      inString, escaped := Advance(inString, escaped, s[k]);
    }
    found := None;
  }

  method StripTomlComment(line: string, n: nat) returns (r: Parsed<string>)
    ensures r == StripComment(line, n)
  {
    hide FirstOutside, After;
    var hash, inString := FindOutside(line, '#');
    if hash.Some? {
      return Ok(line[..hash.value]);
    }
    if inString {
      return Fail(n, UnterminatedString);
    }
    r := Ok(line);
  }

  method SplitAssignment(statement: string, n: nat) returns (r: Parsed<(string, string)>)
    ensures r == Assignment(statement, n)
  {
    hide FirstOutside, Trim, AllBare;
    var delimiter, _ := FindOutside(statement, '=');
    if delimiter.None? {
      return Fail(n, NoAssignment);
    }
    var key, value := Trim(statement[..delimiter.value]), Trim(statement[delimiter.value + 1..]);
    if key == "" || !AllBare(key) {
      return Fail(n, BadKey);
    }
    if value == "" {
      return Fail(n, EmptyValue);
    }
    r := Ok((key, value));
  }

  // ------------------------------------------------------------------ strings

  lemma {:induction false} HexSnoc(s: string, k: nat)
    requires k < |s|
    ensures HexValue(s[..k + 1]) ==
      var front, last := HexValue(s[..k]), HexDigit(s[k]);
      if front.None? || last.None? then None else Some(front.value * 16 + last.value)
  {
    assert s[..k + 1][..k] == s[..k];
  }

  lemma {:induction false} HexFails(s: string, k: nat, m: nat)
    requires k <= m <= |s| && HexValue(s[..k]).None?
    ensures HexValue(s[..m]).None?
    decreases m
  {
    if k < m {
      HexFails(s, k, m - 1);
      HexSnoc(s, m - 1);
    }
  }

  method ParseUnicodeEscape(s: string, digits: nat, n: nat) returns (r: Parsed<char>)
    ensures r == UnicodeEscape(s, digits, n)
  {
    hide HexValue, HexDigit;
    var value: nat := 0;
    assert HexValue(s[..0]) == Some(0) by { HexNothing(s[..0]); }
    for k := 0 to digits
      invariant k <= |s| && HexValue(s[..k]) == Some(value)
    {
      if k == |s| {
        return Fail(n, BadUnicodeEscape);
      }
      HexSnoc(s, k);
      var digit := HexDigit(s[k]);
      if digit.None? {
        if digits <= |s| { HexFails(s, k + 1, digits); }
        return Fail(n, BadUnicodeEscape);
      }
      value := value * 16 + digit.value;
    }
    var c := Scalar(value);
    if c.None? {
      return Fail(n, BadUnicodeEscape);
    }
    r := Ok(c.value);
  }

  lemma HexNothing(s: string)
    requires s == ""
    ensures HexValue(s) == Some(0)
  {
  }

  lemma UnescapeStep(s: string, k: nat, n: nat)
    requires k < |s|
    ensures
      var first := ReadChar(s[k..], n);
      if first.Err? then Unescape(s[k..], n) == Err(first.error)
      else
        && k + first.value.1 <= |s|
        && Unescape(s[k..], n) == Prepend([first.value.0], Unescape(s[k + first.value.1..], n))
  {
    hide ReadChar;
    var first := ReadChar(s[k..], n);
    if first.Ok? { assert s[k..][first.value.1..] == s[k + first.value.1..]; }
  }

  method ReadOne(s: string, k: nat, n: nat) returns (r: Parsed<(char, nat)>)
    requires k < |s|
    ensures r == ReadChar(s[k..], n)
  {
    hide UnicodeEscape;
    if s[k] != '\\' {
      return Ok((s[k], 1));
    }
    if k + 1 == |s| {
      return Fail(n, EndsWithEscape);
    }
    var letter := s[k + 1];
    assert s[k..][1] == letter && s[k..][2..] == s[k + 2..];
    var width := EscapeWidth(letter);
    if width > 0 {
      var c := ParseUnicodeEscape(s[k + 2..], width, n);
      if c.Err? {
        return Err(c.error);
      }
      return Ok((c.value, 2 + width));
    }
    var c := SimpleEscape(letter);
    if c.None? {
      return Fail(n, UnsupportedEscape);
    }
    r := Ok((c.value, 2));
  }

  method ParseBasicString(source: string, n: nat) returns (r: Parsed<string>)
    ensures r == BasicString(source, n)
  {
    hide Unescape, ReadChar, Prepend;
    if |source| < 2 || source[0] != '"' || source[|source| - 1] != '"' {
      return Fail(n, MalformedString);
    }
    var inner, output, k: nat := source[1..|source| - 1], "", 0;
    assert inner[0..] == inner;
    PrependNothing([], Unescape(inner, n));
    while k < |inner|
      invariant k <= |inner|
      invariant Unescape(inner, n) == Prepend(output, Unescape(inner[k..], n))
    {
      UnescapeStep(inner, k, n);
      PrependFails(output, Unescape(inner[k..], n));
      var one :- ReadOne(inner, k, n);
      PrependOne(output, one.0, Unescape(inner[k + one.1..], n));
      output := output + [one.0];
      k := k + one.1;
    }
    assert inner[|inner|..] == "";
    UnescapeNothing(n);
    PrependNothing<char, TomlError>(output, Ok([]));
    r := Ok(output);
  }

  lemma UnescapeNothing(n: nat)
    ensures Unescape("", n) == Ok("")
  {
  }

  method FindBasicStringEnd(s: string) returns (end: Option<nat>)
    requires s != ""
    ensures end == StringEnd(s)
  {
    var escaped := false;
    for k := 1 to |s|
      invariant StringEnd(s) == Shift(k, EndOfString(if escaped then Escaped else Inside, s[k..]))
    {
      assert s[k..][1..] == s[k + 1..];
      if escaped {
        escaped := false;
      } else if s[k] == '\\' {
        escaped := true;
      } else if s[k] == '"' {
        return Some(k);
      }
    }
    end := None;
  }

  // ------------------------------------------------------------------ table headers

  lemma SplitStep(q: Quote, s: string, k: nat)
    requires k < |s|
    ensures SplitDots(q, s[k..]) ==
      if q == Outside && s[k] == '.' then [""] + SplitDots(Outside, s[k + 1..])
      else
        var rest := SplitDots(Next(q, s[k]), s[k + 1..]);
        [[s[k]] + rest[0]] + rest[1..]
  {
    assert s[k..][1..] == s[k + 1..];
  }

  /** The parts cut off so far, then the open part, then the parts to come. */
  ghost function Parts(done: seq<string>, open: string, rest: seq<string>): seq<string>
    requires rest != []
  {
    done + [open + rest[0]] + rest[1..]
  }

  lemma PartsGrow(done: seq<string>, open: string, c: char, rest: seq<string>)
    requires rest != []
    ensures Parts(done, open, [[c] + rest[0]] + rest[1..]) == Parts(done, open + [c], rest)
    ensures Parts(done, open, [""] + rest) == Parts(done + [open], "", rest)
  {
    var grown := [[c] + rest[0]] + rest[1..];
    assert open + grown[0] == open + [c] + rest[0] && grown[1..] == rest[1..];
    var cut := [""] + rest;
    assert open + "" == open && cut[1..] == rest && "" + rest[0] == rest[0];
    assert done + [open] + rest == done + [open] + [rest[0]] + rest[1..];
  }

  method SplitHeader(inner: string) returns (parts: seq<string>, inString: bool)
    ensures parts == SplitDots(Outside, inner)
    ensures inString <==> After(Outside, inner) != Outside
  {
    hide SplitDots, Parts;
    var start, escaped := 0, false;
    parts, inString := [], false;
    assert inner[0..] == inner && inner[0..0] == "";
    PartsNothing(SplitDots(Outside, inner));
    for k := 0 to |inner|
      invariant start <= k && (!inString ==> !escaped)
      invariant SplitDots(Outside, inner) == Parts(parts, inner[start..k],
        SplitDots(State(inString, escaped), inner[k..]))
      invariant After(Outside, inner) == After(State(inString, escaped), inner[k..])
    {
      var q := State(inString, escaped);
      SplitStep(q, inner, k);
      ScanStep(q, inner, k, '.');
      PartsGrow(parts, inner[start..k], inner[k], SplitDots(Next(q, inner[k]), inner[k + 1..]));
      if !inString && inner[k] == '.' {
        parts := parts + [inner[start..k]];
        start := k + 1;
        assert inner[start..k + 1] == "";
      } else {
        assert inner[start..k + 1] == inner[start..k] + [inner[k]];
        inString, escaped := Advance(inString, escaped, inner[k]);
      }
    }
    assert inner[|inner|..] == "" && inner[start..|inner|] == inner[start..];
    PartsDone(parts, inner[start..], State(inString, escaped));
    parts := parts + [inner[start..]];
  }

  lemma PartsNothing(rest: seq<string>)
    requires rest != []
    ensures Parts([], "", rest) == rest
  {
    assert "" + rest[0] == rest[0] && [] + [rest[0]] + rest[1..] == rest;
  }

  lemma PartsDone(done: seq<string>, open: string, q: Quote)
    ensures Parts(done, open, SplitDots(q, "")) == done + [open]
  {
    assert open + "" == open && [""][1..] == [];
  }

  method ParseSegment(raw: string, n: nat) returns (r: Parsed<string>)
    ensures r == Segment(raw, n)
  {
    hide BasicString, AllBare;
    if raw == "" {
      return Fail(n, EmptySegment);
    }
    var segment := raw;
    if raw[0] == '"' {
      segment :- ParseBasicString(raw, n);
    } else if !AllBare(raw) {
      return Fail(n, BadSegment);
    }
    if segment == "" {
      return Fail(n, EmptySegment);
    }
    r := Ok(segment);
  }

  lemma SegmentsStep(raw: seq<string>, k: nat, n: nat)
    requires k < |raw|
    ensures
      var first := Segment(Trim(raw[k]), n);
      if first.Err? then AllSegments(raw[k..], n) == Err(first.error)
      else AllSegments(raw[k..], n) == Prepend([first.value], AllSegments(raw[k + 1..], n))
  {
    hide Segment;
    assert raw[k..][1..] == raw[k + 1..];
  }

  method ParseSegments(raw: seq<string>, n: nat) returns (r: Parsed<Segments>)
    ensures r == AllSegments(raw, n)
  {
    hide AllSegments, Segment, Prepend;
    var segments := [];
    assert raw[0..] == raw;
    PrependNothing([], AllSegments(raw, n));
    for k := 0 to |raw|
      invariant AllSegments(raw, n) == Prepend(segments, AllSegments(raw[k..], n))
    {
      SegmentsStep(raw, k, n);
      PrependFails(segments, AllSegments(raw[k..], n));
      var segment :- ParseSegment(Trim(raw[k]), n);
      PrependOne(segments, segment, AllSegments(raw[k + 1..], n));
      segments := segments + [segment];
    }
    assert raw[|raw|..] == [];
    assert AllSegments([], n) == Ok([]) by { NoSegments(n); }
    PrependNothing<string, TomlError>(segments, Ok([]));
    r := Ok(segments);
  }

  lemma NoSegments(n: nat)
    ensures AllSegments([], n) == Ok([])
  {
  }

  method ParseTableHeader(statement: string, n: nat) returns (r: Parsed<(Segments, bool)>)
    ensures r == TableHeader(statement, n)
  {
    hide AllSegments, SplitDots, After, Trim;
    var isArray := StartsWith(statement, "[[");
    var width := if isArray then 2 else 1;
    if |statement| < 2 * width || !EndsWith(statement, if isArray then "]]" else "]") {
      return Fail(n, MalformedHeader);
    }
    var inner := Trim(statement[width..|statement| - width]);
    if inner == "" {
      return Fail(n, EmptyPath);
    }
    var raw, inString := SplitHeader(inner);
    if inString {
      return Fail(n, UnterminatedSegment);
    }
    var path :- ParseSegments(raw, n);
    r := Ok((path, isArray));
  }

  // ------------------------------------------------------------------ values

  method ArrayValueIsComplete(s: string, n: nat) returns (r: Parsed<bool>)
    ensures r == ArrayComplete(Outside, 0, false, s, n)
  {
    var inString, escaped, depth: nat, seen := false, false, 0, false;
    assert s[0..] == s;
    for k := 0 to |s|
      invariant !inString ==> !escaped
      invariant ArrayComplete(Outside, 0, false, s, n) == ArrayComplete(State(inString, escaped), depth, seen, s[k..],
        n)
    {
      var c := s[k];
      assert s[k..][1..] == s[k + 1..];
      if !inString && c == '[' {
        seen := true;
        depth := if depth == U32_MAX then depth else depth + 1;
      } else if !inString && c == ']' {
        if depth == 0 {
          return Fail(n, UnexpectedBracket);
        }
        depth := depth - 1;
      } else {
        inString, escaped := Advance(inString, escaped, c);
      }
    }
    assert s[|s|..] == "";
    if inString {
      return Fail(n, UnterminatedString);
    }
    r := Ok(seen && depth == 0);
  }

  /** One item of a string array: the item, and what follows its comma if there is more. */
  method ParseItem(t: string, n: nat) returns (item: Parsed<string>, more: Option<string>)
    requires t != "" && t[0] == '"' && TrimStart(t) == t
    ensures item.Ok? && more.Some? ==> |more.value| < |t|
    ensures ArrayItems(t, n) ==
      if item.Err? then Err(item.error)
      else if more.None? then Ok([item.value])
      else Prepend([item.value], ArrayItems(more.value, n))
  {
    hide StringEnd, BasicString, Trim;
    more := None;
    var end := FindBasicStringEnd(t);
    if end.None? {
      return Fail(n, UnterminatedItem), None;
    }
    item := ParseBasicString(t[..end.value + 1], n);
    if item.Err? {
      return;
    }
    var rest := TrimStart(t[end.value + 1..]);
    if rest == "" {
      return;
    }
    if rest[0] != ',' {
      return Fail(n, MissingComma), None;
    }
    if Trim(rest[1..]) == "" {
      return;
    }
    more := Some(rest[1..]);
  }

  lemma ItemsTrim(s: string, n: nat)
    ensures ArrayItems(TrimStart(s), n) == ArrayItems(s, n) && TrimStart(TrimStart(s)) == TrimStart(s)
  {
  }

  lemma ItemsStart(t: string, n: nat)
    requires TrimStart(t) == t
    ensures t == "" ==> ArrayItems(t, n) == Ok([])
    ensures t != "" && t[0] == ',' ==> ArrayItems(t, n) == Fail(n, EmptyItem)
    ensures t != "" && t[0] != ',' && t[0] != '"' ==> ArrayItems(t, n) == Fail(n, OnlyStrings)
  {
  }

  method ParseStringArray(source: string, n: nat) returns (r: Parsed<seq<string>>)
    ensures r == StringArray(source, n)
  {
    hide ArrayItems, Prepend;
    if |source| < 2 || source[0] != '[' || source[|source| - 1] != ']' {
      return Fail(n, MalformedArray);
    }
    var inner, values := source[1..|source| - 1], [];
    var remaining := inner;
    PrependNothing([], ArrayItems(inner, n));
    while true
      invariant ArrayItems(inner, n) == Prepend(values, ArrayItems(remaining, n))
      decreases |remaining|
    {
      var trimmed := TrimStart(remaining);
      ItemsTrim(remaining, n);
      ItemsStart(trimmed, n);
      PrependFails(values, ArrayItems(remaining, n));
      if trimmed == "" {
        PrependNothing<string, TomlError>(values, Ok([]));
        return Ok(values);
      }
      if trimmed[0] == ',' {
        return Fail(n, EmptyItem);
      }
      if trimmed[0] != '"' {
        return Fail(n, OnlyStrings);
      }
      var item, more := ParseItem(trimmed, n);
      var value :- item;
      if more.None? {
        PrependNothing<string, TomlError>([value], Ok([]));
        PrependOne<string, TomlError>(values, value, Ok([]));
        PrependNothing<string, TomlError>(values + [value], Ok([]));
        return Ok(values + [value]);
      }
      PrependOne(values, value, ArrayItems(more.value, n));
      values, remaining := values + [value], more.value;
    }
  }

  method ParseRestrictedValue(raw: string, n: nat) returns (r: Parsed<Value>)
    ensures r == ParseValue(raw, n)
  {
    hide BasicString, StringArray, Trim;
    var source := Trim(raw);
    if source != "" && source[0] == '"' {
      var text :- ParseBasicString(source, n);
      return Ok(Text(text));
    }
    if source != "" && source[0] == '[' {
      var items :- ParseStringArray(source, n);
      return Ok(Texts(items));
    }
    if J.AllDigits(source) {
      if source == "" || J.DecimalValue(source) > U64_MAX {
        return Fail(n, InvalidInteger);
      }
      return Ok(Integer(J.DecimalValue(source)));
    }
    r := Fail(n, UnsupportedValue);
  }

  // ------------------------------------------------------------------ the document

  method GatherArray(lines: seq<string>, k: nat, initial: string, n: nat) returns (r: Parsed<(string, nat)>)
    requires k < |lines|
    ensures r == Gather(lines, k, initial, n)
  {
    hide ArrayComplete, StripComment, Trim;
    var source, at := initial, k;
    while true
      invariant k <= at < |lines|
      invariant Gather(lines, k, initial, n) == Gather(lines, at, source, n)
      decreases |lines| - at
    {
      var complete :- ArrayValueIsComplete(source, n);
      if complete {
        return Ok((source, at));
      }
      if at + 1 == |lines| {
        return Fail(n, UnterminatedArray);
      }
      var next :- StripTomlComment(lines[at + 1], at + 2);
      at := at + 1;
      source := source + "\n" + Trim(next);
    }
  }

  method ReadKeyValue(lines: seq<string>, k: nat, statement: string) returns (r: Parsed<(Option<Statement>, nat)>)
    requires k < |lines|
    ensures r == ReadAssignment(lines, k, statement)
    ensures r.Ok? ==> r.value.0.Some? && r.value.0.value.Assign?
  {
    hide Assignment, Gather, ParseValue, TrimStart;
    var n := k + 1;
    var split :- SplitAssignment(statement, n);
    var source, last := split.1, k;
    if StartsWith(TrimStart(split.1), "[") {
      var gathered :- GatherArray(lines, k, split.1, n);
      source, last := gathered.0, gathered.1;
    }
    var value :- ParseRestrictedValue(source, n);
    r := Ok((Some(Assign(split.0, value)), last + 1));
  }

  method ParseDocument(source: string) returns (r: Parsed<Document>)
    ensures r == ParseRestrictedToml(source)
  {
    hide StripComment, Trim, TableHeader, ReadAssignment, OpenTable, AssignKey, Lines;
    var lines := Lines(source);
    var reading, k := Reading(Empty, RootSection), 0;
    while k < |lines|
      invariant k <= |lines|
      invariant ParseRestrictedToml(source) == ReadFrom(lines, k, reading)
    {
      var n := k + 1;
      var line :- StripTomlComment(lines[k], n);
      var statement := Trim(line);
      if statement == "" {
        k := k + 1;
        continue;
      }
      if statement[0] == '[' {
        var header :- ParseTableHeader(statement, n);
        reading :- OpenTable(reading, header.0, header.1, n);
        k := k + 1;
        continue;
      }
      var read :- ReadKeyValue(lines, k, statement);
      var assign := read.0.value;
      reading :- AssignKey(reading, assign.key, assign.value, n);
      k := read.1;
    }
    r := Ok(reading.document);
  }
}
