/**
 JSON pointers (sections 3 to 5 of RFC 6901) as the tools write them (`escape_pointer_token`) and as
 `serde_json::Value::pointer` reads them, and the ownership test on pointer texts
 (xtask/src/schema_surface.rs:310-319, 1277-1279).
 */
module JsonPointer {
  import opened Prelude
  import opened Json

  /** Reference tokens, outermost first. */
  type Path = seq<string>

  // ------------------------------------------------------------------ tokens

  function EscapeChar(c: char): string {
    if c == '~' then "~0" else if c == '/' then "~1" else [c]
  }

  function EscapeToken(token: string): string {
    if token == "" then "" else EscapeChar(token[0]) + EscapeToken(token[1..])
  }

  /** Replaces every `~d`, scanning from the left. */
  function ReplacePair(s: string, d: char, put: char): string {
    if |s| < 2 then s
    else if s[0] == '~' && s[1] == d then [put] + ReplacePair(s[2..], d, put)
    else [s[0]] + ReplacePair(s[1..], d, put)
  }

  function UnescapeToken(s: string): string { ReplacePair(ReplacePair(s, '1', '/'), '0', '~') }

  /** What is left of an escaped token after the first pass. */
  function HalfEscaped(token: string): string {
    if token == "" then "" else (if token[0] == '~' then "~0" else [token[0]]) + HalfEscaped(token[1..])
  }

  lemma {:induction false} FirstPass(token: string)
    ensures ReplacePair(EscapeToken(token), '1', '/') == HalfEscaped(token)
  {
    hide ReplacePair;
    if token == "" {
      PairsKept("", '1', '/');
    } else {
      FirstPass(token[1..]);
      var rest := EscapeToken(token[1..]);
      var all := EscapeToken(token);
      if token[0] == '/' {
        assert all == "~" + ['1'] + rest;
        PairReplaced(rest, '1', '/');
      } else if token[0] == '~' {
        assert all == ['~'] + ("0" + rest);
        CharKept('~', "0" + rest, '1', '/');
        CharKept('0', rest, '1', '/');
        assert "0" + rest == ['0'] + rest && ['~'] + (['0'] + HalfEscaped(token[1..])) == "~0"
          + HalfEscaped(token[1..]);
      } else {
        assert all == [token[0]] + rest;
        CharKept(token[0], rest, '1', '/');
      }
    }
  }

  lemma PairsKept(s: string, d: char, put: char)
    requires s == ""
    ensures ReplacePair(s, d, put) == s
  {
  }

  lemma PairReplaced(rest: string, d: char, put: char)
    ensures ReplacePair("~" + [d] + rest, d, put) == [put] + ReplacePair(rest, d, put)
  {
    assert ("~" + [d] + rest)[2..] == rest;
  }

  lemma CharKept(c: char, rest: string, d: char, put: char)
    requires c != '~' || rest == "" || rest[0] != d
    ensures ReplacePair([c] + rest, d, put) == [c] + ReplacePair(rest, d, put)
  {
    assert ([c] + rest)[1..] == rest;
    if rest == "" { assert [c] + rest == [c]; }
  }

  lemma {:induction false} SecondPass(token: string)
    ensures ReplacePair(HalfEscaped(token), '0', '~') == token
  {
    if token != "" {
      SecondPass(token[1..]);
      var rest := HalfEscaped(token[1..]);
      var all := HalfEscaped(token);
      if token[0] == '~' {
        assert all[2..] == rest;
      } else {
        assert all[1..] == rest;
        if rest == "" { assert all == [token[0]]; }
      }
      assert token == [token[0]] + token[1..];
    }
  }

  /** Reading an escaped token back gives the token. */
  lemma UnescapeEscape(token: string)
    ensures UnescapeToken(EscapeToken(token)) == token
  {
    FirstPass(token);
    SecondPass(token);
  }

  /** The text has no `~d` in it. */
  predicate NoPair(s: string, d: char) { forall i | 0 <= i < |s| - 1 :: s[i] == '~' ==> s[i + 1] != d }

  /** A pass shortens a text that has the pair and keeps any other. */
  lemma {:induction false} PassKeeps(s: string, d: char, put: char)
    ensures |ReplacePair(s, d, put)| <= |s|
    ensures NoPair(s, d) ==> ReplacePair(s, d, put) == s
    ensures |ReplacePair(s, d, put)| == |s| ==> NoPair(s, d)
  {
    if |s| >= 2 {
      if s[0] == '~' && s[1] == d {
        PassKeeps(s[2..], d, put);
      } else {
        PassKeeps(s[1..], d, put);
        assert s == [s[0]] + s[1..];
        assert forall i | 1 <= i < |s| :: s[i] == s[1..][i - 1];
      }
    }
  }

  /** A token that means itself is one in which no tilde starts an escape. */
  lemma UnescapeKeepsIff(s: string)
    ensures |UnescapeToken(s)| <= |s|
    ensures UnescapeToken(s) == s <==> NoPair(s, '0') && NoPair(s, '1')
  {
    hide ReplacePair;
    PassKeeps(s, '1', '/');
    PassKeeps(ReplacePair(s, '1', '/'), '0', '~');
  }

  lemma {:induction false} EscapeHasNoSlash(token: string)
    ensures '/' !in EscapeToken(token)
  {
    if token != "" { EscapeHasNoSlash(token[1..]); }
  }

  lemma EscapeInjective(s: string, t: string)
    requires EscapeToken(s) == EscapeToken(t)
    ensures s == t
  {
    UnescapeEscape(s);
    UnescapeEscape(t);
  }

  // ------------------------------------------------------------------ pointer texts

  /** The text of a pointer: each token escaped and introduced by a slash. */
  function PointerText(path: Path): string {
    if path == [] then "" else PointerText(path[..|path| - 1]) + "/" + EscapeToken(path[|path| - 1])
  }

  /** A pointer's text under a base, as `child_pointer` builds it one token at a time. */
  function Under(base: string, path: Path): string { base + PointerText(path) }

  /** One token further: `child_pointer`. */
  function ChildPointer(pointer: string, token: string): string { pointer + "/" + EscapeToken(token) }

  lemma PointerGrows(path: Path, token: string)
    ensures PointerText(path + [token]) == PointerText(path) + "/" + EscapeToken(token)
  {
    assert (path + [token])[..|path + [token]| - 1] == path;
  }

  lemma {:induction false} PointerAppend(p: Path, q: Path)
    ensures PointerText(p + q) == PointerText(p) + PointerText(q)
  {
    if q == [] {
      assert p + q == p;
    } else {
      assert (p + q)[..|p + q| - 1] == p + q[..|q| - 1];
      PointerAppend(p, q[..|q| - 1]);
    }
  }

  lemma PointerHead(path: Path)
    requires path != []
    ensures PointerText(path) == "/" + (EscapeToken(path[0]) + PointerText(path[1..]))
  {
    hide EscapeToken;
    PointerAppend([path[0]], path[1..]);
    PointerGrows([], path[0]);
    assert [] + [path[0]] == [path[0]] && [path[0]] + path[1..] == path;
  }

  /** Splits at every slash. */
  function SplitSlash(s: string): (parts: seq<string>)
    ensures parts != []
  {
    if s == "" then [""]
    else
      var rest := SplitSlash(s[1..]);
      if s[0] == '/' then [""] + rest else [[s[0]] + rest[0]] + rest[1..]
  }

  lemma {:induction false} SplitToken(token: string)
    requires '/' !in token
    ensures SplitSlash(token) == [token]
  {
    if token != "" {
      SplitToken(token[1..]);
      assert token == [token[0]] + token[1..];
    }
  }

  lemma {:induction false} SplitJoined(token: string, rest: string)
    requires '/' !in token
    ensures SplitSlash(token + "/" + rest) == [token] + SplitSlash(rest)
  {
    var s := token + "/" + rest;
    if token == "" {
      assert s[1..] == rest;
    } else {
      assert s[1..] == token[1..] + "/" + rest;
      SplitJoined(token[1..], rest);
      assert token == [token[0]] + token[1..];
    }
  }

  // ------------------------------------------------------------------ lookup

  predicate IsDigit(c: char) { '0' <= c <= '9' }

  predicate AllDigits(s: string) { forall i | 0 <= i < |s| :: IsDigit(s[i]) }

  function DecimalValue(s: string): nat
    requires forall i | 0 <= i < |s| :: IsDigit(s[i])
  {
    if s == "" then 0
    else
      var d := s[|s| - 1];
      assert IsDigit(d);
      DecimalValue(s[..|s| - 1]) * 10 + (d as int - '0' as int)
  }

  /** The text is a plain decimal integer with this value: digits, with a minus sign or without. */
  ghost predicate Denotes(t: string, n: int) {
    || (t != "" && AllDigits(t) && n == DecimalValue(t))
    || (|t| > 1 && t[0] == '-' && AllDigits(t[1..]) && -n == DecimalValue(t[1..]))
  }

  /** An array index: decimal, with no sign and no leading zero. */
  function ArrayIndex(token: string): Option<nat> {
    if token == "" || (token[0] == '0' && |token| != 1) || exists i | 0 <= i < |token| :: !IsDigit(token[i]) then None
    else Some(DecimalValue(token))
  }

  function Child(j: Json, token: string): Option<Json> {
    match j
    case Object(m) => if token in m then Some(m[token]) else None
    case Array(items) =>
      var i := ArrayIndex(token);
      if i.Some? && i.value < |items| then Some(items[i.value]) else None
    case _ => None
  }

  function Lookup(j: Json, path: Path): Option<Json> {
    if path == [] then Some(j)
    else
      var child := Child(j, path[0]);
      if child.None? then None else Lookup(child.value, path[1..])
  }

  /** `Value::get` with a string key only enters objects. */
  function ObjectsOnly(j: Json, path: Path): (found: Option<Json>)
    ensures found.Some? ==> Lookup(j, path) == found
  {
    if path == [] then Some(j)
    else if j.Object? && path[0] in j.members then ObjectsOnly(j.members[path[0]], path[1..])
    else None
  }

  function UnescapeAll(parts: seq<string>): Path {
    if parts == [] then [] else [UnescapeToken(parts[0])] + UnescapeAll(parts[1..])
  }

  /** `Value::pointer`: the empty text names the whole document, any other text starts with a slash. */
  function Resolve(j: Json, pointer: string): Option<Json> {
    if pointer == "" then Some(j)
    else if pointer[0] != '/' then None
    else Lookup(j, UnescapeAll(SplitSlash(pointer)[1..]))
  }

  /** `#` names the document, `#/...` a value in it; anything else is not local. */
  function ResolveLocal(document: Json, reference: string): Option<Json> {
    if reference == "" || reference[0] != '#' then None else Resolve(document, reference[1..])
  }

  lemma {:induction false} SplitPointer(path: Path)
    requires path != []
    ensures PointerText(path) != "" && PointerText(path)[0] == '/'
    ensures UnescapeAll(SplitSlash(PointerText(path)[1..])) == path
    decreases |path|
  {
    hide PointerText, EscapeToken, UnescapeToken;
    var tail := path[1..];
    var e, t := EscapeToken(path[0]), PointerText(tail);
    PointerHead(path);
    assert PointerText(path)[1..] == e + t;
    EscapeHasNoSlash(path[0]);
    UnescapeEscape(path[0]);
    if tail == [] {
      EmptyPointer();
      assert e + t == e;
      SplitToken(e);
    } else {
      SplitPointer(tail);
      assert e + t == e + "/" + t[1..];
      SplitJoined(e, t[1..]);
    }
  }

  lemma EmptyPointer()
    ensures PointerText([]) == ""
  {
  }

  /** A pointer text written from a path resolves to what the path leads to. */
  lemma ResolvePointerText(j: Json, path: Path)
    ensures Resolve(j, PointerText(path)) == Lookup(j, path)
  {
    if path != [] {
      SplitPointer(path);
      var text := PointerText(path);
      var parts := SplitSlash(text[1..]);
      assert SplitSlash(text) == [""] + parts;
      assert SplitSlash(text)[1..] == parts;
    }
  }

  /** A local reference written from a path resolves to what the path leads to; nothing else is local. */
  lemma ResolveReferenceText(j: Json, path: Path)
    ensures ResolveLocal(j, "#" + PointerText(path)) == Lookup(j, path)
    ensures forall text :: text == "" || text[0] != '#' ==> ResolveLocal(j, text) == None
  {
    hide Resolve, PointerText;
    ResolvePointerText(j, path);
    assert ("#" + PointerText(path))[1..] == PointerText(path);
  }

  // ------------------------------------------------------------------ array tokens

  lemma {:induction false} NatTextDecimal(n: nat)
    ensures NatText(n) != ""
    ensures forall i | 0 <= i < |NatText(n)| :: IsDigit(NatText(n)[i])
    ensures DecimalValue(NatText(n)) == n
    ensures n > 0 ==> NatText(n)[0] != '0'
    ensures n < 10 ==> |NatText(n)| == 1
  {
    var text := NatText(n);
    if n >= 10 {
      NatTextDecimal(n / 10);
      assert text[..|text| - 1] == NatText(n / 10);
    } else {
      assert text[..|text| - 1] == "";
      assert DecimalValue("") == 0;
    }
  }

  lemma IndexToken(n: nat)
    ensures ArrayIndex(NatText(n)) == Some(n)
  {
    NatTextDecimal(n);
  }

  lemma NatTextInjective(m: nat, n: nat)
    requires NatText(m) == NatText(n)
    ensures m == n
  {
    NatTextDecimal(m);
    NatTextDecimal(n);
  }

  // ------------------------------------------------------------------ ownership

  /** The source's test: the whole document, the same pointer, or a longer pointer continuing with a slash. */
  predicate Owns(owner: string, pointer: string) {
    owner == "#" || pointer == owner || (|owner| < |pointer| && pointer[..|owner|] == owner && pointer[|owner|] == '/')
  }

  lemma {:induction false} SlashPrefix(p: Path, q: Path, tail: string)
    requires PointerText(q) == PointerText(p) + tail
    requires tail == "" || tail[0] == '/'
    ensures p <= q
    decreases |p|
  {
    hide PointerText, EscapeToken;
    if p != [] {
      var a, ps := p[0], p[1..];
      PointerHead(p);
      var x := PointerText(ps) + tail;
      assert PointerText(q) == "/" + (EscapeToken(a) + x);
      StartsWithSlash(q);
      var b, qs := q[0], q[1..];
      PointerHead(q);
      var y := PointerText(qs);
      SameAfterSlash(EscapeToken(a) + x, EscapeToken(b) + y);
      StartsWithSlash(ps);
      StartsWithSlash(qs);
      EscapeHasNoSlash(a);
      EscapeHasNoSlash(b);
      TokenEndsAtSlash(EscapeToken(a), x, EscapeToken(b), y);
      EscapeInjective(a, b);
      SlashPrefix(ps, qs, tail);
    }
  }

  lemma SameAfterSlash(x: string, y: string)
    requires "/" + x == "/" + y
    ensures x == y
  {
    assert ("/" + x)[1..] == x && ("/" + y)[1..] == y;
  }

  lemma StartsWithSlash(p: Path)
    ensures PointerText(p) == "" || PointerText(p)[0] == '/'
    ensures PointerText(p) == "" <==> p == []
  {
    if p != [] { SplitPointer(p); }
  }

  lemma TokenEndsAtSlash(s: string, x: string, t: string, y: string)
    requires '/' !in s && '/' !in t
    requires x == "" || x[0] == '/'
    requires y == "" || y[0] == '/'
    requires s + x == t + y
    ensures s == t && x == y
  {
    var l, r := s + x, t + y;
    assert forall i | 0 <= i < |s| :: l[i] == s[i];
    assert forall i | 0 <= i < |t| :: r[i] == t[i];
    assert x != "" ==> l[|s|] == '/';
    assert y != "" ==> r[|t|] == '/';
    assert |s| == |t|;
    assert l[..|s|] == s && r[..|t|] == t;
    assert l[|s|..] == x && r[|t|..] == y;
  }

  lemma AncestorOwns(p: Path, q: Path)
    requires p <= q
    ensures Owns(Under("#", p), Under("#", q))
  {
    hide PointerText;
    var rest := q[|p|..];
    assert q == p + rest;
    PointerAppend(p, rest);
    StartsWithSlash(rest);
    assert Under("#", q) == Under("#", p) + PointerText(rest);
  }

  lemma OwnerIsAncestor(p: Path, q: Path)
    requires Owns(Under("#", p), Under("#", q))
    ensures p <= q
  {
    hide PointerText;
    var a, b := Under("#", p), Under("#", q);
    StartsWithSlash(p);
    assert PointerText(q) == b[1..] && PointerText(p) == a[1..];
    if p != [] {
      var tail := b[|a|..];
      assert b[1..] == a[1..] + tail;
      SlashPrefix(p, q, tail);
    }
  }

  /** On pointers written from token paths, the text test is the ancestor-or-self test. */
  lemma OwnsIsAncestor(p: Path, q: Path)
    ensures Owns(Under("#", p), Under("#", q)) <==> p <= q
  {
    if p <= q {
      AncestorOwns(p, q);
    }
    if Owns(Under("#", p), Under("#", q)) {
      OwnerIsAncestor(p, q);
    }
  }
}
