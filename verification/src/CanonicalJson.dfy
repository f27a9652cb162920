/**
 The canonical text that is hashed into a surface digest (xtask/src/schema_surface.rs:1237-1275),
 written character by character; strings are escaped as in section 7 of RFC 8259, and the keys of an
 object are written in ascending order. The text determines the value.
 */
module CanonicalJson {
  import opened StringOrder
  import opened Json

  // ------------------------------------------------------------------ the text of a string

  function HexDigit(n: nat): char
    requires n < 16
  {
    if n < 10 then '0' + n as char else 'a' + (n - 10) as char
  }

  function ControlEscape(n: nat): string
    requires n < 0x20
  {
    "\\u00" + [HexDigit(n / 16), HexDigit(n % 16)]
  }

  /** The escaped form of one character. */
  function Unit(c: char): (u: string)
    ensures u != ""
  {
    if c == '"' then "\\\""
    else if c == '\\' then "\\\\"
    else if c as int == 0x08 then "\\b"
    else if c as int == 0x0c then "\\f"
    else if c == '\n' then "\\n"
    else if c == '\r' then "\\r"
    else if c == '\t' then "\\t"
    else if c as int < 0x20 then ControlEscape(c as int)
    else [c]
  }

  function Escaped(s: string): string {
    if s == "" then "" else Unit(s[0]) + Escaped(s[1..])
  }

  function Quoted(s: string): string { "\"" + Escaped(s) + "\"" }

  // ------------------------------------------------------------------ the text of a value

  function Canonical(j: Json): string
    decreases j, 1, 0
  {
    match j
    case Null => "null"
    case Bool(b) => if b then "true" else "false"
    case Number(t) => t
    case String(s) => Quoted(s)
    case Array(items) => "[" + Elements(items) + "]"
    case Object(m) => "{" + Pairs(j, Sorted(m.Keys)) + "}"
  }

  function Elements(items: seq<Json>): string
    decreases items, 0, 1
  {
    if items == [] then "" else Canonical(items[0]) + Tail(items[1..])
  }

  function Tail(items: seq<Json>): string
    decreases items, 0, 0
  {
    if items == [] then "" else "," + (Canonical(items[0]) + Tail(items[1..]))
  }

  function Pair(j: Json, key: string): string
    requires j.Object? && key in j.members
    decreases j, 0, 0
  {
    Quoted(key) + (":" + Canonical(j.members[key]))
  }

  function Pairs(j: Json, keys: seq<string>): string
    requires Names(j, keys)
    decreases j, 0, |keys| + 1
  {
    if keys == [] then "" else Pair(j, keys[0]) + PairTail(j, keys[1..])
  }

  function PairTail(j: Json, keys: seq<string>): string
    requires Names(j, keys)
    decreases j, 0, |keys|
  {
    if keys == [] then "" else "," + (Pair(j, keys[0]) + PairTail(j, keys[1..]))
  }

  // ------------------------------------------------------------------ the writer

  /** Appends the canonical text of a value to a buffer. */
  method WriteCanonical(j: Json, buffer: string) returns (output: string)
    ensures output == buffer + Canonical(j)
    decreases j, 1, 0
  {
    match j
    case Null => output := buffer + "null";
    case Bool(b) => output := buffer + if b then "true" else "false";
    case Number(t) => output := buffer + t;
    case String(s) => output := buffer + Quoted(s);
    case Array(items) =>
      output := WriteElements(items, buffer + "[");
      output := output + "]";
    case Object(m) =>
      output := WritePairs(j, buffer + "{");
      output := output + "}";
  }

  method WriteElements(items: seq<Json>, buffer: string) returns (output: string)
    ensures output == buffer + Elements(items)
    decreases items, 0, 0
  {
    output := buffer;
    for i := 0 to |items|
      invariant output == buffer + Elements(items[..i])
    {
      if i != 0 {
        output := output + ",";
      }
      output := WriteCanonical(items[i], output);
      ElementsGrow(items[..i], items[i]);
      assert items[..i + 1] == items[..i] + [items[i]];
    }
    assert items[..|items|] == items;
  }

  method WritePair(j: Json, key: string, buffer: string) returns (output: string)
    requires j.Object? && key in j.members
    ensures output == buffer + Pair(j, key)
    decreases j, 0, 0
  {
    output := buffer + Quoted(key);
    output := output + ":";
    output := WriteCanonical(j.members[key], output);
  }

  method WritePairs(j: Json, buffer: string) returns (output: string)
    requires j.Object?
    ensures output == buffer + Pairs(j, Sorted(j.members.Keys))
    decreases j, 0, 1
  {
    hide Sorted, Pair;
    output := buffer;
    var keys := Sorted(j.members.Keys);
    assert Names(j, keys);
    for i := 0 to |keys|
      invariant output == buffer + Pairs(j, keys[..i])
    {
      if i != 0 {
        output := output + ",";
      }
      output := WritePair(j, keys[i], output);
      PairsGrow(j, keys[..i], keys[i]);
      assert keys[..i + 1] == keys[..i] + [keys[i]];
    }
    assert keys[..|keys|] == keys;
  }

  lemma {:induction false} TailGrows(items: seq<Json>, last: Json)
    ensures Tail(items + [last]) == Tail(items) + "," + Canonical(last)
  {
    if items == [] {
      assert items + [last] == [last];
      assert Tail([last]) == "," + (Canonical(last) + Tail([]));
    } else {
      assert (items + [last])[1..] == items[1..] + [last];
      TailGrows(items[1..], last);
    }
  }

  lemma ElementsGrow(items: seq<Json>, last: Json)
    ensures Elements(items + [last]) == Elements(items) + (if items == [] then "" else ",") + Canonical(last)
  {
    if items == [] {
      assert items + [last] == [last];
      assert [last][1..] == [];
    } else {
      assert (items + [last])[1..] == items[1..] + [last];
      TailGrows(items[1..], last);
    }
  }

  lemma {:induction false} PairTailGrows(j: Json, keys: seq<string>, last: string)
    requires Names(j, keys) && last in j.members
    ensures PairTail(j, keys + [last]) == PairTail(j, keys) + "," + Pair(j, last)
  {
    if keys == [] {
      assert keys + [last] == [last];
      assert PairTail(j, [last]) == "," + (Pair(j, last) + PairTail(j, []));
    } else {
      assert (keys + [last])[1..] == keys[1..] + [last];
      PairTailGrows(j, keys[1..], last);
    }
  }

  lemma PairsGrow(j: Json, keys: seq<string>, last: string)
    requires Names(j, keys) && last in j.members
    ensures Pairs(j, keys + [last]) == Pairs(j, keys) + (if keys == [] then "" else ",") + Pair(j, last)
  {
    if keys == [] {
      assert keys + [last] == [last];
      assert [last][1..] == [];
    } else {
      assert (keys + [last])[1..] == keys[1..] + [last];
      PairTailGrows(j, keys[1..], last);
    }
  }

  // ------------------------------------------------------------------ the text determines the value

  lemma CancelPrefix(p: string, x: string, y: string)
    requires p + x == p + y
    ensures x == y
  {
    assert (p + x)[|p|..] == x && (p + y)[|p|..] == y;
  }

  /** Two concatenations that agree, with first parts of equal length. */
  lemma CancelSameLength(p: string, q: string, x: string, y: string)
    requires p + x == q + y && |p| == |q|
    ensures p == q && x == y
  {
    assert (p + x)[..|p|] == p && (q + y)[..|q|] == q;
    CancelPrefix(p, x, y);
  }

  lemma UnitLength(c: char, d: char, x: string, y: string)
    requires Unit(c) + x == Unit(d) + y
    ensures |Unit(c)| == |Unit(d)|
  {
    var l, r := Unit(c) + x, Unit(d) + y;
    assert l[0] == Unit(c)[0] && r[0] == Unit(d)[0];
    if Unit(c)[0] == '\\' {
      assert l[1] == Unit(c)[1] && r[1] == Unit(d)[1];
    }
  }

  lemma UnitInjective(c: char, d: char)
    requires Unit(c) == Unit(d)
    ensures c == d
  {
    if |Unit(c)| == 6 {
      assert Unit(c)[4] == HexDigit(c as int / 16) && Unit(c)[5] == HexDigit(c as int % 16);
      assert Unit(d)[4] == HexDigit(d as int / 16) && Unit(d)[5] == HexDigit(d as int % 16);
    } else {
      assert Unit(c)[0] == Unit(d)[0];
      if |Unit(c)| == 2 { assert Unit(c)[1] == Unit(d)[1]; }
    }
  }

  lemma UnitUnique(c: char, d: char, x: string, y: string)
    requires Unit(c) + x == Unit(d) + y
    ensures c == d && x == y
  {
    UnitLength(c, d, x, y);
    CancelSameLength(Unit(c), Unit(d), x, y);
    UnitInjective(c, d);
  }

  /** An escaped string ends at the first quote that no escape introduces. */
  lemma EndsAtQuote(s: string, x: string)
    ensures (Escaped(s) + ("\"" + x))[0] == '"' <==> s == ""
  {
    if s != "" {
      assert (Escaped(s) + ("\"" + x))[0] == Unit(s[0])[0];
    }
  }

  lemma EscapedSplits(s: string, x: string)
    requires s != ""
    ensures Escaped(s) + ("\"" + x) == Unit(s[0]) + (Escaped(s[1..]) + ("\"" + x))
  {
    hide Unit;
  }

  lemma {:induction false} EscapedUnique(s: string, t: string, x: string, y: string)
    requires Escaped(s) + ("\"" + x) == Escaped(t) + ("\"" + y)
    ensures s == t && x == y
  {
    hide Unit;
    EndsAtQuote(s, x);
    EndsAtQuote(t, y);
    if s == "" {
      assert Escaped("") + ("\"" + x) == "\"" + x;
      assert Escaped("") + ("\"" + y) == "\"" + y;
      CancelPrefix("\"", x, y);
    } else {
      EscapedSplits(s, x);
      EscapedSplits(t, y);
      UnitUnique(s[0], t[0], Escaped(s[1..]) + ("\"" + x), Escaped(t[1..]) + ("\"" + y));
      EscapedUnique(s[1..], t[1..], x, y);
      assert s == [s[0]] + s[1..] && t == [t[0]] + t[1..];
    }
  }

  lemma QuotedSplits(s: string, x: string)
    ensures Quoted(s) + x == "\"" + (Escaped(s) + ("\"" + x))
  {
    hide Escaped;
  }

  lemma QuotedUnique(s: string, t: string, x: string, y: string)
    requires Quoted(s) + x == Quoted(t) + y
    ensures s == t && x == y
  {
    hide Quoted, Escaped;
    QuotedSplits(s, x);
    QuotedSplits(t, y);
    CancelPrefix("\"", Escaped(s) + ("\"" + x), Escaped(t) + ("\"" + y));
    EscapedUnique(s, t, x, y);
  }

  /** What may follow a value: nothing, or the punctuation that ends it. */
  predicate Delimited(x: string) {
    x == "" || x[0] == ',' || x[0] == ']' || x[0] == '}'
  }

  lemma NumberUnique(t: string, u: string, x: string, y: string)
    requires IsNumberToken(t) && IsNumberToken(u) && Delimited(x) && Delimited(y)
    requires t + x == u + y
    ensures t == u && x == y
  {
    var l, r := t + x, u + y;
    assert forall i | 0 <= i < |t| :: IsNumberChar(l[i]) && l[i] == t[i];
    assert forall i | 0 <= i < |u| :: IsNumberChar(r[i]) && r[i] == u[i];
    assert x != "" ==> l[|t|] == x[0];
    assert y != "" ==> r[|u|] == y[0];
    assert |t| == |u|;
    CancelSameLength(t, u, x, y);
  }

  /** The first character of a value tells its kind. */
  lemma FirstChar(j: Json)
    requires WellFormed(j)
    ensures Canonical(j) != ""
    ensures
      var c := Canonical(j)[0];
      match j
      case Null => c == 'n'
      case Bool(b) => c == if b then 't' else 'f'
      case Number(_) => IsNumberChar(c)
      case String(_) => c == '"'
      case Array(_) => c == '['
      case Object(_) => c == '{'
  {
  }

  ghost predicate AllWellFormed(items: seq<Json>) {
    forall i | 0 <= i < |items| :: WellFormed(items[i])
  }

  lemma SameKind(a: Json, b: Json, x: string, y: string)
    requires WellFormed(a) && WellFormed(b)
    requires Canonical(a) + x == Canonical(b) + y
    ensures a.Null? == b.Null? && a.Bool? == b.Bool? && (a.Bool? ==> a == b) && a.Number? == b.Number?
    ensures a.String? == b.String? && a.Array? == b.Array? && a.Object? == b.Object?
  {
    hide Canonical;
    FirstChar(a);
    FirstChar(b);
    assert (Canonical(a) + x)[0] == Canonical(a)[0] && (Canonical(b) + y)[0] == Canonical(b)[0];
  }

  /** A list of elements ends at its closing bracket. */
  lemma TailEnds(items: seq<Json>, x: string)
    ensures (Tail(items) + ("]" + x))[0] == ']' <==> items == []
    ensures Delimited(Tail(items) + ("]" + x))
  {
    if items != [] { assert Tail(items)[0] == ','; }
  }

  lemma TailSplits(items: seq<Json>, x: string)
    requires items != []
    ensures Tail(items) + ("]" + x) == "," + (Canonical(items[0]) + (Tail(items[1..]) + ("]" + x)))
  {
    hide Canonical;
  }

  lemma PairTailEnds(j: Json, keys: seq<string>, x: string)
    requires Names(j, keys)
    ensures (PairTail(j, keys) + ("}" + x))[0] == '}' <==> keys == []
    ensures Delimited(PairTail(j, keys) + ("}" + x))
  {
    if keys != [] { assert PairTail(j, keys)[0] == ','; }
  }

  lemma PairTailSplits(j: Json, keys: seq<string>, x: string)
    requires Names(j, keys) && keys != []
    ensures PairTail(j, keys) + ("}" + x) == "," + (Pair(j, keys[0]) + (PairTail(j, keys[1..]) + ("}" + x)))
  {
    hide Pair;
  }

  lemma PairSplits(j: Json, key: string, x: string)
    requires j.Object? && key in j.members
    ensures Pair(j, key) + x == Quoted(key) + (":" + (Canonical(j.members[key]) + x))
  {
    hide Canonical, Quoted;
  }

  lemma ArraySplits(items: seq<Json>, x: string)
    ensures Canonical(Array(items)) + x == "[" + (Elements(items) + ("]" + x))
  {
    hide Elements;
  }

  lemma ObjectSplits(j: Json, x: string)
    requires j.Object?
    ensures Canonical(j) + x == "{" + (Pairs(j, Sorted(j.members.Keys)) + ("}" + x))
  {
    hide Pairs, Sorted;
  }

  /** Followed by what may follow a value, the canonical text can be read back in one way only. */
  lemma {:induction false} CanonicalUnique(a: Json, b: Json, x: string, y: string)
    requires WellFormed(a) && WellFormed(b) && Delimited(x) && Delimited(y)
    requires Canonical(a) + x == Canonical(b) + y
    ensures a == b && x == y
    decreases a, 1, 0
  {
    SameKind(a, b, x, y);
    match a
    case Null => CancelPrefix("null", x, y);
    case Bool(v) => CancelPrefix(Canonical(a), x, y);
    case Number(t) => NumberUnique(t, b.token, x, y);
    case String(t) => QuotedUnique(t, b.text, x, y);
    case Array(items) =>
      ArraySplits(items, x);
      ArraySplits(b.items, y);
      CancelPrefix("[", Elements(items) + ("]" + x), Elements(b.items) + ("]" + y));
      ElementsUnique(items, b.items, x, y);
    case Object(m) =>
      ObjectSplits(a, x);
      ObjectSplits(b, y);
      var keys, keys' := Sorted(m.Keys), Sorted(b.members.Keys);
      CancelPrefix("{", Pairs(a, keys) + ("}" + x), Pairs(b, keys') + ("}" + y));
      PairsUnique(a, b, keys, keys', x, y);
      SameMembers(a, b, keys);
  }

  lemma SameMembers(a: Json, b: Json, keys: seq<string>)
    requires a.Object? && b.Object?
    requires keys == Sorted(a.members.Keys) && keys == Sorted(b.members.Keys)
    requires forall i | 0 <= i < |keys| :: a.members[keys[i]] == b.members[keys[i]]
    ensures a == b
  {
    hide Sorted;
    assert forall k :: k in a.members.Keys <==> k in keys;
    assert forall k :: k in b.members.Keys <==> k in keys;
    assert a.members == b.members;
  }

  lemma {:induction false} ElementsUnique(xs: seq<Json>, ys: seq<Json>, x: string, y: string)
    requires AllWellFormed(xs) && AllWellFormed(ys)
    requires Elements(xs) + ("]" + x) == Elements(ys) + ("]" + y)
    ensures xs == ys && x == y
    decreases xs, 0, 1
  {
    hide Elements, Tail, Canonical;
    ElementsEnd(xs, x);
    ElementsEnd(ys, y);
    if xs == [] {
      ElementsSplit(xs, x);
      ElementsSplit(ys, y);
      CancelPrefix("]", x, y);
    } else {
      var x', y' := Tail(xs[1..]) + ("]" + x), Tail(ys[1..]) + ("]" + y);
      ElementsSplit(xs, x);
      ElementsSplit(ys, y);
      TailEnds(xs[1..], x);
      TailEnds(ys[1..], y);
      CanonicalUnique(xs[0], ys[0], x', y');
      TailUnique(xs[1..], ys[1..], x, y);
      assert xs == [xs[0]] + xs[1..] && ys == [ys[0]] + ys[1..];
    }
  }

  lemma ElementsSplit(items: seq<Json>, x: string)
    ensures items == [] ==> Elements(items) + ("]" + x) == "]" + x
    ensures items != [] ==> Elements(items) + ("]" + x) == Canonical(items[0]) + (Tail(items[1..]) + ("]" + x))
  {
    hide Canonical, Tail;
  }

  lemma ElementsEnd(items: seq<Json>, x: string)
    requires AllWellFormed(items)
    ensures (Elements(items) + ("]" + x))[0] == ']' <==> items == []
  {
    if items != [] {
      FirstChar(items[0]);
      assert (Elements(items) + ("]" + x))[0] == Canonical(items[0])[0];
    }
  }

  lemma {:induction false} TailUnique(xs: seq<Json>, ys: seq<Json>, x: string, y: string)
    requires AllWellFormed(xs) && AllWellFormed(ys)
    requires Tail(xs) + ("]" + x) == Tail(ys) + ("]" + y)
    ensures xs == ys && x == y
    decreases xs, 0, 0
  {
    TailEnds(xs, x);
    TailEnds(ys, y);
    if xs == [] {
      assert Tail(xs) + ("]" + x) == "]" + x && Tail(ys) + ("]" + y) == "]" + y;
      CancelPrefix("]", x, y);
    } else {
      TailSplits(xs, x);
      TailSplits(ys, y);
      var x', y' := Tail(xs[1..]) + ("]" + x), Tail(ys[1..]) + ("]" + y);
      CancelPrefix(",", Canonical(xs[0]) + x', Canonical(ys[0]) + y');
      TailEnds(xs[1..], x);
      TailEnds(ys[1..], y);
      CanonicalUnique(xs[0], ys[0], x', y');
      TailUnique(xs[1..], ys[1..], x, y);
      assert xs == [xs[0]] + xs[1..] && ys == [ys[0]] + ys[1..];
    }
  }

  lemma PairUnique(a: Json, b: Json, k: string, k': string, x: string, y: string)
    requires WellFormed(a) && WellFormed(b) && a.Object? && b.Object? && k in a.members && k' in b.members
    requires Delimited(x) && Delimited(y)
    requires Pair(a, k) + x == Pair(b, k') + y
    ensures k == k' && a.members[k] == b.members[k'] && x == y
    decreases a, 0, 0
  {
    hide Pair, Canonical, Quoted;
    PairSplits(a, k, x);
    PairSplits(b, k', y);
    var v, v' := Canonical(a.members[k]) + x, Canonical(b.members[k']) + y;
    QuotedUnique(k, k', ":" + v, ":" + v');
    CancelPrefix(":", v, v');
    CanonicalUnique(a.members[k], b.members[k'], x, y);
  }

  lemma {:induction false} PairsUnique(a: Json, b: Json, keys: seq<string>, keys': seq<string>, x: string, y: string)
    requires WellFormed(a) && WellFormed(b) && Names(a, keys) && Names(b, keys')
    requires Pairs(a, keys) + ("}" + x) == Pairs(b, keys') + ("}" + y)
    ensures keys == keys' && x == y
    ensures forall i | 0 <= i < |keys| :: a.members[keys[i]] == b.members[keys[i]]
    decreases a, 0, |keys| + 1
  {
    hide Pair, WellFormed;
    PairsEnd(a, keys, x);
    PairsEnd(b, keys', y);
    if keys == [] {
      assert Pairs(a, keys) + ("}" + x) == "}" + x && Pairs(b, keys') + ("}" + y) == "}" + y;
      CancelPrefix("}", x, y);
    } else {
      var x', y' := PairTail(a, keys[1..]) + ("}" + x), PairTail(b, keys'[1..]) + ("}" + y);
      PairsSplit(a, keys, x);
      PairsSplit(b, keys', y);
      PairTailEnds(a, keys[1..], x);
      PairTailEnds(b, keys'[1..], y);
      PairUnique(a, b, keys[0], keys'[0], x', y');
      PairTailUnique(a, b, keys[1..], keys'[1..], x, y);
      assert keys == [keys[0]] + keys[1..] && keys' == [keys'[0]] + keys'[1..];
    }
  }

  lemma PairsSplit(j: Json, keys: seq<string>, x: string)
    requires Names(j, keys) && keys != []
    ensures Pairs(j, keys) + ("}" + x) == Pair(j, keys[0]) + (PairTail(j, keys[1..]) + ("}" + x))
  {
    hide Pair, PairTail;
  }

  lemma PairsEnd(j: Json, keys: seq<string>, x: string)
    requires Names(j, keys)
    ensures (Pairs(j, keys) + ("}" + x))[0] == '}' <==> keys == []
  {
    if keys != [] {
      assert Pair(j, keys[0])[0] == '"';
      assert (Pairs(j, keys) + ("}" + x))[0] == Pair(j, keys[0])[0];
    }
  }

  lemma {:induction false} PairTailUnique(a: Json, b: Json, keys: seq<string>, keys': seq<string>, x: string, y: string)
    requires WellFormed(a) && WellFormed(b) && Names(a, keys) && Names(b, keys')
    requires PairTail(a, keys) + ("}" + x) == PairTail(b, keys') + ("}" + y)
    ensures keys == keys' && x == y
    ensures forall i | 0 <= i < |keys| :: a.members[keys[i]] == b.members[keys[i]]
    decreases a, 0, |keys|
  {
    PairTailEnds(a, keys, x);
    PairTailEnds(b, keys', y);
    if keys == [] {
      assert PairTail(a, keys) + ("}" + x) == "}" + x && PairTail(b, keys') + ("}" + y) == "}" + y;
      CancelPrefix("}", x, y);
    } else {
      PairTailSplits(a, keys, x);
      PairTailSplits(b, keys', y);
      var x', y' := PairTail(a, keys[1..]) + ("}" + x), PairTail(b, keys'[1..]) + ("}" + y);
      CancelPrefix(",", Pair(a, keys[0]) + x', Pair(b, keys'[0]) + y');
      PairTailEnds(a, keys[1..], x);
      PairTailEnds(b, keys'[1..], y);
      PairUnique(a, b, keys[0], keys'[0], x', y');
      PairTailUnique(a, b, keys[1..], keys'[1..], x, y);
      assert keys == [keys[0]] + keys[1..] && keys' == [keys'[0]] + keys'[1..];
    }
  }

  /** Equal canonical texts come from equal values. */
  lemma CanonicalInjective(a: Json, b: Json)
    requires WellFormed(a) && WellFormed(b)
    ensures Canonical(a) == Canonical(b) <==> a == b
  {
    if Canonical(a) == Canonical(b) {
      CanonicalUnique(a, b, "", "");
    }
  }
}
