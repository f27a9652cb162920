/**
 The canonical text against the grammar of RFC 8259 (sections 3 to 7): it is a JSON text of the value it was
 written from, without blanks and with the members of every object in ascending order of their names.
 */
module JsonGrammar {
  import opened StringOrder
  import opened Json
  import opened CanonicalJson

  // ------------------------------------------------------------------ strings

  /** The letter after a backslash, and the character the two stand for. */
  const SHORT: map<char, char> :=
    map['"' := '"', '\\' := '\\', '/' := '/', 'b' := '\U{0008}', 'f' := '\U{000C}', 'n' := '\n', 'r' := '\r',
        't' := '\t']

  const DIGITS := "0123456789abcdef"

  /** Four hexadecimal digits, in lower case. */
  ghost predicate Hex(t: string, v: nat) {
    && |t| == 4
    && v == 4096 * DigitOf(t[0]) + 256 * DigitOf(t[1]) + 16 * DigitOf(t[2]) + DigitOf(t[3])
    && t[0] in DIGITS && t[1] in DIGITS && t[2] in DIGITS && t[3] in DIGITS
  }

  ghost function DigitOf(c: char): nat {
    if '0' <= c <= '9' then c as int - '0' as int else if 'a' <= c <= 'f' then c as int - 'a' as int + 10 else 0
  }

  ghost predicate CharText(w: string, c: char) {
    || (w == [c] && c as int >= 0x20 && c != '"' && c != '\\')
    || (|w| == 2 && w[0] == '\\' && w[1] in SHORT && SHORT[w[1]] == c)
    || (|w| == 6 && w[0] == '\\' && w[1] == 'u' && Hex(w[2..], c as int))
  }

  ghost predicate CharsText(w: string, s: string)
    decreases |s|
  {
    if s == "" then w == ""
    else exists k | 0 < k <= |w| :: CharText(w[..k], s[0]) && CharsText(w[k..], s[1..])
  }

  ghost predicate StringText(w: string, s: string) {
    |w| >= 2 && w[0] == '"' && w[|w| - 1] == '"' && CharsText(w[1..|w| - 1], s)
  }

  // ------------------------------------------------------------------ values

  function Commas(parts: seq<string>): string {
    if parts == [] then "" else if |parts| == 1 then parts[0] else parts[0] + ("," + Commas(parts[1..]))
  }

  /** A member: its name, a colon and its value. */
  ghost predicate MemberText(w: string, value: string, key: string) {
    exists name :: StringText(name, key) && w == name + (":" + value)
  }

  ghost predicate ValuesText(parts: seq<string>, items: seq<Json>)
    decreases items, 0
  {
    |parts| == |items| && forall i | 0 <= i < |items| :: ValueText(parts[i], items[i])
  }

  /** Each member of the object once, in ascending order of the names. */
  ghost predicate MembersText(parts: seq<string>, values: seq<string>, keys: seq<string>, j: Json)
    decreases j, 0
  {
    && j.Object? && Ascending(keys) && (forall k :: k in keys <==> k in j.members)
    && |parts| == |values| == |keys|
    && forall i | 0 <= i < |keys| ::
         && keys[i] in j.members && MemberText(parts[i], values[i], keys[i])
         && ValueText(values[i], j.members[keys[i]])
  }

  ghost predicate ValueText(t: string, j: Json)
    decreases j, 1
  {
    match j
    case Null => t == "null"
    case Bool(b) => t == if b then "true" else "false"
    case Number(token) => t == token
    case String(s) => StringText(t, s)
    case Array(items) => exists parts :: ValuesText(parts, items) && t == "[" + Commas(parts) + "]"
    case Object(_) =>
      exists keys, values, parts :: MembersText(parts, values, keys, j) && t == "{" + Commas(parts) + "}"
  }

  // ------------------------------------------------------------------ the canonical text is one

  lemma UnitIsText(c: char)
    ensures CharText(Unit(c), c)
  {
    var n := c as int;
    if n < 0x20 && n != 0x08 && n != 0x09 && n != 0x0a && n != 0x0c && n != 0x0d {
      var w := ControlEscape(n);
      assert w[2..] == ['0', '0', HexDigit(n / 16), HexDigit(n % 16)];
      DigitIsRead(n / 16);
      DigitIsRead(n % 16);
      assert DIGITS[0] == '0';
    }
  }

  lemma DigitIsRead(d: nat)
    requires d < 16
    ensures DigitOf(HexDigit(d)) == d && HexDigit(d) in DIGITS
  {
    assert DIGITS[d] == HexDigit(d);
  }

  lemma {:induction false} EscapedIsText(s: string)
    ensures CharsText(Escaped(s), s)
  {
    hide Unit, CharText;
    if s != "" {
      var w, rest := Unit(s[0]), Escaped(s[1..]);
      UnitIsText(s[0]);
      EscapedIsText(s[1..]);
      assert (w + rest)[..|w|] == w && (w + rest)[|w|..] == rest;
    }
  }

  lemma QuotedIsText(s: string)
    ensures StringText(Quoted(s), s)
  {
    hide Escaped, CharsText;
    EscapedIsText(s);
    var w := Quoted(s);
    assert w[1..|w| - 1] == Escaped(s);
  }

  function Canonicals(items: seq<Json>): (parts: seq<string>)
    ensures |parts| == |items| && forall i | 0 <= i < |items| :: parts[i] == Canonical(items[i])
  {
    seq(|items|, i requires 0 <= i < |items| => Canonical(items[i]))
  }

  lemma {:induction false} TailIsCommas(items: seq<Json>)
    requires items != []
    ensures Canonical(items[0]) + Tail(items[1..]) == Commas(Canonicals(items))
  {
    hide Canonical;
    var parts := Canonicals(items);
    if |items| == 1 {
      assert Canonical(items[0]) + "" == Canonical(items[0]);
    } else {
      TailIsCommas(items[1..]);
      assert parts[1..] == Canonicals(items[1..]);
      assert items[1..][1..] == items[1..][1..];
    }
  }

  function Members(j: Json, keys: seq<string>): (parts: seq<string>)
    requires Names(j, keys)
    ensures |parts| == |keys| && forall i | 0 <= i < |keys| :: parts[i] == Pair(j, keys[i])
  {
    seq(|keys|, i requires 0 <= i < |keys| => Pair(j, keys[i]))
  }

  lemma {:induction false} PairTailIsCommas(j: Json, keys: seq<string>)
    requires Names(j, keys) && keys != []
    ensures Pair(j, keys[0]) + PairTail(j, keys[1..]) == Commas(Members(j, keys))
  {
    hide Pair;
    var parts := Members(j, keys);
    if |keys| == 1 {
      assert Pair(j, keys[0]) + "" == Pair(j, keys[0]);
    } else {
      PairTailIsCommas(j, keys[1..]);
      assert parts[1..] == Members(j, keys[1..]);
    }
  }

  lemma ArrayIsText(t: string, parts: seq<string>, items: seq<Json>)
    requires ValuesText(parts, items) && t == "[" + Commas(parts) + "]"
    ensures ValueText(t, Array(items))
  {
    hide ValuesText, Commas;
  }

  lemma ObjectIsText(t: string, parts: seq<string>, values: seq<string>, keys: seq<string>, j: Json)
    requires MembersText(parts, values, keys, j) && t == "{" + Commas(parts) + "}" && j.Object?
    ensures ValueText(t, j)
  {
    hide MembersText, Commas;
  }

  lemma ElementsAreCommas(items: seq<Json>)
    ensures Canonical(Array(items)) == "[" + Commas(Canonicals(items)) + "]"
  {
    hide Tail;
    if items == [] { assert Canonicals(items) == []; } else { TailIsCommas(items); }
  }

  lemma PairsAreCommas(j: Json, keys: seq<string>)
    requires j.Object? && keys == Sorted(j.members.Keys) && Names(j, keys)
    ensures Canonical(j) == "{" + Commas(Members(j, keys)) + "}"
  {
    hide PairTail, Pair;
    if keys == [] { assert Members(j, keys) == []; } else { PairTailIsCommas(j, keys); }
  }

  lemma PairIsText(j: Json, key: string)
    requires j.Object? && key in j.members
    ensures MemberText(Pair(j, key), Canonical(j.members[key]), key)
  {
    hide StringText, CanonicalJson.Quoted, Canonical;
    QuotedIsText(key);
  }

  /** The canonical text of a value is a JSON text of it. */
  lemma {:induction false} CanonicalIsText(j: Json)
    ensures ValueText(Canonical(j), j)
    decreases j
  {
    match j {
      case String(s) => QuotedIsText(s);
      case Array(items) => ItemsAreText(j);
      case Object(_) => MembersAreText(j);
      case _ =>
    }
  }

  lemma {:induction false} ItemsAreText(j: Json)
    requires j.Array?
    ensures ValueText(Canonical(j), j)
    decreases j, 0
  {
    hide Canonical, ValueText, Commas;
    var items := j.items;
    var parts := Canonicals(items);
    forall i | 0 <= i < |items| ensures ValueText(parts[i], items[i]) { CanonicalIsText(items[i]); }
    ElementsAreCommas(items);
    ArrayIsText(Canonical(j), parts, items);
  }

  lemma {:induction false} MembersAreText(j: Json)
    requires j.Object?
    ensures ValueText(Canonical(j), j)
    decreases j, 0
  {
    hide Canonical, ValueText, Commas, MemberText, Pair, Sorted;
    var m := j.members;
    var keys := Sorted(m.Keys);
    assert forall k :: k in keys <==> k in m.Keys;
    assert Names(j, keys);
    var parts := Members(j, keys);
    var values := seq(|keys|, i requires 0 <= i < |keys| => Canonical(m[keys[i]]));
    forall i | 0 <= i < |keys|
      ensures MemberText(parts[i], values[i], keys[i]) && ValueText(values[i], m[keys[i]])
    {
      PairIsText(j, keys[i]);
      CanonicalIsText(m[keys[i]]);
    }
    PairsAreCommas(j, keys);
    ObjectIsText(Canonical(j), parts, values, keys, j);
  }
}
