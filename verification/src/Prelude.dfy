/** Small shared datatypes and arithmetic used by every model in the project. */
module Prelude {

  datatype Option<+T> = None | Some(value: T)

  /** The source's `Result`, usable with `:-`. */
  datatype Result<+T, +E> = Ok(value: T) | Err(error: E) {
    predicate IsFailure() { Err? }
    function PropagateFailure<U>(): Result<U, E>
      requires Err?
    {
      Err(error)
    }
    function Extract(): T
      requires Ok?
    {
      value
    }
  }

  /** What was collected already, in front of what is still to come. */
  ghost function Prepend<T, E>(done: seq<T>, rest: Result<seq<T>, E>): Result<seq<T>, E> {
    if rest.Err? then rest else Ok(done + rest.value)
  }

  lemma PrependNothing<T, E>(done: seq<T>, rest: Result<seq<T>, E>)
    ensures Prepend([], rest) == rest
    ensures Prepend<T, E>(done, Ok([])) == Ok(done)
  {
    if rest.Ok? { assert [] + rest.value == rest.value; }
    assert done + [] == done;
  }

  lemma PrependOne<T, E>(done: seq<T>, x: T, rest: Result<seq<T>, E>)
    ensures Prepend(done, Prepend([x], rest)) == Prepend(done + [x], rest)
  {
    if rest.Ok? { assert done + ([x] + rest.value) == (done + [x]) + rest.value; }
  }

  lemma PrependFails<T, E>(done: seq<T>, rest: Result<seq<T>, E>)
    ensures rest.Err? ==> Prepend(done, rest) == rest
  {
  }

  const I64_MAX: int := 0x7fff_ffff_ffff_ffff
  const I64_MIN: int := -0x8000_0000_0000_0000
  const U64_MAX: nat := 0xffff_ffff_ffff_ffff

  /** `i64` saturation: the nearest representable value. */
  function Saturate(x: int): int {
    if x > I64_MAX then I64_MAX else if x < I64_MIN then I64_MIN else x
  }

  function Max(a: int, b: int): int {
    if a >= b then a else b
  }

  function NatText(n: nat): string {
    var digit := ['0' + (n % 10) as char];
    if n < 10 then digit else NatText(n / 10) + digit
  }

  /** Decimal rendering of an integer, as `{}` prints it. */
  function IntText(n: int): string {
    if n < 0 then "-" + NatText(-n) else NatText(n)
  }

  predicate StartsWith(s: string, prefix: string) { |prefix| <= |s| && s[..|prefix|] == prefix }

  /** Every upstream identifier that the correlation key joins is free of the separator. */
  predicate BarFree(s: string) { '|' !in s }

  lemma FirstBarSplits(a: string, x: string, b: string, y: string)
    requires BarFree(a) && BarFree(b)
    requires a + "|" + x == b + "|" + y
    ensures a == b && x == y
  {
    var l, r := a + "|" + x, b + "|" + y;
    assert l[|a|] == '|' && r[|b|] == '|';
    assert forall k | 0 <= k < |a| :: l[k] == a[k];
    assert forall k | 0 <= k < |b| :: r[k] == b[k];
    assert l[..|a|] == a && r[..|b|] == b;
    assert l[|a| + 1..] == x && r[|b| + 1..] == y;
  }

  ghost predicate IsLeastInt(s: set<int>, m: int) {
    m in s && forall x | x in s :: m <= x
  }

  lemma EmptyOrInhabited(s: set<int>)
    ensures s == {} || exists x :: x in s
  {
    if forall x :: x !in s { assert s == {}; }
  }

  lemma {:induction false} LeastIntExists(s: set<int>)
    requires s != {}
    ensures exists m :: IsLeastInt(s, m)
    decreases |s|
  {
    EmptyOrInhabited(s);
    var x :| x in s;
    var rest := s - {x};
    if rest == {} {
      assert s == {x};
      assert IsLeastInt(s, x);
    } else {
      LeastIntExists(rest);
      var m :| IsLeastInt(rest, m);
      assert s == rest + {x};
      assert IsLeastInt(s, if x < m then x else m);
    }
  }

  /** The first key a `BTreeMap` with integer keys iterates over. */
  function LeastInt(s: set<int>): (m: int)
    requires s != {}
    ensures IsLeastInt(s, m)
  {
    LeastIntExists(s);
    assert exists m :: m in s && forall x | x in s :: m <= x by {
      var m :| IsLeastInt(s, m);
    }
    var m :| m in s && forall x | x in s :: m <= x;
    m
  }

  /** A position found further on. */
  function Shift(n: nat, found: Option<nat>): Option<nat> {
    if found.None? then None else Some(n + found.value)
  }
}
