/**
 The two hand-written `*` matchers (xtask/src/deps.rs:1503-1533, xtask/src/antipattern.rs:979-1012).
 Both compare bytes before they look for a star, and both remember only the last star. On every input
 they compute `Reads`; `Reads` is the declarative `Matches` except where a star of the pattern meets a
 star of the candidate, which it then takes literally. Which patterns and which candidates are safe is
 stated exactly.
 */
module Glob {
  import opened Prelude

  type Byte = b: int | 0 <= b < 256

  const STAR: Byte := 42

  type Bytes = seq<Byte>

  predicate StarFree(v: Bytes) { forall i | 0 <= i < |v| :: v[i] != STAR }

  // ------------------------------------------------------------------ what a pattern means

  function Stars(p: Bytes): nat {
    if p == [] then 0 else (if p[0] == STAR then 1 else 0) + Stars(p[1..])
  }

  /** The pattern with its stars replaced, in order, by the given bytes. */
  function Fill(p: Bytes, fills: seq<Bytes>): Bytes
    requires |fills| == Stars(p)
  {
    if p == [] then []
    else if p[0] == STAR then fills[0] + Fill(p[1..], fills[1..])
    else [p[0]] + Fill(p[1..], fills)
  }

  /** Some split of the candidate fills the stars. */
  ghost predicate Matches(p: Bytes, v: Bytes) {
    exists fills: seq<Bytes> :: |fills| == Stars(p) && Fill(p, fills) == v
  }

  /** A star stands for any bytes, but a star that meets a star stands for that star. */
  ghost predicate Reads(p: Bytes, v: Bytes)
    decreases |p|
  {
    if p == [] then v == []
    else if v != [] && p[0] == v[0] then Reads(p[1..], v[1..])
    else p[0] == STAR && exists k | 0 <= k <= |v| :: Reads(p[1..], v[k..])
  }

  lemma MatchesStar(p: Bytes, v: Bytes, k: nat)
    requires p != [] && p[0] == STAR && k <= |v| && Matches(p[1..], v[k..])
    ensures Matches(p, v)
  {
    var fills: seq<Bytes> :| |fills| == Stars(p[1..]) && Fill(p[1..], fills) == v[k..];
    var all := [v[..k]] + fills;
    assert all[1..] == fills && v[..k] + v[k..] == v;
    assert Fill(p, all) == v;
  }

  lemma MatchesByte(p: Bytes, v: Bytes)
    requires p != [] && v != [] && p[0] == v[0] && p[0] != STAR
    ensures Matches(p, v) <==> Matches(p[1..], v[1..])
  {
    forall fills: seq<Bytes> | |fills| == Stars(p) ensures Fill(p, fills) == v <==> Fill(p[1..], fills) == v[1..] {
      assert v == [v[0]] + v[1..];
      assert ([p[0]] + Fill(p[1..], fills))[1..] == Fill(p[1..], fills);
    }
  }

  lemma StarMatches(p: Bytes, v: Bytes) returns (k: nat)
    requires p != [] && p[0] == STAR && Matches(p, v)
    ensures k <= |v| && Matches(p[1..], v[k..])
  {
    var fills: seq<Bytes> :| |fills| == Stars(p) && Fill(p, fills) == v;
    k := |fills[0]|;
    assert v[k..] == Fill(p[1..], fills[1..]);
  }

  /** What the loops accept is a match, on every input. */
  lemma {:induction false} ReadsIsSound(p: Bytes, v: Bytes)
    requires Reads(p, v)
    ensures Matches(p, v)
    decreases |p|
  {
    if p == [] {
      assert Fill(p, []) == v;
    } else if v != [] && p[0] == v[0] {
      ReadsIsSound(p[1..], v[1..]);
      if p[0] == STAR { MatchesStar(p, v, 1); } else { MatchesByte(p, v); }
    } else {
      var k :| 0 <= k <= |v| && Reads(p[1..], v[k..]);
      ReadsIsSound(p[1..], v[k..]);
      MatchesStar(p, v, k);
    }
  }

  /** A star of the candidate, if there is one, is its last byte. */
  predicate StarOnlyLast(v: Bytes) { forall i | 0 <= i < |v| - 1 :: v[i] != STAR }

  lemma {:induction false} MatchingAStar(p: Bytes)
    requires Matches(p, [STAR]) || Matches(p, [])
    ensures Reads(p, [])
    decreases |p|
  {
    var none, one: Bytes := [], [STAR];
    var v := if Matches(p, none) then none else one;
    var fills: seq<Bytes> :| |fills| == Stars(p) && Fill(p, fills) == v;
    if p != [] {
      assert p[0] == STAR;
      var k := StarMatches(p, v);
      assert v[k..] == none || v[k..] == one;
      MatchingAStar(p[1..]);
      assert none[0..] == none;
    }
  }

  /** Where a star of the pattern can meet at most the last byte as a star, every match is accepted. */
  lemma {:induction false} ReadsIsComplete(p: Bytes, v: Bytes)
    requires StarFree(p) || StarOnlyLast(v)
    requires Matches(p, v)
    ensures Reads(p, v)
    decreases |p|
  {
    var fills: seq<Bytes> :| |fills| == Stars(p) && Fill(p, fills) == v;
    if p != [] {
      if p[0] == STAR {
        var k := StarMatches(p, v);
        if v != [] && v[0] == STAR {
          assert v == [STAR] && (v[k..] == [] || v[k..] == [STAR]);
          MatchingAStar(p[1..]);
        } else {
          ReadsIsComplete(p[1..], v[k..]);
        }
      } else {
        assert v[0] == p[0];
        MatchesByte(p, v);
        ReadsIsComplete(p[1..], v[1..]);
      }
    }
  }

  /** The loops decide the meaning of star-free patterns, and on candidates with no star before the last byte. */
  lemma ReadsIffMatches(p: Bytes, v: Bytes)
    requires StarFree(p) || StarOnlyLast(v)
    ensures Reads(p, v) <==> Matches(p, v)
  {
    if Reads(p, v) { ReadsIsSound(p, v); }
    if Matches(p, v) { ReadsIsComplete(p, v); }
  }

  /** Bytes that pattern and candidate share at the front, stars included, are read off one by one. */
  lemma {:induction false} SharedFront(a: Bytes, p: Bytes, v: Bytes)
    ensures Reads(a + p, a + v) <==> Reads(p, v)
    ensures Matches(p, v) ==> Matches(a + p, a + v)
  {
    if a == [] {
      assert a + p == p && a + v == v;
    } else {
      var q, w := a + p, a + v;
      assert q[1..] == a[1..] + p && w[1..] == a[1..] + v;
      SharedFront(a[1..], p, v);
      if Matches(p, v) {
        if q[0] == STAR { MatchesStar(q, w, 1); } else { MatchesByte(q, w); }
      }
    }
  }

  /** After a shared front, a star that meets a star must not be followed by more bytes than the pattern has. */
  lemma StarRefuses(front: Bytes, p: Bytes, more: Bytes)
    requires StarFree(p) && more != []
    ensures Matches(front + ([STAR] + p), front + ([STAR] + more + p))
      && !Reads(front + ([STAR] + p), front + ([STAR] + more + p))
  {
    var q, w := [STAR] + p, [STAR] + more + p;
    assert q[1..] == p && w[1..] == more + p;
    SharedFront(front, q, w);
    if Reads(p, more + p) {
      ReadsIsSound(p, more + p);
      StarFreeMatches(p, more + p);
    }
    StarFreeMatches(p, p);
    assert w[|more| + 1..] == p;
    MatchesStar(q, w, |more| + 1);
  }

  lemma {:induction false} StarFreeMatches(p: Bytes, v: Bytes)
    requires StarFree(p)
    ensures Matches(p, v) <==> p == v
  {
    if p == [] {
      assert Fill(p, []) == [];
      if Matches(p, v) {
        var fills: seq<Bytes> :| |fills| == Stars(p) && Fill(p, fills) == v;
      }
    } else if v != [] && p[0] == v[0] {
      MatchesByte(p, v);
      StarFreeMatches(p[1..], v[1..]);
      assert p == [p[0]] + p[1..] && v == [v[0]] + v[1..];
    } else {
      forall fills: seq<Bytes> | |fills| == Stars(p) ensures Fill(p, fills) != v {
        assert Fill(p, fills)[0] == p[0];
      }
    }
  }

  /** The candidates on which the loops decide the meaning of every pattern: those with no star before the last byte. */
  lemma CandidateIsSafeIff(v: Bytes)
    ensures (forall p: Bytes :: Reads(p, v) <==> Matches(p, v)) <==> StarOnlyLast(v)
  {
    if StarOnlyLast(v) {
      forall p: Bytes ensures Reads(p, v) <==> Matches(p, v) { ReadsIffMatches(p, v); }
    } else {
      var i :| 0 <= i < |v| - 1 && v[i] == STAR;
      StarRefuses(v[..i], [], v[i + 1..]);
      assert v == v[..i] + ([STAR] + v[i + 1..] + []);
    }
  }

  /** The patterns whose meaning the loops decide on every candidate: those without a star. */
  lemma PatternIsSafeIff(p: Bytes)
    ensures (forall v: Bytes :: Reads(p, v) <==> Matches(p, v)) <==> StarFree(p)
  {
    if StarFree(p) {
      forall v: Bytes ensures Reads(p, v) <==> Matches(p, v) { ReadsIffMatches(p, v); }
    } else {
      var i := LastStar(p);
      StarRefuses(p[..i], p[i + 1..], [0]);
      assert p == p[..i] + ([STAR] + p[i + 1..]);
    }
  }

  lemma {:induction false} LastStar(p: Bytes) returns (i: nat)
    requires !StarFree(p)
    ensures i < |p| && p[i] == STAR && StarFree(p[i + 1..])
  {
    i := |p| - 1;
    if p[i] == STAR {
      assert p[i + 1..] == [];
    } else {
      var front := p[..i];
      assert forall j | 0 <= j < i :: p[j] == front[j];
      i := LastStar(front);
      assert p[i + 1..] == front[i + 1..] + [p[|p| - 1]];
    }
  }

  /** The pattern `*` matches every candidate, but the loops refuse the candidate `*a`. */
  lemma StarMeetsStar()
    ensures Matches([STAR], [STAR, 97]) && !Reads([STAR], [STAR, 97])
  {
    var p, v: Bytes := [STAR], [STAR, 97];
    assert p[1..] == [] && v[1..] == [97];
    assert [v] == [v] + [] && v + [] == v;
    assert Fill(p, [v]) == v;
  }

  // ------------------------------------------------------------------ why only the last star matters

  /**
   Between the last star and here the pattern and the candidate agree byte by byte. Then any later
   reading of the pattern from that star still comes past `pi`, no earlier than `vi`.
   */
  lemma {:induction false} LaterReadingPasses(p: Bytes, v: Bytes, j: nat, a: nat, pi: nat, vi: nat, k: nat)
    returns (m: nat)
    requires j <= pi <= |p| && a <= vi <= |v| && p[j..pi] == v[a..vi]
    requires a <= k <= |v| && Reads(p[j..], v[k..])
    ensures vi <= m <= |v| && Reads(p[pi..], v[m..])
    decreases pi - j
  {
    if j == pi {
      m := k;
    } else {
      assert p[j] == p[j..pi][0] == v[a..vi][0] == v[a];
      assert p[j + 1..pi] == p[j..pi][1..] == v[a..vi][1..] == v[a + 1..vi];
      assert p[j..][1..] == p[j + 1..];
      if k < |v| && v[k] == p[j] {
        assert v[k..][1..] == v[k + 1..];
        m := LaterReadingPasses(p, v, j + 1, a + 1, pi, vi, k + 1);
      } else {
        var x :| 0 <= x <= |v[k..]| && Reads(p[j..][1..], v[k..][x..]);
        assert v[k..][x..] == v[k + x..];
        m := LaterReadingPasses(p, v, j + 1, a + 1, pi, vi, k + x);
      }
    }
  }

  /** The pattern from just after the last star can still be read from a later byte. */
  ghost predicate Retry(p: Bytes, v: Bytes, star: Option<nat>, from: nat) {
    star.Some? && star.value < |p| && exists k | from <= k <= |v| :: Reads(p[star.value + 1..], v[k..])
  }

  /** Where the scan stands: what it has read since its last star, and what it can still accept. */
  ghost predicate Scanning(p: Bytes, v: Bytes, pi: nat, vi: nat, star: Option<nat>, sv: nat) {
    && pi <= |p| && sv <= vi <= |v|
    && (star.Some? ==> star.value < pi && p[star.value + 1..pi] == v[sv..vi])
    && (Reads(p, v) <==> Reads(p[pi..], v[vi..]) || Retry(p, v, star, sv + 1))
  }

  lemma ScanStarts(p: Bytes, v: Bytes)
    ensures Scanning(p, v, 0, 0, None, 0)
  {
    assert p[0..] == p && v[0..] == v;
  }

  lemma SameByte(p: Bytes, v: Bytes, pi: nat, vi: nat, star: Option<nat>, sv: nat)
    requires Scanning(p, v, pi, vi, star, sv) && pi < |p| && vi < |v| && p[pi] == v[vi]
    ensures Scanning(p, v, pi + 1, vi + 1, star, sv)
  {
    hide Retry;
    assert p[pi..][1..] == p[pi + 1..] && v[vi..][1..] == v[vi + 1..];
    if star.Some? {
      assert p[star.value + 1..pi + 1] == p[star.value + 1..pi] + [p[pi]];
      assert v[sv..vi + 1] == v[sv..vi] + [v[vi]];
    }
  }

  /** A new star may be filled with anything, so nothing is lost by forgetting the one before. */
  lemma NewStar(p: Bytes, v: Bytes, pi: nat, vi: nat, star: Option<nat>, sv: nat)
    requires Scanning(p, v, pi, vi, star, sv) && pi < |p| && vi < |v| && p[pi] == STAR && v[vi] != STAR
    ensures Scanning(p, v, pi + 1, vi, Some(pi), vi)
  {
    assert p[pi..][1..] == p[pi + 1..];
    StarReads(p, v, pi, vi);
    if Retry(p, v, star, sv + 1) {
      var k :| sv + 1 <= k <= |v| && Reads(p[star.value + 1..], v[k..]);
      var m := LaterReadingPasses(p, v, star.value + 1, sv, pi, vi, k);
      LaterStar(p, v, pi, vi, m);
    }
  }

  lemma StarReads(p: Bytes, v: Bytes, pi: nat, vi: nat)
    requires pi < |p| && vi < |v| && p[pi] == STAR && v[vi] != STAR
    ensures Reads(p[pi..], v[vi..]) <==> exists k | vi <= k <= |v| :: Reads(p[pi + 1..], v[k..])
  {
    var q, w := p[pi..], v[vi..];
    assert q[1..] == p[pi + 1..];
    assert forall x | 0 <= x <= |w| :: w[x..] == v[vi + x..];
    if k :| vi <= k <= |v| && Reads(p[pi + 1..], v[k..]) {
      assert Reads(q[1..], w[k - vi..]);
    }
  }

  lemma LaterStar(p: Bytes, v: Bytes, pi: nat, vi: nat, m: nat)
    requires pi < |p| && vi < |v| && p[pi] == STAR && v[vi] != STAR
    requires vi <= m <= |v| && Reads(p[pi..], v[m..])
    ensures Reads(p[pi..], v[vi..])
  {
    StarReads(p, v, pi, vi);
    assert p[pi..][1..] == p[pi + 1..];
    if m < |v| && v[m] == STAR {
      assert v[m..][1..] == v[m + 1..];
    } else {
      var x :| 0 <= x <= |v[m..]| && Reads(p[pi..][1..], v[m..][x..]);
      assert v[m..][x..] == v[m + x..];
    }
  }

  lemma Mismatch(p: Bytes, v: Bytes, pi: nat, vi: nat)
    requires pi <= |p| && vi < |v| && (pi == |p| || (p[pi] != v[vi] && p[pi] != STAR))
    ensures !Reads(p[pi..], v[vi..])
  {
  }

  lemma StepBack(p: Bytes, v: Bytes, pi: nat, vi: nat, star: nat, sv: nat)
    requires Scanning(p, v, pi, vi, Some(star), sv) && vi < |v| && !Reads(p[pi..], v[vi..])
    ensures Scanning(p, v, star + 1, sv + 1, Some(star), sv + 1)
  {
    assert p[star + 1..star + 1] == v[sv + 1..sv + 1];
  }

  /** When the candidate is used up, trying again can add nothing. */
  lemma ScanEnds(p: Bytes, v: Bytes, pi: nat, star: Option<nat>, sv: nat)
    requires Scanning(p, v, pi, |v|, star, sv)
    ensures Reads(p, v) <==> Reads(p[pi..], [])
  {
    assert v[|v|..] == [];
    if Retry(p, v, star, sv + 1) {
      var k :| sv + 1 <= k <= |v| && Reads(p[star.value + 1..], v[k..]);
      var m := LaterReadingPasses(p, v, star.value + 1, sv, pi, |v|, k);
    }
  }

  lemma OnlyStarsLeft(p: Bytes, pi: nat)
    requires pi <= |p|
    ensures Reads(p[pi..], []) <==> (pi == |p| || (p[pi] == STAR && Reads(p[pi + 1..], [])))
  {
    if pi < |p| {
      assert p[pi..][1..] == p[pi + 1..];
      var none: Bytes := [];
      assert none[0..] == none;
    }
  }

  method SkipStars(p: Bytes, from: nat) returns (ok: bool)
    requires from <= |p|
    ensures ok <==> Reads(p[from..], [])
  {
    var pi := from;
    while pi < |p| && p[pi] == STAR
      invariant pi <= |p|
      invariant Reads(p[from..], []) <==> Reads(p[pi..], [])
    {
      OnlyStarsLeft(p, pi);
      pi := pi + 1;
    }
    OnlyStarsLeft(p, pi);
    ok := pi == |p|;
  }

  /** `wildcard_matches` of the dependency gate. */
  method WildcardMatchesDependency(p: Bytes, v: Bytes) returns (ok: bool)
    ensures ok <==> Reads(p, v)
  {
    hide Scanning;
    var pi: nat, vi: nat, star: Option<nat>, sv: nat := 0, 0, None, 0;
    ScanStarts(p, v);
    while vi < |v|
      invariant Scanning(p, v, pi, vi, star, sv)
      invariant pi <= |p| && sv <= vi <= |v| && (star.Some? ==> star.value < pi)
      decreases if star.Some? then |p| - star.value else |p| + 1, |v| - sv, |v| - vi
    {
      if pi < |p| && p[pi] == v[vi] {
        SameByte(p, v, pi, vi, star, sv);
        pi, vi := pi + 1, vi + 1;
      } else if pi < |p| && p[pi] == STAR {
        NewStar(p, v, pi, vi, star, sv);
        star := Some(pi);
        pi := pi + 1;
        sv := vi;
      } else if star.Some? {
        Mismatch(p, v, pi, vi);
        StepBack(p, v, pi, vi, star.value, sv);
        pi := star.value + 1;
        sv := sv + 1;
        vi := sv;
      } else {
        Mismatch(p, v, pi, vi);
        Stuck(p, v, pi, vi, sv);
        return false;
      }
    }
    ScanEnds(p, v, pi, star, sv);
    ok := SkipStars(p, pi);
  }

  lemma Stuck(p: Bytes, v: Bytes, pi: nat, vi: nat, sv: nat)
    requires Scanning(p, v, pi, vi, None, sv) && !Reads(p[pi..], v[vi..])
    ensures !Reads(p, v)
  {
  }

  /** `wildcard_matches` of the anti-pattern gate. It steps back in another order. */
  method WildcardMatchesAntipattern(p: Bytes, v: Bytes) returns (ok: bool)
    ensures ok <==> Reads(p, v)
  {
    hide Scanning;
    var pi: nat, vi: nat, star: Option<nat>, sv: nat := 0, 0, None, 0;
    ScanStarts(p, v);
    while vi < |v|
      invariant Scanning(p, v, pi, vi, star, sv)
      invariant pi <= |p| && sv <= vi <= |v| && (star.Some? ==> star.value < pi)
      decreases if star.Some? then |p| - star.value else |p| + 1, |v| - sv, |v| - vi
    {
      if pi < |p| && p[pi] == v[vi] {
        SameByte(p, v, pi, vi, star, sv);
        pi, vi := pi + 1, vi + 1;
      } else if pi < |p| && p[pi] == STAR {
        NewStar(p, v, pi, vi, star, sv);
        star := Some(pi);
        pi := pi + 1;
        sv := vi;
      } else {
        Mismatch(p, v, pi, vi);
        if star.None? {
          Stuck(p, v, pi, vi, sv);
          return false;
        }
        StepBack(p, v, pi, vi, star.value, sv);
        sv := sv + 1;
        vi := sv;
        pi := star.value + 1;
      }
    }
    ScanEnds(p, v, pi, star, sv);
    ok := SkipStars(p, pi);
  }
}
