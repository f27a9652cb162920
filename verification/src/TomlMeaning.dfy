/**
 What a list of statements means, said without performing it (xtask/src/deps.rs:308-389): each assignment goes
 to the table whose header stands last before it, and the statements are refused exactly if a table is opened
 twice or a key assigned twice in one table.
 */
module TomlMeaning {
  import opened Prelude
  import opened Toml
  import opened TomlGrammar
  import opened TomlRoundTrip

  /** The header that a statement stands under, or -1 for the root. */
  function Home(ss: seq<Statement>, k: nat): (h: int)
    requires k <= |ss|
    ensures -1 <= h < k && (h >= 0 ==> ss[h].Open?) && forall j | h < j < k :: ss[j].Assign?
  {
    if k == 0 then -1 else if ss[k - 1].Open? then k - 1 else Home(ss, k - 1)
  }

  /** How many entries of the array table were opened before. */
  function Earlier(ss: seq<Statement>, m: nat, path: Segments): nat
    requires m <= |ss|
  {
    if m == 0 then 0 else Earlier(ss, m - 1, path) + if ss[m - 1] == Open(path, true) then 1 else 0
  }

  ghost predicate IsHeader(ss: seq<Statement>, h: int) {
    -1 <= h < |ss| && (h >= 0 ==> ss[h].Open?)
  }

  function SectionAt(ss: seq<Statement>, h: int): Section
    requires IsHeader(ss, h)
  {
    if h == -1 then RootSection
    else if ss[h].isArray then ArraySection(ss[h].path, Earlier(ss, h, ss[h].path))
    else TableSection(ss[h].path)
  }

  /** The assignments that stand under a header. */
  function Body(ss: seq<Statement>, m: nat, h: int): Table
    requires m <= |ss|
  {
    if m == 0 then map[]
    else
      var before := Body(ss, m - 1, h);
      if ss[m - 1].Assign? && Home(ss, m - 1) == h then before[ss[m - 1].key := ss[m - 1].value] else before
  }

  ghost predicate OpenedTwice(ss: seq<Statement>, i: nat, j: nat) {
    && i < j < |ss| && ss[i].Open? && ss[j].Open? && ss[i].path == ss[j].path
    && !(ss[i].isArray && ss[j].isArray)
  }

  ghost predicate AssignedTwice(ss: seq<Statement>, i: nat, j: nat) {
    && i < j < |ss| && ss[i].Assign? && ss[j].Assign? && ss[i].key == ss[j].key
    && Home(ss, i) == Home(ss, j)
  }

  /** No path is opened twice, unless as an array table each time, and no key assigned twice under one header. */
  ghost predicate Consistent(ss: seq<Statement>, m: nat) {
    forall i: nat, j: nat | i < j < m :: !OpenedTwice(ss, i, j) && !AssignedTwice(ss, i, j)
  }

  /** The table of a section. */
  function TableAt(d: Document, s: Section): Option<Table> { CurrentTable(Reading(d, s)) }

  /** The document holds a table for every header, with the assignments under it, and nothing else. */
  ghost predicate Means(ss: seq<Statement>, m: nat, d: Document)
    requires m <= |ss|
  {
    && (forall h | -1 <= h < m && IsHeader(ss, h) :: TableAt(d, SectionAt(ss, h)) == Some(Body(ss, m, h)))
    && (forall p :: p in d.tables <==> exists h | 0 <= h < m :: ss[h] == Open(p, false))
    && (forall p :: p in d.arrays <==> Earlier(ss, m, p) > 0)
    && (forall p | p in d.arrays :: |d.arrays[p]| == Earlier(ss, m, p))
  }

  // ------------------------------------------------------------------ performing a prefix

  function PerformTo(ss: seq<Statement>, m: nat): Parsed<Reading>
    requires m <= |ss|
  {
    if m == 0 then Ok(Reading(Empty, RootSection))
    else
      var before := PerformTo(ss, m - 1);
      if before.Err? then before else Perform(before.value, ss[m - 1], m)
  }

  lemma {:induction false} PerformAllIs(ss: seq<Statement>, m: nat)
    requires m <= |ss|
    ensures
      var before := PerformTo(ss, m);
      PerformTo(ss, |ss|) == if before.Err? then before else PerformAll(ss[m..], before.value, m + 1)
    decreases |ss| - m
  {
    hide Perform;
    if m < |ss| {
      PerformAllIs(ss, m + 1);
      assert ss[m..][0] == ss[m] && ss[m..][1..] == ss[m + 1..];
    }
  }

  // ------------------------------------------------------------------ headers and keys

  lemma {:induction false} EarlierExactly(ss: seq<Statement>, m: nat, path: Segments)
    requires m <= |ss|
    ensures Earlier(ss, m, path) > 0 <==> exists h | 0 <= h < m :: ss[h] == Open(path, true)
  {
    if m > 0 { EarlierExactly(ss, m - 1, path); }
  }

  lemma {:induction false} EarlierGrows(ss: seq<Statement>, h: nat, m: nat, path: Segments)
    requires h < m <= |ss|
    ensures Earlier(ss, h, path) + (if ss[h] == Open(path, true) then 1 else 0) <= Earlier(ss, m, path)
    decreases m
  {
    if h < m - 1 { EarlierGrows(ss, h, m - 1, path); }
  }

  lemma {:induction false} BodyKeys(ss: seq<Statement>, m: nat, h: int, key: string)
    requires m <= |ss|
    ensures key in Body(ss, m, h) <==>
      exists i | 0 <= i < m :: ss[i].Assign? && ss[i].key == key && Home(ss, i) == h
  {
    hide Home;
    if m > 0 { BodyKeys(ss, m - 1, h, key); }
  }

  /** A table holds exactly the assignments that stand under its header. */
  lemma {:induction false} BodyExactly(ss: seq<Statement>, m: nat, h: int, key: string, v: Value)
    requires m <= |ss| && Consistent(ss, m)
    ensures key in Body(ss, m, h) && Body(ss, m, h)[key] == v <==>
      exists i | 0 <= i < m :: ss[i] == Assign(key, v) && Home(ss, i) == h
  {
    hide Home;
    if m > 0 {
      BodyExactly(ss, m - 1, h, key, v);
      if ss[m - 1].Assign? && Home(ss, m - 1) == h && ss[m - 1].key == key {
        forall i: nat | i < m - 1 ensures !(ss[i].Assign? && ss[i].key == key && Home(ss, i) == h) {
          assert !AssignedTwice(ss, i, m - 1);
        }
      }
    }
  }

  /** Two headers never lead to one section. */
  lemma SectionsDiffer(ss: seq<Statement>, m: nat, g: int, h: int)
    requires m <= |ss| && Consistent(ss, m) && g < h < m && IsHeader(ss, g) && IsHeader(ss, h)
    ensures SectionAt(ss, g) != SectionAt(ss, h)
  {
    if g >= 0 {
      assert !OpenedTwice(ss, g, h);
      EarlierGrows(ss, g, h, ss[g].path);
    }
  }

  // ------------------------------------------------------------------ one statement

  lemma AssigningElsewhere(r: Reading, t: Table, s: Section)
    requires CurrentTable(r).Some?
    ensures
      var d := SetCurrent(r, t).document;
      && d.tables.Keys == r.document.tables.Keys && d.arrays.Keys == r.document.arrays.Keys
      && (forall p | p in d.arrays :: |d.arrays[p]| == |r.document.arrays[p]|)
      && TableAt(d, s) == if s == r.section then Some(t) else TableAt(r.document, s)
  {
  }

  lemma Assigning(ss: seq<Statement>, m: nat, r: Reading)
    requires m < |ss| && ss[m].Assign? && Consistent(ss, m) && Means(ss, m, r.document)
    requires r.section == SectionAt(ss, Home(ss, m))
    ensures
      var next := Perform(r, ss[m], m + 1);
      && (next.Ok? <==> Consistent(ss, m + 1))
      && (next.Ok? ==> next.value.section == r.section && Means(ss, m + 1, next.value.document))
  {
    hide SetCurrent, CurrentTable, Home, SectionAt;
    var key, v, home := ss[m].key, ss[m].value, Home(ss, m);
    assert IsHeader(ss, home) && -1 <= home < m by { HomeIsHeader(ss, m); }
    var t := Body(ss, m, home);
    assert TableAt(r.document, r.section) == Some(t) && CurrentTable(r) == Some(t);
    AssignedAgain(ss, m);
    if key !in t {
      var d := SetCurrent(r, t[key := v]).document;
      assert SetCurrent(r, t[key := v]).section == r.section by { SectionStays(r, t[key := v]); }
      forall h | -1 <= h < m + 1 && IsHeader(ss, h) ensures TableAt(d, SectionAt(ss, h)) == Some(Body(ss, m + 1, h)) {
        AssigningElsewhere(r, t[key := v], SectionAt(ss, h));
        if h < home { SectionsDiffer(ss, m, h, home); }
        if h > home { SectionsDiffer(ss, m, home, h); }
      }
      AssigningElsewhere(r, t[key := v], RootSection);
      assert forall p :: p in d.tables <==> p in r.document.tables.Keys;
      assert forall p :: p in d.arrays <==> p in r.document.arrays.Keys;
    }
  }

  lemma HomeIsHeader(ss: seq<Statement>, m: nat)
    requires m <= |ss|
    ensures IsHeader(ss, Home(ss, m)) && -1 <= Home(ss, m) < m
  {
  }

  lemma SectionStays(r: Reading, t: Table)
    requires CurrentTable(r).Some?
    ensures SetCurrent(r, t).section == r.section
  {
  }

  lemma AssignedAgain(ss: seq<Statement>, m: nat)
    requires m < |ss| && ss[m].Assign? && Consistent(ss, m)
    ensures Consistent(ss, m + 1) <==> ss[m].key !in Body(ss, m, Home(ss, m))
  {
    hide Home;
    BodyKeys(ss, m, Home(ss, m), ss[m].key);
    if i: nat :| i < m && ss[i].Assign? && ss[i].key == ss[m].key && Home(ss, i) == Home(ss, m) {
      assert AssignedTwice(ss, i, m);
    }
  }

  lemma OpenedAgain(ss: seq<Statement>, m: nat, d: Document)
    requires m < |ss| && ss[m].Open? && Consistent(ss, m) && Means(ss, m, d)
    ensures Consistent(ss, m + 1) <==> ss[m].path !in d.tables && (ss[m].isArray || ss[m].path !in d.arrays)
  {
    hide TableAt, Home, Body, Earlier;
    var p := ss[m].path;
    EarlierExactly(ss, m, p);
    if h: nat :| h < m && ss[h] == Open(p, false) { assert OpenedTwice(ss, h, m); }
    if h: nat :| h < m && ss[h] == Open(p, true) { assert !ss[m].isArray ==> OpenedTwice(ss, h, m); }
    if ss[m].path !in d.tables && (ss[m].isArray || ss[m].path !in d.arrays) {
      forall i: nat, j: nat | i < j < m + 1 ensures !OpenedTwice(ss, i, j) && !AssignedTwice(ss, i, j) {
        assert ss[i].Open? ==> ss[i] == Open(ss[i].path, ss[i].isArray);
      }
    }
  }

  /** A new section is empty, and opening it touches no other. */
  lemma OpeningElsewhere(r: Reading, path: Segments, isArray: bool, n: nat, s: Section)
    requires OpenTable(r, path, isArray, n).Ok?
    ensures
      var next := OpenTable(r, path, isArray, n).value;
      && TableAt(next.document, s) == (if s == next.section then Some(map[]) else TableAt(r.document, s))
      && next.section == (if isArray then ArraySection(path, |EntriesAt(r.document, path)|) else TableSection(path))
      && next.document.tables.Keys == r.document.tables.Keys + (if isArray then {} else {path})
      && next.document.arrays.Keys == r.document.arrays.Keys + (if isArray then {path} else {})
      && forall p | p in next.document.arrays :: |next.document.arrays[p]|
           == |EntriesAt(r.document, p)| + if isArray && p == path then 1 else 0
  {
  }

  lemma Opening(ss: seq<Statement>, m: nat, r: Reading)
    requires m < |ss| && ss[m].Open? && Consistent(ss, m) && Means(ss, m, r.document)
    ensures
      var next := Perform(r, ss[m], m + 1);
      && (next.Ok? <==> Consistent(ss, m + 1))
      && (next.Ok? ==> next.value.section == SectionAt(ss, m) && Means(ss, m + 1, next.value.document))
  {
    hide TableAt, Home;
    OpenedAgain(ss, m, r.document);
    if Perform(r, ss[m], m + 1).Ok? { OpenedMeans(ss, m, r); }
  }

  lemma OpenedMeans(ss: seq<Statement>, m: nat, r: Reading)
    requires m < |ss| && ss[m].Open? && Consistent(ss, m + 1) && Means(ss, m, r.document)
    requires Perform(r, ss[m], m + 1).Ok?
    ensures
      var next := Perform(r, ss[m], m + 1).value;
      next.section == SectionAt(ss, m) && Means(ss, m + 1, next.document)
  {
    hide TableAt, Home, OpenTable, Consistent;
    var path, isArray := ss[m].path, ss[m].isArray;
    var next := Perform(r, ss[m], m + 1).value;
    var d := next.document;
    OpeningElsewhere(r, path, isArray, m + 1, RootSection);
    forall h | -1 <= h < m + 1 && IsHeader(ss, h) ensures TableAt(d, SectionAt(ss, h)) == Some(Body(ss, m + 1, h)) {
      OpeningElsewhere(r, path, isArray, m + 1, SectionAt(ss, h));
      if h < m { SectionsDiffer(ss, m + 1, h, m); } else { NothingYet(ss, m, m); }
    }
    forall p ensures p in d.tables <==> exists h | 0 <= h < m + 1 :: ss[h] == Open(p, false) {
      assert p in d.tables <==> p in d.tables.Keys;
      assert p in r.document.tables <==> p in r.document.tables.Keys;
    }
    forall p ensures p in d.arrays <==> Earlier(ss, m + 1, p) > 0 {
      assert p in d.arrays <==> p in d.arrays.Keys;
      assert p in r.document.arrays <==> p in r.document.arrays.Keys;
    }
  }

  lemma {:induction false} NothingYet(ss: seq<Statement>, m: nat, h: nat)
    requires m <= h < |ss|
    ensures Body(ss, m, h) == map[]
  {
    if m > 0 { NothingYet(ss, m - 1, h); }
  }

  // ------------------------------------------------------------------ all statements

  /** Performing succeeds exactly on consistent statements, and gives the document they mean. */
  lemma {:induction false} PerformingGivesTheMeaning(ss: seq<Statement>, m: nat)
    requires m <= |ss|
    ensures PerformTo(ss, m).Ok? <==> Consistent(ss, m)
    ensures PerformTo(ss, m).Ok? ==>
      && PerformTo(ss, m).value.section == SectionAt(ss, Home(ss, m))
      && Means(ss, m, PerformTo(ss, m).value.document)
  {
    hide Perform, Means, SectionAt, OpenedTwice, AssignedTwice;
    if m == 0 {
      NothingMeans(ss);
    } else {
      PerformingGivesTheMeaning(ss, m - 1);
      var before := PerformTo(ss, m - 1);
      if before.Ok? {
        if ss[m - 1].Open? { Opening(ss, m - 1, before.value); } else { Assigning(ss, m - 1, before.value); }
      }
    }
  }

  lemma NothingMeans(ss: seq<Statement>)
    ensures Means(ss, 0, Empty) && SectionAt(ss, Home(ss, 0)) == RootSection
  {
  }

  lemma {:induction false} BuildIsPerforming(ps: seq<Piece>, n: nat, r: Reading, m: nat)
    ensures Build(ps, n, r).Ok? <==> PerformAll(Stated(ps), r, m).Ok?
    decreases |ps|
  {
    hide Perform;
    if ps != [] {
      var p, rest := ps[0], ps[1..];
      if p.statement.None? {
        assert [] + Stated(rest) == Stated(rest);
        BuildIsPerforming(rest, n + |p.rows|, r, m);
      } else {
        assert Stated(ps)[1..] == Stated(rest) && Stated(ps)[0] == p.statement.value;
        var next := Perform(r, p.statement.value, n);
        if next.Ok? { NumbersDoNotMatter(r, p.statement.value, n, m); }
        if Perform(r, p.statement.value, m).Ok? { NumbersDoNotMatter(r, p.statement.value, m, n); }
        if next.Ok? { BuildIsPerforming(rest, n + |p.rows|, next.value, m + 1); }
      }
    }
  }

  /** A written text is accepted exactly if its statements are consistent, and read as what they mean. */
  lemma BuildGivesTheMeaning(ps: seq<Piece>)
    ensures
      var ss, built := Stated(ps), Build(ps, 1, Reading(Empty, RootSection));
      && (built.Ok? <==> Consistent(ss, |ss|))
      && (built.Ok? ==> Means(ss, |ss|, built.value))
  {
    hide PerformAll, PerformTo, Build, Stated, Consistent, Means;
    var ss, r0 := Stated(ps), Reading(Empty, RootSection);
    BuildIsPerforming(ps, 1, r0, 1);
    assert ss[0..] == ss;
    FromTheStart(ss);
    PerformAllIs(ss, 0);
    PerformingGivesTheMeaning(ss, |ss|);
    if PerformAll(ss, r0, 1).Ok? { BuildPerforms(ps, 1, r0, 1); }
  }

  lemma FromTheStart(ss: seq<Statement>)
    ensures PerformTo(ss, 0) == Ok(Reading(Empty, RootSection))
  {
  }
}
