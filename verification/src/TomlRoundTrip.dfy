/**
 Every restricted document survives being written and read: root entries, then tables, then array
 tables, with the tables in any order.
 */
module TomlRoundTrip {
  import opened Prelude
  import opened StringOrder
  import opened Toml
  import opened TomlGrammar
  import opened TomlPrint
  import opened TomlReads

  // ------------------------------------------------------------------ a document as statements

  function Assigns(t: Table, keys: seq<string>): (ss: seq<Statement>)
    requires forall i | 0 <= i < |keys| :: keys[i] in t
    ensures |ss| == |keys|
    ensures forall i | 0 <= i < |keys| :: ss[i] == Assign(keys[i], t[keys[i]])
  {
    if keys == [] then [] else [Assign(keys[0], t[keys[0]])] + Assigns(t, keys[1..])
  }

  function TableBody(t: Table): seq<Statement> {
    var keys := Sorted(t.Keys);
    assert forall i | 0 <= i < |keys| :: keys[i] in t.Keys;
    Assigns(t, keys)
  }

  function TableStatements(tables: map<Segments, Table>, paths: seq<Segments>): seq<Statement>
    requires forall i | 0 <= i < |paths| :: paths[i] in tables
  {
    if paths == [] then []
    else [Open(paths[0], false)] + TableBody(tables[paths[0]]) + TableStatements(tables, paths[1..])
  }

  function EntryStatements(path: Segments, entries: seq<Table>): seq<Statement> {
    if entries == [] then [] else [Open(path, true)] + TableBody(entries[0]) + EntryStatements(path, entries[1..])
  }

  function ArrayStatements(arrays: map<Segments, seq<Table>>, paths: seq<Segments>): seq<Statement>
    requires forall i | 0 <= i < |paths| :: paths[i] in arrays
  {
    if paths == [] then []
    else EntryStatements(paths[0], arrays[paths[0]]) + ArrayStatements(arrays, paths[1..])
  }

  /** Each key once, in some order. */
  ghost predicate Enumerates<V>(paths: seq<Segments>, m: map<Segments, V>) {
    && (forall p :: p in paths <==> p in m)
    && Distinct(paths)
  }

  ghost predicate Distinct<T(!new)>(xs: seq<T>) {
    forall i, j | 0 <= i < j < |xs| :: xs[i] != xs[j]
  }

  function Statements(d: Document, tables: seq<Segments>, arrays: seq<Segments>): seq<Statement>
    requires forall i | 0 <= i < |tables| :: tables[i] in d.tables
    requires forall i | 0 <= i < |arrays| :: arrays[i] in d.arrays
  {
    TableBody(d.root) + (TableStatements(d.tables, tables) + ArrayStatements(d.arrays, arrays))
  }

  /** The statements of a written text, without its blank lines. */
  function Stated(ps: seq<Piece>): seq<Statement> {
    if ps == [] then []
    else (if ps[0].statement.None? then [] else [ps[0].statement.value]) + Stated(ps[1..])
  }

  /** The text writes the document: its root entries, then its tables in some order, then its array tables. */
  ghost predicate WritesDocument(ps: seq<Piece>, ends: seq<string>, d: Document, tables: seq<Segments>,
                                 arrays: seq<Segments>) {
    && (forall i | 0 <= i < |ps| :: WritesPiece(ps[i], DELIMITERS)) && Ended(PieceLines(ps), ends)
    && Enumerates(tables, d.tables) && Enumerates(arrays, d.arrays)
    && Stated(ps) == Statements(d, tables, arrays)
  }

  // ------------------------------------------------------------------ performing statements

  function PerformAll(ss: seq<Statement>, r: Reading, n: nat): Parsed<Reading> {
    if ss == [] then Ok(r)
    else
      var next := Perform(r, ss[0], n);
      if next.Err? then next else PerformAll(ss[1..], next.value, n + 1)
  }

  lemma {:induction false} PerformAppend(a: seq<Statement>, b: seq<Statement>, r: Reading, n: nat)
    requires PerformAll(a, r, n).Ok?
    ensures PerformAll(a + b, r, n) == PerformAll(b, PerformAll(a, r, n).value, n + |a|)
  {
    hide Perform;
    if a == [] {
      assert a + b == b;
    } else {
      assert (a + b)[1..] == a[1..] + b;
      PerformAppend(a[1..], b, Perform(r, a[0], n).value, n + 1);
    }
  }

  lemma NumbersDoNotMatter(r: Reading, s: Statement, n: nat, m: nat)
    requires Perform(r, s, n).Ok?
    ensures Perform(r, s, m) == Perform(r, s, n)
  {
  }

  lemma {:induction false} BuildPerforms(ps: seq<Piece>, n: nat, r: Reading, m: nat)
    requires PerformAll(Stated(ps), r, m).Ok?
    ensures Build(ps, n, r) == Ok(PerformAll(Stated(ps), r, m).value.document)
    decreases |ps|
  {
    hide Perform;
    if ps != [] {
      var p, rest := ps[0], ps[1..];
      if p.statement.None? {
        assert [] + Stated(rest) == Stated(rest);
        BuildPerforms(rest, n + |p.rows|, r, m);
      } else {
        assert Stated(ps)[1..] == Stated(rest) && Stated(ps)[0] == p.statement.value;
        NumbersDoNotMatter(r, p.statement.value, m, n);
        BuildPerforms(rest, n + |p.rows|, Perform(r, p.statement.value, n).value, m + 1);
      }
    }
  }

  // ------------------------------------------------------------------ one table

  ghost function Pick<K, V>(m: map<K, V>, keys: seq<K>): map<K, V> {
    map k | k in m && k in keys :: m[k]
  }

  lemma PickNothing<K, V>(m: map<K, V>, base: map<K, V>)
    ensures base + Pick(m, []) == base
  {
  }

  lemma PickCons<K, V>(m: map<K, V>, base: map<K, V>, keys: seq<K>)
    requires keys != [] && keys[0] in m
    ensures base[keys[0] := m[keys[0]]] + Pick(m, keys[1..]) == base + Pick(m, keys)
  {
    assert keys == [keys[0]] + keys[1..];
  }

  lemma DistinctTail<T(!new)>(xs: seq<T>)
    requires xs != [] && Distinct(xs)
    ensures Distinct(xs[1..]) && forall i | 0 <= i < |xs[1..]| :: xs[1..][i] == xs[i + 1] && xs[1..][i] != xs[0]
  {
  }

  lemma SetCurrentTwice(r: Reading, t: Table, u: Table)
    requires CurrentTable(r).Some?
    ensures CurrentTable(SetCurrent(r, t)) == Some(t)
    ensures SetCurrent(SetCurrent(r, t), u) == SetCurrent(r, u)
  {
    if r.section.ArraySection? {
      var d, p, i := r.document, r.section.path, r.section.index;
      assert d.arrays[p][i := t][i := u] == d.arrays[p][i := u];
      assert d.arrays[p := d.arrays[p][i := t]][p := d.arrays[p][i := u]] == d.arrays[p := d.arrays[p][i := u]];
    } else if r.section.TableSection? {
      var d, p := r.document, r.section.path;
      assert d.tables[p := t][p := u] == d.tables[p := u];
    }
  }

  lemma SetCurrentSame(r: Reading)
    requires CurrentTable(r).Some?
    ensures SetCurrent(r, CurrentTable(r).value) == r
  {
    if r.section.ArraySection? {
      var d, p, i := r.document, r.section.path, r.section.index;
      assert d.arrays[p][i := d.arrays[p][i]] == d.arrays[p];
      assert d.arrays[p := d.arrays[p]] == d.arrays;
    } else if r.section.TableSection? {
      var d, p := r.document, r.section.path;
      assert d.tables[p := d.tables[p]] == d.tables;
    }
  }

  /** Assigning the keys of a table fills the current table with them. */
  lemma {:induction false} AssignsFill(t: Table, keys: seq<string>, r: Reading, n: nat)
    requires CurrentTable(r).Some? && Distinct(keys)
    requires forall i | 0 <= i < |keys| :: keys[i] in t && keys[i] !in CurrentTable(r).value
    ensures PerformAll(Assigns(t, keys), r, n) == Ok(SetCurrent(r, CurrentTable(r).value + Pick(t, keys)))
  {
    hide CurrentTable, SetCurrent, Pick, Distinct;
    var old' := CurrentTable(r).value;
    if keys == [] {
      PickNothing(t, old');
      SetCurrentSame(r);
    } else {
      var key, rest := keys[0], keys[1..];
      var next := SetCurrent(r, old'[key := t[key]]);
      SetCurrentTwice(r, old'[key := t[key]], old'[key := t[key]] + Pick(t, rest));
      assert Assigns(t, keys)[1..] == Assigns(t, rest);
      DistinctTail(keys);
      AssignsFill(t, rest, next, n + 1);
      PickCons(t, old', keys);
    }
  }

  lemma BodyFills(t: Table, r: Reading, n: nat)
    requires CurrentTable(r) == Some(map[])
    ensures PerformAll(TableBody(t), r, n) == Ok(SetCurrent(r, t))
  {
    hide Sorted, CurrentTable, SetCurrent, Assigns, PerformAll;
    var keys := Sorted(t.Keys);
    assert forall i | 0 <= i < |keys| :: keys[i] in t.Keys;
    forall i, j | 0 <= i < j < |keys| ensures keys[i] != keys[j] { AscendingDistinct(keys, i, j); }
    AssignsFill(t, keys, r, n);
    assert map[] + Pick(t, keys) == t by {
      forall k ensures k in t <==> k in Pick(t, keys) { assert k in t <==> k in t.Keys; }
    }
  }

  // ------------------------------------------------------------------ all tables

  lemma OneTable(path: Segments, t: Table, r: Reading, n: nat)
    requires path !in r.document.tables && path !in r.document.arrays
    ensures PerformAll([Open(path, false)] + TableBody(t), r, n)
      == Ok(Reading(r.document.(tables := r.document.tables[path := t]), TableSection(path)))
  {
    hide TableBody;
    var ss := [Open(path, false)] + TableBody(t);
    assert ss[1..] == TableBody(t);
    var next := Reading(r.document.(tables := r.document.tables[path := map[]]), TableSection(path));
    BodyFills(t, next, n + 1);
    assert r.document.tables[path := map[]][path := t] == r.document.tables[path := t];
  }

  lemma {:induction false} TablesFill(tables: map<Segments, Table>, paths: seq<Segments>, r: Reading, n: nat)
    requires forall i | 0 <= i < |paths| ::
      paths[i] in tables && paths[i] !in r.document.tables && paths[i] !in r.document.arrays
    requires Distinct(paths)
    ensures
      var end := PerformAll(TableStatements(tables, paths), r, n);
      end.Ok? && end.value.document == r.document.(tables := r.document.tables + Pick(tables, paths))
  {
    hide PerformAll, TableBody, Pick, Distinct;
    if paths == [] {
      PickNothing(tables, r.document.tables);
      PerformNothing(r, n);
    } else {
      var path, rest := paths[0], paths[1..];
      var first := [Open(path, false)] + TableBody(tables[path]);
      OneTable(path, tables[path], r, n);
      var next := PerformAll(first, r, n).value;
      DistinctTail(paths);
      TablesFill(tables, rest, next, n + |first|);
      PerformAppend(first, TableStatements(tables, rest), r, n);
      PickCons(tables, r.document.tables, paths);
    }
  }

  lemma PerformNothing(r: Reading, n: nat)
    ensures PerformAll([], r, n) == Ok(r)
  {
  }

  // ------------------------------------------------------------------ all array tables

  function EntriesAt(d: Document, path: Segments): seq<Table> {
    if path in d.arrays then d.arrays[path] else []
  }

  lemma OneEntry(path: Segments, t: Table, r: Reading, n: nat)
    requires path !in r.document.tables
    ensures
      var entries := EntriesAt(r.document, path) + [t];
      PerformAll([Open(path, true)] + TableBody(t), r, n)
        == Ok(Reading(r.document.(arrays := r.document.arrays[path := entries]), ArraySection(path, |entries| - 1)))
  {
    hide TableBody;
    var ss := [Open(path, true)] + TableBody(t);
    assert ss[1..] == TableBody(t);
    var before := EntriesAt(r.document, path);
    var opened' := before + [map[]];
    var next := Reading(r.document.(arrays := r.document.arrays[path := opened']), ArraySection(path, |before|));
    BodyFills(t, next, n + 1);
    assert opened'[|before| := t] == before + [t];
    assert r.document.arrays[path := opened'][path := before + [t]] == r.document.arrays[path := before + [t]];
  }

  lemma {:induction false} EntriesFill(path: Segments, entries: seq<Table>, r: Reading, n: nat)
    requires path !in r.document.tables && entries != []
    ensures
      var end := PerformAll(EntryStatements(path, entries), r, n);
      var all := EntriesAt(r.document, path) + entries;
      end.Ok? && end.value.document == r.document.(arrays := r.document.arrays[path := all])
  {
    hide PerformAll, TableBody;
    var first := [Open(path, true)] + TableBody(entries[0]);
    OneEntry(path, entries[0], r, n);
    var next := PerformAll(first, r, n).value;
    PerformAppend(first, EntryStatements(path, entries[1..]), r, n);
    var before := EntriesAt(r.document, path);
    if |entries| == 1 {
      PerformNothing(next, n + |first|);
      assert entries == [entries[0]];
    } else {
      EntriesFill(path, entries[1..], next, n + |first|);
      assert (before + [entries[0]]) + entries[1..] == before + entries;
      assert next.document.arrays[path := before + entries] == r.document.arrays[path := before + entries];
    }
  }

  lemma {:induction false} ArraysFill(arrays: map<Segments, seq<Table>>, paths: seq<Segments>, r: Reading, n: nat)
    requires forall i | 0 <= i < |paths| ::
      paths[i] in arrays && arrays[paths[i]] != [] && paths[i] !in r.document.tables && paths[i] !in r.document.arrays
    requires Distinct(paths)
    ensures
      var end := PerformAll(ArrayStatements(arrays, paths), r, n);
      end.Ok? && end.value.document == r.document.(arrays := r.document.arrays + Pick(arrays, paths))
  {
    hide PerformAll, EntryStatements, Pick, Distinct;
    if paths == [] {
      PickNothing(arrays, r.document.arrays);
      PerformNothing(r, n);
    } else {
      var path, rest := paths[0], paths[1..];
      var first := EntryStatements(path, arrays[path]);
      EntriesFill(path, arrays[path], r, n);
      var next := PerformAll(first, r, n).value;
      assert [] + arrays[path] == arrays[path];
      DistinctTail(paths);
      ArraysFill(arrays, rest, next, n + |first|);
      PerformAppend(first, ArrayStatements(arrays, rest), r, n);
      PickCons(arrays, r.document.arrays, paths);
    }
  }

  // ------------------------------------------------------------------ the whole document

  ghost predicate ValuesOk(t: Table) {
    forall k | k in t :: Expressible(Assign(k, t[k]))
  }

  ghost predicate PathOk(path: Segments) { Expressible(Open(path, false)) }

  /** What a restricted document may hold. Array tables are not empty and do not share a path with a table. */
  ghost predicate Restricted(d: Document) {
    && ValuesOk(d.root)
    && (forall p | p in d.tables :: PathOk(p) && ValuesOk(d.tables[p]))
    && (forall p | p in d.arrays ::
          && PathOk(p) && p !in d.tables && d.arrays[p] != []
          && forall i | 0 <= i < |d.arrays[p]| :: ValuesOk(d.arrays[p][i]))
  }

  ghost predicate AllExpressible(ss: seq<Statement>) { forall i | 0 <= i < |ss| :: Expressible(ss[i]) }

  lemma BodyExpressible(t: Table)
    requires ValuesOk(t)
    ensures AllExpressible(TableBody(t))
  {
    hide Sorted, Expressible;
    var keys := Sorted(t.Keys);
    assert forall i | 0 <= i < |keys| :: keys[i] in t.Keys;
  }

  lemma HeadExpressible(path: Segments, isArray: bool, t: Table)
    requires PathOk(path) && ValuesOk(t)
    ensures AllExpressible([Open(path, isArray)] + TableBody(t))
  {
    hide TableBody;
    BodyExpressible(t);
  }

  lemma {:induction false} TablesExpressible(tables: map<Segments, Table>, paths: seq<Segments>)
    requires forall i | 0 <= i < |paths| :: paths[i] in tables && PathOk(paths[i]) && ValuesOk(tables[paths[i]])
    ensures AllExpressible(TableStatements(tables, paths))
  {
    hide TableBody, Expressible;
    if paths != [] {
      HeadExpressible(paths[0], false, tables[paths[0]]);
      TablesExpressible(tables, paths[1..]);
    }
  }

  lemma {:induction false} EntriesExpressible(path: Segments, entries: seq<Table>)
    requires PathOk(path) && forall i | 0 <= i < |entries| :: ValuesOk(entries[i])
    ensures AllExpressible(EntryStatements(path, entries))
  {
    hide TableBody, Expressible;
    if entries != [] {
      HeadExpressible(path, true, entries[0]);
      EntriesExpressible(path, entries[1..]);
    }
  }

  lemma {:induction false} ArraysExpressible(arrays: map<Segments, seq<Table>>, paths: seq<Segments>)
    requires forall i | 0 <= i < |paths| ::
      paths[i] in arrays && PathOk(paths[i]) && forall k | 0 <= k < |arrays[paths[i]]| :: ValuesOk(arrays[paths[i]][k])
    ensures AllExpressible(ArrayStatements(arrays, paths))
  {
    hide EntryStatements, Expressible, PathOk, ValuesOk;
    if paths != [] {
      EntriesExpressible(paths[0], arrays[paths[0]]);
      ArraysExpressible(arrays, paths[1..]);
    }
  }

  lemma StatementsBuild(d: Document, tables: seq<Segments>, arrays: seq<Segments>)
    requires Restricted(d) && Enumerates(tables, d.tables) && Enumerates(arrays, d.arrays)
    ensures
      var end := PerformAll(Statements(d, tables, arrays), Reading(Empty, RootSection), 1);
      end.Ok? && end.value.document == d
  {
    hide PerformAll, TableBody, TableStatements, ArrayStatements, ValuesOk, PathOk;
    var r0 := Reading(Empty, RootSection);
    var root, ts, arr := TableBody(d.root), TableStatements(d.tables, tables), ArrayStatements(d.arrays, arrays);
    BodyFills(d.root, r0, 1);
    var r1 := SetCurrent(r0, d.root);
    PerformAppend(root, ts + arr, r0, 1);
    TablesFill(d.tables, tables, r1, 1 + |root|);
    var r2 := PerformAll(ts, r1, 1 + |root|).value;
    PerformAppend(ts, arr, r1, 1 + |root|);
    assert map[] + Pick(d.tables, tables) == d.tables;
    ArraysFill(d.arrays, arrays, r2, 1 + |root| + |ts|);
    assert map[] + Pick(d.arrays, arrays) == d.arrays;
  }

  lemma StatementsExpressible(d: Document, tables: seq<Segments>, arrays: seq<Segments>)
    requires Restricted(d) && Enumerates(tables, d.tables) && Enumerates(arrays, d.arrays)
    ensures AllExpressible(Statements(d, tables, arrays))
  {
    hide TableBody, TableStatements, ArrayStatements, Expressible, ValuesOk, PathOk;
    BodyExpressible(d.root);
    TablesExpressible(d.tables, tables);
    ArraysExpressible(d.arrays, arrays);
  }

  /** However it is written, a restricted document comes back the same. */
  lemma DocumentComesBack(d: Document, tables: seq<Segments>, arrays: seq<Segments>, ps: seq<Piece>,
                          ends: seq<string>)
    requires Restricted(d) && WritesDocument(ps, ends, d, tables, arrays)
    ensures ParseRestrictedToml(TextOf(PieceLines(ps), ends)) == Ok(d)
  {
    hide PerformAll, Statements, Restricted, ParseRestrictedToml, Build, WritesPiece, Ended, Enumerates, Stated;
    StatementsBuild(d, tables, arrays);
    BuildPerforms(ps, 1, Reading(Empty, RootSection), 1);
    ReadingPerformsWhatWasWritten(ps, ends);
  }

  // ------------------------------------------------------------------ every document can be written

  function Printed(ss: seq<Statement>): (ps: seq<Piece>)
    ensures |ps| == |ss| && forall i | 0 <= i < |ss| :: ps[i] == PrintPiece(ss[i])
  {
    if ss == [] then [] else [PrintPiece(ss[0])] + Printed(ss[1..])
  }

  lemma {:induction false} PrintedStates(ss: seq<Statement>)
    ensures Stated(Printed(ss)) == ss
  {
    if ss != [] {
      PrintedStates(ss[1..]);
      assert Printed(ss)[1..] == Printed(ss[1..]);
    }
  }

  lemma {:induction false} PrintedLines(ss: seq<Statement>)
    ensures |PieceLines(Printed(ss))| == |ss|
    ensures forall i | 0 <= i < |ss| :: PieceLines(Printed(ss))[i] == PrintStatement(ss[i])
  {
    hide PrintStatement;
    if ss != [] {
      PrintedLines(ss[1..]);
      assert Printed(ss)[1..] == Printed(ss[1..]);
      var line := PrintStatement(ss[0]);
      assert "" + line + "" == line;
      assert PieceLines(Printed(ss)) == [line] + PieceLines(Printed(ss[1..]));
    }
  }

  lemma CanBeWritten(d: Document, tables: seq<Segments>, arrays: seq<Segments>)
    returns (ps: seq<Piece>, ends: seq<string>)
    requires Restricted(d) && Enumerates(tables, d.tables) && Enumerates(arrays, d.arrays)
    ensures WritesDocument(ps, ends, d, tables, arrays)
  {
    hide Restricted, Statements, Expressible, PrintPiece, PrintStatement, WritesPiece;
    var ss := Statements(d, tables, arrays);
    StatementsExpressible(d, tables, arrays);
    ps, ends := Printed(ss), seq(|ss|, i => "\n");
    PrintedStates(ss);
    PrintedLines(ss);
    forall i | 0 <= i < |ss|
      ensures WritesPiece(ps[i], DELIMITERS)
      ensures '\n' !in PrintStatement(ss[i]) && DropReturn(PrintStatement(ss[i])) == PrintStatement(ss[i])
    {
      StatementPrinted(ss[i]);
    }
  }

  // ------------------------------------------------------------------ what reading can deliver

  lemma {:induction false} SegmentsFilled(raw: seq<string>, n: nat)
    requires AllSegments(raw, n).Ok?
    ensures |AllSegments(raw, n).value| == |raw| && forall i | 0 <= i < |raw| :: AllSegments(raw, n).value[i] != ""
  {
    hide Trim, BasicString, AllBare;
    if raw != [] { SegmentsFilled(raw[1..], n); }
  }

  lemma HeaderExpressible(statement: string, n: nat)
    requires TableHeader(statement, n).Ok?
    ensures PathOk(TableHeader(statement, n).value.0)
  {
    hide AllSegments, SplitDots, Trim;
    var width := if StartsWith(statement, "[[") then 2 else 1;
    SegmentsFilled(SplitDots(Outside, Trim(statement[width..|statement| - width])), n);
  }

  lemma AssignmentExpressible(lines: seq<string>, k: nat, statement: string)
    requires k < |lines|
    ensures
      var r := ReadAssignment(lines, k, statement);
      r.Ok? && r.value.0.Some? ==> Expressible(r.value.0.value)
  {
    hide Gather, Trim, FirstOutside, StringArray, BasicString, TrimStart;
  }

  /** What is read from a line can be written. */
  lemma ReadIsExpressible(lines: seq<string>, k: nat)
    requires k < |lines|
    ensures
      var r := ReadStatement(lines, k);
      r.Ok? && r.value.0.Some? ==> Expressible(r.value.0.value)
  {
    hide ReadAssignment, TableHeader, StripComment, Trim;
    var stripped := StripComment(lines[k], k + 1);
    if stripped.Ok? {
      var statement := Trim(stripped.value);
      AssignmentExpressible(lines, k, statement);
      if TableHeader(statement, k + 1).Ok? { HeaderExpressible(statement, k + 1); }
    }
  }

  lemma OpeningKeepsRestricted(r: Reading, path: Segments, isArray: bool, n: nat)
    requires Restricted(r.document) && PathOk(path) && OpenTable(r, path, isArray, n).Ok?
    ensures Restricted(OpenTable(r, path, isArray, n).value.document)
  {
    hide PathOk, Expressible;
  }

  lemma AssigningKeepsRestricted(r: Reading, key: string, value: Value, n: nat)
    requires Restricted(r.document) && Expressible(Assign(key, value)) && AssignKey(r, key, value, n).Ok?
    ensures Restricted(AssignKey(r, key, value, n).value.document)
  {
    hide PathOk, Expressible;
    var t := CurrentTable(r).value;
    assert ValuesOk(t);
    assert ValuesOk(t[key := value]);
  }

  lemma {:induction false} ReadingStaysRestricted(lines: seq<string>, k: nat, r: Reading)
    requires k <= |lines| && Restricted(r.document)
    ensures ReadFrom(lines, k, r).Ok? ==> Restricted(ReadFrom(lines, k, r).value)
    decreases |lines| - k
  {
    hide ReadStatement, OpenTable, AssignKey, Restricted;
    if k < |lines| {
      var read := ReadStatement(lines, k);
      ReadIsExpressible(lines, k);
      if read.Ok? {
        if read.value.0.None? {
          ReadingStaysRestricted(lines, read.value.1, r);
        } else {
          var next := Perform(r, read.value.0.value, k + 1);
          if next.Ok? {
            match read.value.0.value {
              case Open(path, isArray) => OpeningKeepsRestricted(r, path, isArray, k + 1);
              case Assign(key, value) => AssigningKeepsRestricted(r, key, value, k + 1);
            }
            ReadingStaysRestricted(lines, read.value.1, next.value);
          }
        }
      }
    }
  }

  /** Whatever text is accepted, the document is a restricted one. */
  lemma AcceptedIsRestricted(text: string)
    ensures ParseRestrictedToml(text).Ok? ==> Restricted(ParseRestrictedToml(text).value)
  {
    ReadingStaysRestricted(Lines(text), 0, Reading(Empty, RootSection));
  }

  lemma {:induction false} SomeOrder<V>(m: map<Segments, V>) returns (paths: seq<Segments>)
    ensures Enumerates(paths, m)
    decreases |m|
  {
    if m == map[] {
      paths := [];
    } else {
      var p :| p in m;
      var rest := SomeOrder(m - {p});
      paths := [p] + rest;
    }
  }

  /** The restricted documents are exactly those that some text reads as. */
  lemma RestrictedIffReadable(d: Document)
    ensures Restricted(d) <==> exists text :: ParseRestrictedToml(text) == Ok(d)
  {
    hide ParseRestrictedToml, Restricted, WritesDocument, Enumerates;
    if text :| ParseRestrictedToml(text) == Ok(d) { AcceptedIsRestricted(text); }
    if Restricted(d) {
      var tables := SomeOrder(d.tables);
      var arrays := SomeOrder(d.arrays);
      var ps, ends := CanBeWritten(d, tables, arrays);
      WrittenEnds(ps, ends, d, tables, arrays);
      DocumentComesBack(d, tables, arrays, ps, ends);
    }
  }

  lemma WrittenEnds(ps: seq<Piece>, ends: seq<string>, d: Document, tables: seq<Segments>, arrays: seq<Segments>)
    requires WritesDocument(ps, ends, d, tables, arrays)
    ensures |PieceLines(ps)| == |ends|
  {
  }

  /** Every accepted text: however its document is written, it reads the same. */
  lemma ParsePrintParse(text: string, tables: seq<Segments>, arrays: seq<Segments>, ps: seq<Piece>, ends: seq<string>)
    requires ParseRestrictedToml(text).Ok?
    requires WritesDocument(ps, ends, ParseRestrictedToml(text).value, tables, arrays)
    ensures |PieceLines(ps)| == |ends|
    ensures ParseRestrictedToml(TextOf(PieceLines(ps), ends)) == ParseRestrictedToml(text)
  {
    hide ParseRestrictedToml, Restricted, WritesDocument;
    AcceptedIsRestricted(text);
    WrittenEnds(ps, ends, ParseRestrictedToml(text).value, tables, arrays);
    DocumentComesBack(ParseRestrictedToml(text).value, tables, arrays, ps, ends);
  }
}
