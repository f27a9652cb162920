/**
 The append-only surface history (xtask/src/schema_history.rs:69-134, 187-207). A record is keyed by tool,
 version and the set of entries it digests; a batch is written whole or not at all.
 */
module History {
  import opened Prelude

  datatype Record = Record(observedAt: string, tool: string, version: string, digests: map<string, string>)

  datatype Key = Key(tool: string, version: string, entries: set<string>)

  function KeyOf(r: Record): Key { Key(r.tool, r.version, r.digests.Keys) }

  datatype Failure = InvalidRecord(position: nat) | DuplicateRecord | DigestConflict(tool: string, version: string)

  datatype Summary = Summary(appended: nat, deduplicated: nat)

  datatype Appended = Appended(records: seq<Record>, summary: Summary)

  /** Which records are acceptable on their own: timestamp, names and digests. */
  type Check = Record -> bool

  predicate Recorded(log: seq<Record>, key: Key) { exists i | 0 <= i < |log| :: KeyOf(log[i]) == key }

  ghost predicate UniqueKeys(log: seq<Record>) {
    forall i, j | 0 <= i < j < |log| :: KeyOf(log[i]) != KeyOf(log[j])
  }

  /** The record of a key that is in the log. */
  function Find(log: seq<Record>, key: Key): (r: Option<Record>)
    ensures r.Some? ==> r.value in log && KeyOf(r.value) == key
    ensures r.None? <==> !Recorded(log, key)
  {
    if log == [] then None
    else
      var n := |log| - 1;
      if KeyOf(log[n]) == key then Some(log[n])
      else
        assert log == log[..n] + [log[n]];
        Find(log[..n], key)
  }

  /** What one observation does to the log. */
  function AppendOne(ok: Check, log: seq<Record>, o: Record, position: nat): Result<Appended, Failure> {
    if !ok(o) then Err(InvalidRecord(position))
    else
      var known := Find(log, KeyOf(o));
      if known.None? then Ok(Appended(log + [o], Summary(1, 0)))
      else if known.value.digests == o.digests then Ok(Appended(log, Summary(0, 1)))
      else Err(DigestConflict(o.tool, o.version))
  }

  function AppendAll(ok: Check, log: seq<Record>, batch: seq<Record>): Result<Appended, Failure> {
    if batch == [] then Ok(Appended(log, Summary(0, 0)))
    else
      var n := |batch| - 1;
      var before := AppendAll(ok, log, batch[..n]);
      if before.Err? then before
      else
        var one := AppendOne(ok, before.value.records, batch[n], n + 1);
        if one.Err? then one
        else Ok(Appended(one.value.records, Summary(before.value.summary.appended + one.value.summary.appended,
                                                    before.value.summary.deduplicated
                                                      + one.value.summary.deduplicated)))
  }

  // ------------------------------------------------------------------ the file

  predicate FileOk(ok: Check, log: seq<Record>) {
    && (forall i | 0 <= i < |log| :: ok(log[i]))
    && forall i, j | 0 <= i < j < |log| :: KeyOf(log[i]) != KeyOf(log[j])
  }

  class HistoryFile {
    const ok: Check
    /** The records on disk; a file that does not exist holds none. */
    var records: seq<Record>

    constructor (ok: Check)
      ensures this.ok == ok && records == []
    {
      this.ok := ok;
      records := [];
    }

    method ValidateExistingKeys() returns (valid: bool)
      ensures valid <==> UniqueKeys(records)
    {
      var keys: set<Key> := {};
      for i := 0 to |records|
        invariant forall k :: k in keys <==> exists j | 0 <= j < i :: KeyOf(records[j]) == k
        invariant forall a, b | 0 <= a < b < i :: KeyOf(records[a]) != KeyOf(records[b])
      {
        if KeyOf(records[i]) in keys {
          var j :| 0 <= j < i && KeyOf(records[j]) == KeyOf(records[i]);
          return false;
        }
        keys := keys + {KeyOf(records[i])};
      }
      valid := true;
    }

    method ReadHistory() returns (r: Result<seq<Record>, Failure>)
      ensures r.Ok? <==> FileOk(ok, records)
      ensures r.Ok? ==> r.value == records
    {
      for i := 0 to |records|
        invariant forall k | 0 <= k < i :: ok(records[k])
      {
        if !ok(records[i]) {
          return Err(InvalidRecord(i + 1));
        }
      }
      var unique := ValidateExistingKeys();
      if !unique {
        return Err(DuplicateRecord);
      }
      r := Ok(records);
    }

    /** Appends a batch. Nothing is written unless the whole batch is accepted and something is new. */
    method AppendObservations(batch: seq<Record>) returns (r: Result<Summary, Failure>)
      modifies this
      ensures r.Ok? <==> FileOk(ok, old(records)) && AppendAll(ok, old(records), batch).Ok?
      ensures r.Ok? ==>
        && records == AppendAll(ok, old(records), batch).value.records
        && r.value == AppendAll(ok, old(records), batch).value.summary
      ensures r.Err? ==> records == old(records)
    {
      hide AppendOne, FileOk;
      var log :- ReadHistory();
      var summary := Summary(0, 0);
      for i := 0 to |batch|
        invariant records == old(records)
        invariant AppendAll(ok, records, batch[..i]) == Ok(Appended(log, summary))
      {
        assert batch[..i + 1][..i] == batch[..i];
        var one := AppendOne(ok, log, batch[i], i + 1);
        if one.Err? {
          AppendFails(ok, records, batch, i + 1);
          return Err(one.error);
        }
        log := one.value.records;
        summary := Summary(summary.appended + one.value.summary.appended,
          summary.deduplicated + one.value.summary.deduplicated);
      }
      assert batch[..|batch|] == batch;
      GrowsBySuffix(ok, records, batch);
      if summary.appended != 0 {
        records := log;
      }
      r := Ok(summary);
    }
  }

  lemma {:induction false} AppendFails(ok: Check, log: seq<Record>, batch: seq<Record>, k: nat)
    requires k <= |batch| && AppendAll(ok, log, batch[..k]).Err?
    ensures AppendAll(ok, log, batch).Err?
    decreases |batch| - k
  {
    hide AppendOne;
    if k == |batch| {
      assert batch[..k] == batch;
    } else {
      assert batch[..k + 1][..k] == batch[..k];
      AppendFails(ok, log, batch, k + 1);
    }
  }

  // ------------------------------------------------------------------ what a batch does

  /** An accepted batch adds a suffix, as long as the number of records it reports, and accounts for all of it. */
  lemma {:induction false} GrowsBySuffix(ok: Check, log: seq<Record>, batch: seq<Record>)
    requires AppendAll(ok, log, batch).Ok?
    ensures
      var r := AppendAll(ok, log, batch).value;
      && log <= r.records && |r.records| == |log| + r.summary.appended
      && r.summary.appended + r.summary.deduplicated == |batch|
      && (r.summary.appended == 0 ==> r.records == log)
  {
    if batch != [] { GrowsBySuffix(ok, log, batch[..|batch| - 1]); }
  }

  lemma {:induction false} KeysStayUnique(ok: Check, log: seq<Record>, batch: seq<Record>)
    requires FileOk(ok, log) && AppendAll(ok, log, batch).Ok?
    ensures FileOk(ok, AppendAll(ok, log, batch).value.records)
  {
    if batch != [] {
      var n := |batch| - 1;
      KeysStayUnique(ok, log, batch[..n]);
      var before := AppendAll(ok, log, batch[..n]).value.records;
      OneKeepsUnique(ok, before, batch[n], n + 1);
    }
  }

  lemma OneKeepsUnique(ok: Check, log: seq<Record>, o: Record, position: nat)
    requires FileOk(ok, log) && AppendOne(ok, log, o, position).Ok?
    ensures FileOk(ok, AppendOne(ok, log, o, position).value.records)
  {
  }

  lemma {:induction false} FindInside(log: seq<Record>, r: Record)
    requires UniqueKeys(log) && r in log
    ensures Find(log, KeyOf(r)) == Some(r)
  {
    var n := |log| - 1;
    if log[n] != r {
      assert log == log[..n] + [log[n]];
      FindInside(log[..n], r);
      var i :| 0 <= i < n && log[i] == r;
      assert KeyOf(log[i]) != KeyOf(log[n]);
    }
  }

  lemma {:induction false} FindSurvives(log: seq<Record>, more: seq<Record>, key: Key)
    requires UniqueKeys(log + more) && Find(log, key).Some?
    ensures Find(log + more, key) == Find(log, key)
  {
    var r := Find(log, key).value;
    assert r in log + more;
    FindInside(log + more, r);
  }

  /** An observation that was accepted is known from then on, with the same digests. */
  lemma {:induction false} AcceptedIsKnown(ok: Check, log: seq<Record>, batch: seq<Record>, i: nat)
    requires FileOk(ok, log) && AppendAll(ok, log, batch).Ok? && i < |batch|
    ensures
      var known := Find(AppendAll(ok, log, batch).value.records, KeyOf(batch[i]));
      known.Some? && known.value.digests == batch[i].digests && ok(batch[i])
  {
    hide Find, KeyOf;
    var n := |batch| - 1;
    KeysStayUnique(ok, log, batch);
    KeysStayUnique(ok, log, batch[..n]);
    var before, after := AppendAll(ok, log, batch[..n]).value.records, AppendAll(ok, log, batch).value.records;
    if i == n {
      JustAccepted(ok, before, batch[n], n + 1);
    } else {
      AcceptedIsKnown(ok, log, batch[..n], i);
      assert before <= after;
      assert after == before + after[|before|..];
      FindSurvives(before, after[|before|..], KeyOf(batch[i]));
    }
  }

  lemma JustAccepted(ok: Check, log: seq<Record>, o: Record, position: nat)
    requires FileOk(ok, log) && AppendOne(ok, log, o, position).Ok?
    ensures
      var known := Find(AppendOne(ok, log, o, position).value.records, KeyOf(o));
      known.Some? && known.value.digests == o.digests && ok(o)
  {
    OneKeepsUnique(ok, log, o, position);
    if Find(log, KeyOf(o)).None? { FindInside(log + [o], o); }
  }

  lemma {:induction false} KnownBatchIsQuiet(ok: Check, log: seq<Record>, batch: seq<Record>)
    requires forall i | 0 <= i < |batch| ::
      ok(batch[i]) && Find(log, KeyOf(batch[i])).Some? && Find(log, KeyOf(batch[i])).value.digests == batch[i].digests
    ensures AppendAll(ok, log, batch) == Ok(Appended(log, Summary(0, |batch|)))
  {
    hide Find, KeyOf;
    if batch != [] { KnownBatchIsQuiet(ok, log, batch[..|batch| - 1]); }
  }

  /** Repeating an accepted batch appends nothing. */
  lemma RepeatingAppendsNothing(ok: Check, log: seq<Record>, batch: seq<Record>)
    requires FileOk(ok, log) && AppendAll(ok, log, batch).Ok?
    ensures
      var after := AppendAll(ok, log, batch).value.records;
      AppendAll(ok, after, batch) == Ok(Appended(after, Summary(0, |batch|)))
  {
    hide Find, KeyOf, AppendAll, FileOk;
    var after := AppendAll(ok, log, batch).value.records;
    forall i | 0 <= i < |batch|
      ensures ok(batch[i]) && Find(after, KeyOf(batch[i])).Some?
        && Find(after, KeyOf(batch[i])).value.digests == batch[i].digests
    {
      AcceptedIsKnown(ok, log, batch, i);
    }
    KnownBatchIsQuiet(ok, after, batch);
  }

  /** The outcome without the position an invalid record is reported at. */
  function Same(a: Result<Appended, Failure>): Option<seq<Record>> {
    if a.Ok? then Some(a.value.records) else None
  }

  lemma OneAnywhere(ok: Check, log: seq<Record>, o: Record, p: nat, q: nat)
    ensures Same(AppendOne(ok, log, o, p)) == Same(AppendOne(ok, log, o, q))
    ensures AppendOne(ok, log, o, p).Ok? ==> AppendOne(ok, log, o, q) == AppendOne(ok, log, o, p)
  {
  }

  /** Writing a batch in two parts gives the same log, or is refused alike. */
  lemma {:induction false} SplittingGivesTheSameLog(ok: Check, log: seq<Record>, a: seq<Record>, b: seq<Record>)
    requires AppendAll(ok, log, a).Ok?
    ensures Same(AppendAll(ok, log, a + b)) == Same(AppendAll(ok, AppendAll(ok, log, a).value.records, b))
  {
    hide AppendOne;
    if b == [] {
      assert a + b == a;
    } else {
      var n := |b| - 1;
      assert (a + b)[..|a| + n] == a + b[..n] && (a + b)[|a| + n] == b[n];
      SplittingGivesTheSameLog(ok, log, a, b[..n]);
      var mid := AppendAll(ok, log, a + b[..n]);
      if mid.Ok? { OneAnywhere(ok, mid.value.records, b[n], |a| + n + 1, n + 1); }
    }
  }

  // ------------------------------------------------------------------ which batches are accepted

  /** Two records of one tool, one version and the same entries. */
  ghost predicate Alike(a: Record, b: Record) {
    a.tool == b.tool && a.version == b.version && forall e :: e in a.digests <==> e in b.digests
  }

  lemma KeysMeanAlike(a: Record, b: Record)
    ensures KeyOf(a) == KeyOf(b) <==> Alike(a, b)
  {
    if Alike(a, b) {
      assert forall e :: e in a.digests.Keys <==> e in b.digests.Keys;
    }
    if KeyOf(a) == KeyOf(b) {
      forall e ensures e in a.digests <==> e in b.digests { assert e in a.digests.Keys <==> e in b.digests.Keys; }
    }
  }

  /** If the two are alike, they have the same digests. */
  ghost predicate Agree(a: Record, b: Record) { Alike(a, b) ==> a.digests == b.digests }

  /** Every record is valid on its own, and agrees with the log and with the records before it. */
  ghost predicate Consistent(ok: Check, log: seq<Record>, batch: seq<Record>) {
    forall i | 0 <= i < |batch| :: ok(batch[i]) && forall r | r in log + batch[..i] :: Agree(r, batch[i])
  }

  lemma ConsistentSnoc(ok: Check, log: seq<Record>, batch: seq<Record>)
    requires batch != []
    ensures
      var n := |batch| - 1;
      Consistent(ok, log, batch) <==>
        Consistent(ok, log, batch[..n]) && ok(batch[n]) && forall r | r in log + batch[..n] :: Agree(r, batch[n])
  {
    hide Agree;
    var n := |batch| - 1;
    assert forall i | 0 <= i < n :: batch[..n][..i] == batch[..i] && batch[..n][i] == batch[i];
  }

  /** After an accepted batch, a record is known exactly if one like it was there or in the batch. */
  lemma KnownIff(ok: Check, log: seq<Record>, batch: seq<Record>, x: Record)
    requires FileOk(ok, log) && AppendAll(ok, log, batch).Ok?
    ensures
      var known := Find(AppendAll(ok, log, batch).value.records, KeyOf(x));
      && (known.Some? <==> exists r | r in log + batch :: Alike(r, x))
      && (known.Some? ==> forall r | r in log + batch && Alike(r, x) :: r.digests == known.value.digests)
  {
    hide Alike, KeyOf, AppendAll, Find;
    var after := AppendAll(ok, log, batch).value.records;
    KeysStayUnique(ok, log, batch);
    GrowsBySuffix(ok, log, batch);
    forall r | r in log + batch && Alike(r, x)
      ensures Find(after, KeyOf(x)).Some? && Find(after, KeyOf(x)).value.digests == r.digests
    {
      KeysMeanAlike(r, x);
      if r in log {
        assert r in after;
        FindInside(after, r);
      } else {
        var i :| 0 <= i < |batch| && batch[i] == r;
        AcceptedIsKnown(ok, log, batch, i);
      }
    }
    if Find(after, KeyOf(x)).Some? {
      var r := Find(after, KeyOf(x)).value;
      KeysMeanAlike(r, x);
      AllFromSomewhere(ok, log, batch, r);
    }
  }

  lemma {:induction false} AllFromSomewhere(ok: Check, log: seq<Record>, batch: seq<Record>, r: Record)
    requires AppendAll(ok, log, batch).Ok? && r in AppendAll(ok, log, batch).value.records
    ensures r in log + batch
  {
    if batch != [] {
      var n := |batch| - 1;
      assert batch == batch[..n] + [batch[n]];
      if r != batch[n] { AllFromSomewhere(ok, log, batch[..n], r); }
    }
  }

  /** A batch is accepted exactly if it is consistent with the log and with itself. */
  lemma {:induction false} AcceptedIff(ok: Check, log: seq<Record>, batch: seq<Record>)
    requires FileOk(ok, log)
    ensures AppendAll(ok, log, batch).Ok? <==> Consistent(ok, log, batch)
  {
    hide FileOk, Consistent, Alike, KeyOf, Find;
    if batch == [] {
      NothingToAppend(ok, log);
    } else {
      var n := |batch| - 1;
      AcceptedIff(ok, log, batch[..n]);
      ConsistentSnoc(ok, log, batch);
      if AppendAll(ok, log, batch[..n]).Ok? { KnownIff(ok, log, batch[..n], batch[n]); }
    }
  }

  lemma NothingToAppend(ok: Check, log: seq<Record>)
    ensures Consistent(ok, log, [])
  {
  }

  /** The records of a batch that are like none in the log and none before them. */
  ghost function Firsts(log: seq<Record>, batch: seq<Record>): seq<Record> {
    if batch == [] then []
    else
      var n := |batch| - 1;
      Firsts(log, batch[..n]) + if exists r | r in log + batch[..n] :: Alike(r, batch[n]) then [] else [batch[n]]
  }

  /** An accepted batch appends exactly the records that are new, in their order. */
  lemma {:induction false} AppendsTheNew(ok: Check, log: seq<Record>, batch: seq<Record>)
    requires FileOk(ok, log) && AppendAll(ok, log, batch).Ok?
    ensures AppendAll(ok, log, batch).value.records == log + Firsts(log, batch)
  {
    hide FileOk, Alike, KeyOf, Find;
    if batch != [] {
      var n := |batch| - 1;
      AppendsTheNew(ok, log, batch[..n]);
      KnownIff(ok, log, batch[..n], batch[n]);
    }
  }
}
