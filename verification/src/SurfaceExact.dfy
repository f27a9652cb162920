/**
 Which changes of an entry are reported (xtask/src/schema_surface.rs:1006-1086), said without comparing: the finest
 differences of the fragments both sides have, and the fragments only one side has.
 */
module SurfaceExact {
  import opened Prelude
  import opened StringOrder
  import opened Json
  import opened JsonPointer
  import opened JsonDiff
  import opened JsonFinest
  import opened Surface

  /** The change stands in the fragment, at the path. */
  ghost predicate StandsIn(c: SurfaceChange, f: Fragment, path: Path) {
    c.file == f.file && c.pointer == Under(f.pointer, path)
  }

  /** Removals are located in the baseline, everything else in what was observed. */
  ghost predicate ChangedWithin(b: Fragment, o: Fragment, c: SurfaceChange) {
    exists path :: Differs(b.value, o.value, path, c.kind) && StandsIn(c, if c.kind == Removed then b else o, path)
  }

  ghost predicate ReportedFor(b: Entry, o: Entry, key: string, c: SurfaceChange) {
    if key in b.fragments && key in o.fragments then ChangedWithin(b.fragments[key], o.fragments[key], c)
    else
      || (key in b.fragments && c.kind == Removed && StandsIn(c, b.fragments[key], []))
      || (key in o.fragments && c.kind == Added && StandsIn(c, o.fragments[key], []))
  }

  /** The key that comes before all others. */
  ghost predicate First(keys: set<string>, key: string) { key in keys && key == Least(keys) }

  ghost predicate Reported(id: string, b: Entry, o: Entry, c: SurfaceChange) {
    && c.entry == id
    && if o.missingRoot
       then exists key :: First(b.fragments.Keys, key) && c.kind == Removed && StandsIn(c, b.fragments[key], [])
       else exists key :: ReportedFor(b, o, key, c)
  }

  lemma UnderNothing(base: string)
    ensures Under(base, []) == base
  {
    assert base + "" == base;
  }

  lemma {:induction false} KeysHave(id: string, b: Entry, o: Entry, keys: seq<string>, c: SurfaceChange)
    ensures c in AllKeyChanges(id, b, o, keys) <==> exists i | 0 <= i < |keys| :: c in KeyChanges(id, b, o, keys[i])
  {
    hide KeyChanges;
    if keys != [] {
      var front, n := keys[..|keys| - 1], |keys| - 1;
      KeysHave(id, b, o, front, c);
      if c in AllKeyChanges(id, b, o, front) {
        var i :| 0 <= i < |front| && c in KeyChanges(id, b, o, front[i]);
        assert keys[i] == front[i];
      }
      if i :| 0 <= i < |keys| && c in KeyChanges(id, b, o, keys[i]) && i != n { assert keys[i] == front[i]; }
    }
  }

  lemma FragmentExactly(id: string, b: Fragment, o: Fragment, c: SurfaceChange)
    ensures c in FragmentChanges(id, b, o) <==> c.entry == id && ChangedWithin(b, o, c)
  {
    hide Diff, Differs, Under;
    var changes := Diff([], b.value, o.value);
    var shown := FragmentChanges(id, b, o);
    assert forall i | 0 <= i < |changes| :: shown[i] == ShowOne(id, b, o, Located(b.pointer, o.pointer, changes[i]));
    if c in shown {
      var i :| 0 <= i < |shown| && shown[i] == c;
      var d := changes[i];
      DiffIsFinest([], b.value, o.value, d);
      assert d.path[0..] == d.path;
      assert StandsIn(c, if c.kind == Removed then b else o, d.path);
    }
    if c.entry == id && ChangedWithin(b, o, c) {
      var path :| Differs(b.value, o.value, path, c.kind) && StandsIn(c, if c.kind == Removed then b else o, path);
      var d := Change(path, c.kind);
      DiffIsFinest([], b.value, o.value, d);
      assert d.path[0..] == d.path && [] <= d.path;
      var i :| 0 <= i < |changes| && changes[i] == d;
      assert shown[i] == c;
    }
  }

  lemma KeyReported(id: string, b: Entry, o: Entry, key: string, c: SurfaceChange)
    ensures c in KeyChanges(id, b, o, key) <==> c.entry == id && ReportedFor(b, o, key, c)
  {
    hide FragmentChanges, ChangedWithin, Under;
    if key in b.fragments && key in o.fragments {
      FragmentExactly(id, b.fragments[key], o.fragments[key], c);
    } else {
      if key in b.fragments { UnderNothing(b.fragments[key].pointer); }
      if key in o.fragments { UnderNothing(o.fragments[key].pointer); }
    }
  }

  /** An entry reports exactly these changes. */
  lemma ChangesExactly(id: string, b: Entry, o: Entry, c: SurfaceChange)
    ensures c in EntryChanges(id, b, o) <==> Reported(id, b, o, c)
  {
    hide AllKeyChanges, KeyChanges, ReportedFor, Under, Sorted;
    if o.missingRoot {
      if b.fragments.Keys != {} {
        var key := Least(b.fragments.Keys);
        assert First(b.fragments.Keys, key);
        UnderNothing(b.fragments[key].pointer);
      }
    } else {
      var keys := Sorted(b.fragments.Keys + o.fragments.Keys);
      KeysHave(id, b, o, keys, c);
      forall key ensures c in KeyChanges(id, b, o, key) <==> c.entry == id && ReportedFor(b, o, key, c) {
        KeyReported(id, b, o, key, c);
      }
      forall key | ReportedFor(b, o, key, c) ensures exists i | 0 <= i < |keys| :: keys[i] == key {
        KeyExists(b, o, key, c);
        assert key in keys;
      }
    }
  }

  lemma KeyExists(b: Entry, o: Entry, key: string, c: SurfaceChange)
    requires ReportedFor(b, o, key, c)
    ensures key in b.fragments.Keys + o.fragments.Keys
  {
  }
}
