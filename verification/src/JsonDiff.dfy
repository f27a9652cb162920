/**
 The structural comparison of two JSON documents (xtask/src/schema.rs:1142-1206, and
 xtask/src/schema_surface.rs:1006-1086 for fragments found at different pointers): it is empty exactly
 for equal documents, no reported position lies under another, and replaying the reported changes on
 the old document gives the new one.
 */
module JsonDiff {
  import opened Prelude
  import opened StringOrder
  import opened Json
  import opened JsonPointer

  datatype ChangeKind = Added | Changed | Removed

  datatype Change = Change(path: Path, kind: ChangeKind)

  // ------------------------------------------------------------------ the comparison

  /** The changes from `a` to `b`, both found at path `at`, in the order they are reported. */
  function Diff(at: Path, a: Json, b: Json): seq<Change>
    decreases a, 1, 0
  {
    if a.Object? && b.Object? then DiffKeys(at, a, b, Sorted(a.members.Keys + b.members.Keys))
    else if a.Array? && b.Array? then DiffItems(at, a, b, Longer(a, b))
    else if a == b then []
    else [Change(at, Changed)]
  }

  function Longer(a: Json, b: Json): nat
    requires a.Array? && b.Array?
  {
    if |a.items| >= |b.items| then |a.items| else |b.items|
  }

  /** The changes under one key. */
  function DiffKey(at: Path, a: Json, b: Json, key: string): seq<Change>
    requires a.Object? && b.Object?
    decreases a, 0, 0
  {
    if key in a.members && key in b.members then Diff(at + [key], a.members[key], b.members[key])
    else if key in a.members then [Change(at + [key], Removed)]
    else if key in b.members then [Change(at + [key], Added)]
    else []
  }

  function DiffKeys(at: Path, a: Json, b: Json, keys: seq<string>): seq<Change>
    requires a.Object? && b.Object?
    decreases a, 0, |keys| + 1
  {
    if keys == [] then []
    else DiffKeys(at, a, b, keys[..|keys| - 1]) + DiffKey(at, a, b, keys[|keys| - 1])
  }

  /** The changes at one index. */
  function DiffItem(at: Path, a: Json, b: Json, i: nat): seq<Change>
    requires a.Array? && b.Array?
    decreases a, 0, 0
  {
    if i < |a.items| && i < |b.items| then Diff(at + [NatText(i)], a.items[i], b.items[i])
    else if i < |a.items| then [Change(at + [NatText(i)], Removed)]
    else if i < |b.items| then [Change(at + [NatText(i)], Added)]
    else []
  }

  function DiffItems(at: Path, a: Json, b: Json, n: nat): seq<Change>
    requires a.Array? && b.Array?
    decreases a, 0, n + 1
  {
    if n == 0 then [] else DiffItems(at, a, b, n - 1) + DiffItem(at, a, b, n - 1)
  }

  // ------------------------------------------------------------------ the procedure

  datatype PointerChange = PointerChange(pointer: string, kind: ChangeKind)

  /**
   A change as it is reported: a removal is located in the old document, an addition or replacement in
   the new one. The two documents are named by the pointers their comparison starts from.
   */
  function Located(oldBase: string, newBase: string, c: Change): PointerChange {
    PointerChange(Under(if c.kind == Removed then oldBase else newBase, c.path), c.kind)
  }

  function Rendered(oldBase: string, newBase: string, changes: seq<Change>): (out: seq<PointerChange>)
    ensures |out| == |changes|
  {
    seq(|changes|, i requires 0 <= i < |changes| => Located(oldBase, newBase, changes[i]))
  }

  lemma RenderedAppend(oldBase: string, newBase: string, xs: seq<Change>, ys: seq<Change>)
    ensures Rendered(oldBase, newBase, xs + ys) == Rendered(oldBase, newBase, xs) + Rendered(oldBase, newBase, ys)
  {
  }

  lemma ChildPointerIsUnder(base: string, path: Path, token: string)
    ensures ChildPointer(Under(base, path), token) == Under(base, path + [token])
  {
    hide EscapeToken;
    PointerGrows(path, token);
  }

  /** Where a comparison has got to: the pointers of the two values being compared. */
  datatype Cursor = Cursor(oldBase: string, newBase: string, oldPointer: string, newPointer: string) {
    ghost predicate At(at: Path) { oldPointer == Under(oldBase, at) && newPointer == Under(newBase, at) }

    function Enter(token: string): Cursor {
      Cursor(oldBase, newBase, ChildPointer(oldPointer, token), ChildPointer(newPointer, token))
    }

    ghost function Shown(changes: seq<Change>): seq<PointerChange> { Rendered(oldBase, newBase, changes) }
  }

  lemma EnterMoves(cursor: Cursor, at: Path, token: string)
    requires cursor.At(at)
    ensures cursor.Enter(token).At(at + [token])
  {
    hide ChildPointer, Under;
    ChildPointerIsUnder(cursor.oldBase, at, token);
    ChildPointerIsUnder(cursor.newBase, at, token);
  }

  /** Appends the changes between two values to a list. */
  method CompareJson(cursor: Cursor, ghost at: Path, a: Json, b: Json, changes: seq<PointerChange>)
    returns (out: seq<PointerChange>)
    requires cursor.At(at)
    ensures out == changes + cursor.Shown(Diff(at, a, b))
    decreases a, 1, 0
  {
    if a.Object? && b.Object? {
      out := CompareMembers(cursor, at, a, b, changes);
    } else if a.Array? && b.Array? {
      out := CompareElements(cursor, at, a, b, changes);
    } else if a == b {
      out := changes;
    } else {
      out := changes + [PointerChange(cursor.newPointer, Changed)];
    }
  }

  method CompareMembers(cursor: Cursor, ghost at: Path, a: Json, b: Json, changes: seq<PointerChange>)
    returns (out: seq<PointerChange>)
    requires cursor.At(at) && a.Object? && b.Object?
    ensures out == changes + cursor.Shown(DiffKeys(at, a, b, Sorted(a.members.Keys + b.members.Keys)))
    decreases a, 0, 1
  {
    hide Sorted, Under, DiffKey, DiffKeys, Rendered;
    out := changes;
    var keys := Sorted(a.members.Keys + b.members.Keys);
    NoKeysShown(cursor, at, a, b);
    assert keys[..0] == [] && changes + [] == changes;
    for i := 0 to |keys|
      invariant out == changes + cursor.Shown(DiffKeys(at, a, b, keys[..i]))
    {
      KeysShown(cursor, at, a, b, keys, i);
      ghost var shown, next := cursor.Shown(DiffKeys(at, a, b, keys[..i])), cursor.Shown(DiffKey(at, a, b, keys[i]));
      assert (changes + shown) + next == changes + (shown + next);
      out := CompareMember(cursor, at, a, b, keys[i], out);
    }
    assert keys[..|keys|] == keys;
  }

  lemma NoKeysShown(cursor: Cursor, at: Path, a: Json, b: Json)
    requires a.Object? && b.Object?
    ensures cursor.Shown(DiffKeys(at, a, b, [])) == []
  {
  }

  lemma KeysShown(cursor: Cursor, at: Path, a: Json, b: Json, keys: seq<string>, i: nat)
    requires a.Object? && b.Object? && i < |keys|
    ensures cursor.Shown(DiffKeys(at, a, b, keys[..i + 1]))
      == cursor.Shown(DiffKeys(at, a, b, keys[..i])) + cursor.Shown(DiffKey(at, a, b, keys[i]))
  {
    hide DiffKey, Located;
    assert keys[..i + 1][..i] == keys[..i];
    RenderedAppend(cursor.oldBase, cursor.newBase, DiffKeys(at, a, b, keys[..i]), DiffKey(at, a, b, keys[i]));
  }

  method CompareMember(cursor: Cursor, ghost at: Path, a: Json, b: Json, key: string, changes: seq<PointerChange>)
    returns (out: seq<PointerChange>)
    requires cursor.At(at) && a.Object? && b.Object?
    ensures out == changes + cursor.Shown(DiffKey(at, a, b, key))
    decreases a, 0, 0
  {
    hide Under, ChildPointer;
    var child := cursor.Enter(key);
    EnterMoves(cursor, at, key);
    if key in a.members && key in b.members {
      out := CompareJson(child, at + [key], a.members[key], b.members[key], changes);
    } else if key in a.members {
      out := changes + [PointerChange(child.oldPointer, Removed)];
    } else if key in b.members {
      out := changes + [PointerChange(child.newPointer, Added)];
    } else {
      out := changes;
    }
  }

  method CompareElements(cursor: Cursor, ghost at: Path, a: Json, b: Json, changes: seq<PointerChange>)
    returns (out: seq<PointerChange>)
    requires cursor.At(at) && a.Array? && b.Array?
    ensures out == changes + cursor.Shown(DiffItems(at, a, b, Longer(a, b)))
    decreases a, 0, 1
  {
    hide Under, DiffItem, Located;
    out := changes;
    for i := 0 to Longer(a, b)
      invariant out == changes + cursor.Shown(DiffItems(at, a, b, i))
    {
      RenderedAppend(cursor.oldBase, cursor.newBase, DiffItems(at, a, b, i), DiffItem(at, a, b, i));
      out := CompareElement(cursor, at, a, b, i, out);
    }
  }

  method CompareElement(cursor: Cursor, ghost at: Path, a: Json, b: Json, i: nat, changes: seq<PointerChange>)
    returns (out: seq<PointerChange>)
    requires cursor.At(at) && a.Array? && b.Array?
    ensures out == changes + cursor.Shown(DiffItem(at, a, b, i))
    decreases a, 0, 0
  {
    hide Under, ChildPointer, NatText;
    var token := NatText(i);
    var child := cursor.Enter(token);
    EnterMoves(cursor, at, token);
    if i < |a.items| && i < |b.items| {
      out := CompareJson(child, at + [token], a.items[i], b.items[i], changes);
    } else if i < |a.items| {
      out := changes + [PointerChange(child.oldPointer, Removed)];
    } else if i < |b.items| {
      out := changes + [PointerChange(child.newPointer, Added)];
    } else {
      out := changes;
    }
  }

  // ------------------------------------------------------------------ empty exactly for equal documents

  lemma {:induction false} DiffKeysHas(at: Path, a: Json, b: Json, keys: seq<string>, c: Change)
    requires a.Object? && b.Object?
    ensures c in DiffKeys(at, a, b, keys) <==> exists i :: 0 <= i < |keys| && c in DiffKey(at, a, b, keys[i])
  {
    if keys != [] {
      var front, n := keys[..|keys| - 1], |keys| - 1;
      DiffKeysHas(at, a, b, front, c);
      if c in DiffKeys(at, a, b, front) {
        var i :| 0 <= i < |front| && c in DiffKey(at, a, b, front[i]);
        assert keys[i] == front[i];
      }
      if i :| 0 <= i < |keys| && c in DiffKey(at, a, b, keys[i]) && i != n {
        assert keys[i] == front[i];
      }
    }
  }

  lemma {:induction false} DiffItemsHas(at: Path, a: Json, b: Json, n: nat, c: Change)
    requires a.Array? && b.Array?
    ensures c in DiffItems(at, a, b, n) <==> exists i: nat :: i < n && c in DiffItem(at, a, b, i)
  {
    hide DiffItem;
    if n != 0 {
      DiffItemsHas(at, a, b, n - 1, c);
      var last := DiffItem(at, a, b, n - 1);
      assert c in DiffItems(at, a, b, n) <==> c in DiffItems(at, a, b, n - 1) || c in last;
      var k: nat := n - 1;
      assert c in last <==> k < n && c in DiffItem(at, a, b, k);
      if i: nat :| i < n && c in DiffItem(at, a, b, i) && i != k {
        assert i < n - 1;
      }
    }
  }

  lemma {:induction false} EqualHasNoChange(at: Path, a: Json)
    ensures Diff(at, a, a) == []
    decreases a
  {
    if a.Object? {
      var keys := Sorted(a.members.Keys + a.members.Keys);
      forall i | 0 <= i < |keys| ensures DiffKey(at, a, a, keys[i]) == [] {
        if keys[i] in a.members { EqualHasNoChange(at + [keys[i]], a.members[keys[i]]); }
      }
      NoKeyChange(at, a, a, keys);
    } else if a.Array? {
      forall i: nat | i < |a.items| ensures DiffItem(at, a, a, i) == [] {
        EqualHasNoChange(at + [NatText(i)], a.items[i]);
      }
      NoItemChange(at, a, a, |a.items|);
    }
  }

  lemma {:induction false} NoKeyChange(at: Path, a: Json, b: Json, keys: seq<string>)
    requires a.Object? && b.Object?
    ensures DiffKeys(at, a, b, keys) == [] <==> forall i | 0 <= i < |keys| :: DiffKey(at, a, b, keys[i]) == []
  {
    if keys != [] {
      var front := keys[..|keys| - 1];
      NoKeyChange(at, a, b, front);
      assert forall i | 0 <= i < |front| :: front[i] == keys[i];
    }
  }

  lemma {:induction false} NoItemChange(at: Path, a: Json, b: Json, n: nat)
    requires a.Array? && b.Array?
    ensures DiffItems(at, a, b, n) == [] <==> forall i: nat | i < n :: DiffItem(at, a, b, i) == []
  {
    if n != 0 {
      NoItemChange(at, a, b, n - 1);
      assert DiffItems(at, a, b, n) == [] <==> DiffItems(at, a, b, n - 1) == [] && DiffItem(at, a, b, n - 1) == [];
    }
  }

  lemma {:induction false} NoChangeIsEqual(at: Path, a: Json, b: Json)
    requires Diff(at, a, b) == []
    ensures a == b
    decreases a
  {
    if a.Object? && b.Object? {
      var keys := Sorted(a.members.Keys + b.members.Keys);
      NoKeyChange(at, a, b, keys);
      forall k | k in a.members.Keys + b.members.Keys
        ensures k in a.members && k in b.members && a.members[k] == b.members[k]
      {
        var i :| 0 <= i < |keys| && keys[i] == k;
        assert DiffKey(at, a, b, keys[i]) == [];
        NoChangeIsEqual(at + [k], a.members[k], b.members[k]);
      }
      assert a.members == b.members;
    } else if a.Array? && b.Array? {
      NoItemChange(at, a, b, Longer(a, b));
      forall i: nat | i < Longer(a, b)
        ensures i < |a.items| && i < |b.items| && a.items[i] == b.items[i]
      {
        assert DiffItem(at, a, b, i) == [];
        NoChangeIsEqual(at + [NatText(i)], a.items[i], b.items[i]);
      }
      assert a.items == b.items;
    }
  }

  /** The comparison reports nothing exactly when the documents are equal. */
  lemma DiffEmptyIffEqual(at: Path, a: Json, b: Json)
    ensures Diff(at, a, b) == [] <==> a == b
  {
    if a == b {
      EqualHasNoChange(at, a);
    }
    if Diff(at, a, b) == [] {
      NoChangeIsEqual(at, a, b);
    }
  }

  // ------------------------------------------------------------------ no position lies under another

  ghost predicate Apart(p: Path, q: Path) { !(p <= q) && !(q <= p) }

  ghost predicate Antichain(changes: seq<Change>) {
    forall i, j | 0 <= i < |changes| && 0 <= j < |changes| && i != j :: Apart(changes[i].path, changes[j].path)
  }

  ghost predicate AllUnder(at: Path, changes: seq<Change>) {
    forall i | 0 <= i < |changes| :: at <= changes[i].path
  }

  lemma BranchesApart(at: Path, k: string, k': string, p: Path, q: Path)
    requires k != k' && at + [k] <= p && at + [k'] <= q
    ensures Apart(p, q)
  {
    assert p[|at|] == (at + [k])[|at|] == k && q[|at|] == (at + [k'])[|at|] == k';
  }

  /** A segment under `at + [key]`. */
  lemma {:induction false} DiffUnder(at: Path, a: Json, b: Json)
    ensures AllUnder(at, Diff(at, a, b))
    decreases a, 1, 0
  {
    if a.Object? && b.Object? {
      KeysUnder(at, a, b, Sorted(a.members.Keys + b.members.Keys));
    } else if a.Array? && b.Array? {
      ItemsUnder(at, a, b, Longer(a, b));
    }
  }

  lemma KeyUnder(at: Path, a: Json, b: Json, key: string)
    requires a.Object? && b.Object?
    ensures AllUnder(at + [key], DiffKey(at, a, b, key))
    decreases a, 0, 0
  {
    if key in a.members && key in b.members { DiffUnder(at + [key], a.members[key], b.members[key]); }
  }

  lemma {:induction false} KeysUnder(at: Path, a: Json, b: Json, keys: seq<string>)
    requires a.Object? && b.Object?
    ensures AllUnder(at, DiffKeys(at, a, b, keys))
    decreases a, 0, |keys| + 1
  {
    if keys != [] {
      var key := keys[|keys| - 1];
      KeysUnder(at, a, b, keys[..|keys| - 1]);
      KeyUnder(at, a, b, key);
      Shorten(at, key, DiffKey(at, a, b, key));
    }
  }

  lemma Shorten(at: Path, token: string, changes: seq<Change>)
    requires AllUnder(at + [token], changes)
    ensures AllUnder(at, changes)
  {
    forall i | 0 <= i < |changes| ensures at <= changes[i].path {
      assert at <= at + [token] <= changes[i].path;
    }
  }

  lemma ItemUnder(at: Path, a: Json, b: Json, i: nat)
    requires a.Array? && b.Array?
    ensures AllUnder(at + [NatText(i)], DiffItem(at, a, b, i))
    decreases a, 0, 0
  {
    if i < |a.items| && i < |b.items| { DiffUnder(at + [NatText(i)], a.items[i], b.items[i]); }
  }

  lemma {:induction false} ItemsUnder(at: Path, a: Json, b: Json, n: nat)
    requires a.Array? && b.Array?
    ensures AllUnder(at, DiffItems(at, a, b, n))
    decreases a, 0, n + 1
  {
    if n != 0 {
      ItemsUnder(at, a, b, n - 1);
      ItemUnder(at, a, b, n - 1);
      Shorten(at, NatText(n - 1), DiffItem(at, a, b, n - 1));
    }
  }

  lemma AntichainAppend(xs: seq<Change>, ys: seq<Change>)
    requires Antichain(xs) && Antichain(ys)
    requires forall x, y | x in xs && y in ys :: Apart(x.path, y.path)
    ensures Antichain(xs + ys)
  {
  }

  /** No reported position is another one or lies under it. */
  lemma {:induction false} DiffAntichain(at: Path, a: Json, b: Json)
    ensures Antichain(Diff(at, a, b))
    decreases a, 1, 0
  {
    if a.Object? && b.Object? {
      var keys := Sorted(a.members.Keys + b.members.Keys);
      forall i, j | 0 <= i < j < |keys| ensures keys[i] != keys[j] { AscendingDistinct(keys, i, j); }
      KeysAntichain(at, a, b, keys);
    } else if a.Array? && b.Array? {
      ItemsAntichain(at, a, b, Longer(a, b));
    }
  }

  lemma {:induction false} KeysAntichain(at: Path, a: Json, b: Json, keys: seq<string>)
    requires a.Object? && b.Object?
    requires forall i, j | 0 <= i < j < |keys| :: keys[i] != keys[j]
    ensures Antichain(DiffKeys(at, a, b, keys))
    decreases a, 0, |keys| + 1
  {
    if keys != [] {
      var front, key := keys[..|keys| - 1], keys[|keys| - 1];
      KeysAntichain(at, a, b, front);
      var xs, ys := DiffKeys(at, a, b, front), DiffKey(at, a, b, key);
      if key in a.members && key in b.members { DiffAntichain(at + [key], a.members[key], b.members[key]); }
      KeyUnder(at, a, b, key);
      forall x, y | x in xs && y in ys ensures Apart(x.path, y.path) {
        DiffKeysHas(at, a, b, front, x);
        var i :| 0 <= i < |front| && x in DiffKey(at, a, b, front[i]);
        KeyUnder(at, a, b, front[i]);
        assert keys[i] == front[i];
        BranchesApart(at, front[i], key, x.path, y.path);
      }
      AntichainAppend(xs, ys);
    }
  }

  lemma {:induction false} ItemsAntichain(at: Path, a: Json, b: Json, n: nat)
    requires a.Array? && b.Array?
    ensures Antichain(DiffItems(at, a, b, n))
    decreases a, 0, n + 1
  {
    if n != 0 {
      ItemsAntichain(at, a, b, n - 1);
      var xs, ys := DiffItems(at, a, b, n - 1), DiffItem(at, a, b, n - 1);
      if n - 1 < |a.items| && n - 1 < |b.items| {
        DiffAntichain(at + [NatText(n - 1)], a.items[n - 1], b.items[n - 1]);
      }
      ItemUnder(at, a, b, n - 1);
      forall x, y | x in xs && y in ys ensures Apart(x.path, y.path) {
        DiffItemsHas(at, a, b, n - 1, x);
        var i: nat :| i < n - 1 && x in DiffItem(at, a, b, i);
        ItemUnder(at, a, b, i);
        if NatText(i) == NatText(n - 1) { NatTextInjective(i, n - 1); }
        BranchesApart(at, NatText(i), NatText(n - 1), x.path, y.path);
      }
      AntichainAppend(xs, ys);
    }
  }

  // ------------------------------------------------------------------ replaying the changes

  /** The values that the reported additions and replacements refer to, by position. */
  type Values = map<Path, Json>

  ghost function AddedKeys(at: Path, d: seq<Change>, values: Values): set<string> {
    set p | p in values && |p| == |at| + 1 && at <= p && Change(p, Added) in d :: p[|at|]
  }

  ghost function KeptKeys(at: Path, m: map<string, Json>, d: seq<Change>): set<string> {
    set k | k in m && Change(at + [k], Removed) !in d
  }

  lemma AddedKeyHasValue(at: Path, d: seq<Change>, values: Values, k: string)
    ensures k in AddedKeys(at, d, values) <==> at + [k] in values && Change(at + [k], Added) in d
  {
    if k in AddedKeys(at, d, values) {
      var p :| p in values && |p| == |at| + 1 && at <= p && Change(p, Added) in d && p[|at|] == k;
      assert p == at + [k];
    }
    if at + [k] in values && Change(at + [k], Added) in d {
      assert (at + [k])[|at|] == k;
    }
  }

  /** Applies removals, additions and replacements to a document, the way their pointers read. */
  ghost function Patched(at: Path, was: Json, d: seq<Change>, values: Values): Json
    decreases was, 1, 0
  {
    if Change(at, Changed) in d && at in values then values[at]
    else
      match was
      case Object(m) =>
        var added := AddedKeys(at, d, values);
        Object(map k | k in KeptKeys(at, m, d) + added ::
                 if k in added then (AddedKeyHasValue(at, d, values, k); values[at + [k]])
                 else Patched(at + [k], m[k], d, values))
      case Array(items) => Array(PatchedItems(at, was, d, values, |items|) + AddedItems(at, |items|, d, values))
      case _ => was
  }

  ghost function PatchedItems(at: Path, was: Json, d: seq<Change>, values: Values, n: nat): seq<Json>
    requires was.Array? && n <= |was.items|
    decreases was, 0, n
  {
    if n == 0 then []
    else
      var token := at + [NatText(n - 1)];
      PatchedItems(at, was, d, values, n - 1)
      + if Change(token, Removed) in d then [] else [Patched(token, was.items[n - 1], d, values)]
  }

  /** The added elements, in the order of their indices, which continue from `n`. */
  ghost function AddedItems(at: Path, n: nat, d: seq<Change>, values: Values): seq<Json> {
    seq(|AddedKeys(at, d, values)|, i requires 0 <= i =>
      var token := at + [NatText(n + i)];
      if token in values then values[token] else Null)
  }

  /** Under `at`, the changes are those between `a` and `b`, and the values are those of `b`. */
  ghost predicate Describes(at: Path, a: Json, b: Json, d: seq<Change>, values: Values) {
    && (forall c: Change | at <= c.path :: c in d <==> c in Diff(at, a, b))
    && (forall c | c in d && at <= c.path && c.kind != Removed ::
          c.path in values && Lookup(b, c.path[|at|..]) == Some(values[c.path]))
  }

  /** A change of the value itself is a replacement. */
  lemma ChangeHereIsReplacement(at: Path, a: Json, b: Json, kind: ChangeKind)
    ensures Change(at, kind) in Diff(at, a, b) <==>
      kind == Changed && a != b && !(a.Object? && b.Object?) && !(a.Array? && b.Array?)
  {
    var c := Change(at, kind);
    if a.Object? && b.Object? {
      DiffKeysHas(at, a, b, Sorted(a.members.Keys + b.members.Keys), c);
      forall key ensures c !in DiffKey(at, a, b, key) { KeyUnder(at, a, b, key); }
    } else if a.Array? && b.Array? {
      DiffItemsHas(at, a, b, Longer(a, b), c);
      forall i: nat ensures c !in DiffItem(at, a, b, i) { ItemUnder(at, a, b, i); }
    }
  }

  /** Under one key, the changes are those of that key. */
  lemma ChangesUnderKey(at: Path, a: Json, b: Json, key: string, c: Change)
    requires a.Object? && b.Object? && at + [key] <= c.path
    ensures c in Diff(at, a, b) <==> c in DiffKey(at, a, b, key)
  {
    hide DiffKey;
    var keys := Sorted(a.members.Keys + b.members.Keys);
    DiffKeysHas(at, a, b, keys, c);
    if i :| 0 <= i < |keys| && c in DiffKey(at, a, b, keys[i]) {
      KeyUnder(at, a, b, keys[i]);
      if keys[i] != key { BranchesApart(at, keys[i], key, c.path, c.path); }
    }
    if c in DiffKey(at, a, b, key) {
      UnknownKeyHasNoChange(at, a, b, key);
      assert key in keys;
    }
  }

  lemma UnknownKeyHasNoChange(at: Path, a: Json, b: Json, key: string)
    requires a.Object? && b.Object?
    ensures DiffKey(at, a, b, key) == [] || key in a.members.Keys + b.members.Keys
  {
  }

  lemma ChangesUnderIndex(at: Path, a: Json, b: Json, i: nat, c: Change)
    requires a.Array? && b.Array? && at + [NatText(i)] <= c.path
    ensures c in Diff(at, a, b) <==> c in DiffItem(at, a, b, i)
  {
    hide DiffItem, NatText;
    DiffItemsHas(at, a, b, Longer(a, b), c);
    if k: nat :| k < Longer(a, b) && c in DiffItem(at, a, b, k) {
      ItemUnder(at, a, b, k);
      if NatText(k) != NatText(i) { BranchesApart(at, NatText(k), NatText(i), c.path, c.path); }
      NatTextInjective(k, i);
    }
    if c in DiffItem(at, a, b, i) {
      UnknownIndexHasNoChange(at, a, b, i);
    }
  }

  lemma UnknownIndexHasNoChange(at: Path, a: Json, b: Json, i: nat)
    requires a.Array? && b.Array?
    ensures DiffItem(at, a, b, i) == [] || i < Longer(a, b)
  {
  }

  lemma LookupUnder(b: Json, at: Path, token: string, path: Path)
    requires at + [token] <= path
    ensures path[|at|..] == [token] + path[|at| + 1..]
    ensures Lookup(b, path[|at|..]) == var child := Child(b, token); if child.None? then None
      else Lookup(child.value, path[|at| + 1..])
  {
    assert path[|at|] == (at + [token])[|at|] == token;
  }

  lemma MemberDescribed(at: Path, a: Json, b: Json, d: seq<Change>, values: Values, key: string)
    requires a.Object? && b.Object? && key in a.members && key in b.members
    requires Describes(at, a, b, d, values)
    ensures Describes(at + [key], a.members[key], b.members[key], d, values)
  {
    forall c: Change | at + [key] <= c.path
      ensures c in d <==> c in Diff(at + [key], a.members[key], b.members[key])
      ensures c in d && c.kind != Removed ==>
        c.path in values && Lookup(b.members[key], c.path[|at + [key]|..]) == Some(values[c.path])
    {
      assert at <= c.path;
      ChangesUnderKey(at, a, b, key, c);
      LookupUnder(b, at, key, c.path);
    }
  }

  /** What the changes say of one key: removed, added with its new value, or kept. */
  lemma KeyFate(at: Path, a: Json, b: Json, d: seq<Change>, values: Values, key: string)
    requires a.Object? && b.Object? && Describes(at, a, b, d, values)
    ensures Change(at + [key], Removed) in d <==> key in a.members && key !in b.members
    ensures key in AddedKeys(at, d, values) <==> key !in a.members && key in b.members
    ensures key in AddedKeys(at, d, values) ==> at + [key] in values && values[at + [key]] == b.members[key]
  {
    var p := at + [key];
    ChangesUnderKey(at, a, b, key, Change(p, Removed));
    ChangesUnderKey(at, a, b, key, Change(p, Added));
    if key in a.members && key in b.members {
      ChangeHereIsReplacement(p, a.members[key], b.members[key], Removed);
      ChangeHereIsReplacement(p, a.members[key], b.members[key], Added);
    }
    AddedKeyHasValue(at, d, values, key);
    LookupUnder(b, at, key, p);
    assert p[|at| + 1..] == [];
  }

  lemma ElementDescribed(at: Path, a: Json, b: Json, d: seq<Change>, values: Values, i: nat)
    requires a.Array? && b.Array? && i < |a.items| && i < |b.items|
    requires Describes(at, a, b, d, values)
    ensures Describes(at + [NatText(i)], a.items[i], b.items[i], d, values)
  {
    hide NatText;
    var p := at + [NatText(i)];
    IndexToken(i);
    forall c: Change | p <= c.path
      ensures c in d <==> c in Diff(p, a.items[i], b.items[i])
      ensures c in d && c.kind != Removed ==>
        c.path in values && Lookup(b.items[i], c.path[|p|..]) == Some(values[c.path])
    {
      assert at <= c.path;
      ChangesUnderIndex(at, a, b, i, c);
      LookupUnder(b, at, NatText(i), c.path);
    }
  }

  lemma IndexFate(at: Path, a: Json, b: Json, d: seq<Change>, values: Values, i: nat)
    requires a.Array? && b.Array? && Describes(at, a, b, d, values)
    ensures Change(at + [NatText(i)], Removed) in d <==> |b.items| <= i < |a.items|
    ensures NatText(i) in AddedKeys(at, d, values) <==> |a.items| <= i < |b.items|
    ensures NatText(i) in AddedKeys(at, d, values) ==>
      at + [NatText(i)] in values && values[at + [NatText(i)]] == b.items[i]
  {
    hide NatText;
    var p := at + [NatText(i)];
    IndexToken(i);
    ChangesUnderIndex(at, a, b, i, Change(p, Removed));
    ChangesUnderIndex(at, a, b, i, Change(p, Added));
    if i < |a.items| && i < |b.items| {
      ChangeHereIsReplacement(p, a.items[i], b.items[i], Removed);
      ChangeHereIsReplacement(p, a.items[i], b.items[i], Added);
    }
    AddedKeyHasValue(at, d, values, NatText(i));
    LookupUnder(b, at, NatText(i), p);
    assert p[|at| + 1..] == [];
  }

  /** Only indices are added to an array. */
  lemma AddedAreIndices(at: Path, a: Json, b: Json, d: seq<Change>, values: Values, key: string)
    requires a.Array? && b.Array? && Describes(at, a, b, d, values)
    requires key in AddedKeys(at, d, values)
    ensures exists i: nat :: |a.items| <= i < |b.items| && key == NatText(i)
  {
    hide NatText;
    AddedKeyHasValue(at, d, values, key);
    var c := Change(at + [key], Added);
    assert c in Diff(at, a, b);
    DiffItemsHas(at, a, b, Longer(a, b), c);
    var i: nat :| i < Longer(a, b) && c in DiffItem(at, a, b, i);
    ItemUnder(at, a, b, i);
    if NatText(i) != key { BranchesApart(at, NatText(i), key, c.path, c.path); }
    IndexFate(at, a, b, d, values, i);
  }

  ghost function IndexTokens(lo: nat, hi: nat): set<string> {
    set i: nat | lo <= i < hi :: NatText(i)
  }

  lemma {:induction false} CountIndexTokens(lo: nat, hi: nat)
    requires lo <= hi
    ensures |IndexTokens(lo, hi)| == hi - lo
    decreases hi
  {
    hide NatText;
    if lo == hi {
      assert IndexTokens(lo, hi) == {};
    } else {
      CountIndexTokens(lo, hi - 1);
      var last: nat := hi - 1;
      if NatText(last) in IndexTokens(lo, last) {
        var i: nat :| lo <= i < last && NatText(i) == NatText(last);
        NatTextInjective(i, last);
      }
      assert IndexTokens(lo, hi) == IndexTokens(lo, last) + {NatText(last)};
    }
  }

  lemma AddedItemsAreNew(at: Path, a: Json, b: Json, d: seq<Change>, values: Values)
    requires a.Array? && b.Array? && Describes(at, a, b, d, values)
    ensures AddedItems(at, |a.items|, d, values) == if |a.items| <= |b.items| then b.items[|a.items|..] else []
  {
    hide NatText;
    var n := |a.items|;
    var hi := if n <= |b.items| then |b.items| else n;
    var added := AddedKeys(at, d, values);
    forall key ensures key in added <==> key in IndexTokens(n, hi) {
      if key in added { AddedAreIndices(at, a, b, d, values, key); }
      if key in IndexTokens(n, hi) {
        var i: nat :| n <= i < hi && key == NatText(i);
        IndexFate(at, a, b, d, values, i);
      }
    }
    assert added == IndexTokens(n, hi);
    CountIndexTokens(n, hi);
    forall i: nat | i < hi - n ensures AddedItems(at, n, d, values)[i] == b.items[n + i] {
      IndexFate(at, a, b, d, values, n + i);
    }
  }

  lemma {:induction false} PatchReplays(at: Path, a: Json, b: Json, d: seq<Change>, values: Values)
    requires Describes(at, a, b, d, values)
    ensures Patched(at, a, d, values) == b
    decreases a, 1, 0
  {
    ChangeHereIsReplacement(at, a, b, Changed);
    assert Change(at, Changed) in d <==> Change(at, Changed) in Diff(at, a, b);
    if a.Object? && b.Object? {
      ObjectReplays(at, a, b, d, values);
    } else if a.Array? && b.Array? {
      ItemsReplay(at, a, b, d, values, |a.items|);
      AddedItemsAreNew(at, a, b, d, values);
      assert b.items == b.items[..|b.items|];
    } else if a != b {
      assert at[|at|..] == [];
      assert Change(at, Changed).path == at;
    }
  }

  lemma {:induction false} ObjectReplays(at: Path, a: Json, b: Json, d: seq<Change>, values: Values)
    requires a.Object? && b.Object? && Describes(at, a, b, d, values)
    requires Change(at, Changed) !in d
    ensures Patched(at, a, d, values) == b
    decreases a, 0, 0
  {
    hide Describes, AddedKeys;
    var patched := Patched(at, a, d, values).members;
    forall k ensures k in patched <==> k in b.members {
      KeyFate(at, a, b, d, values, k);
    }
    forall k | k in b.members ensures patched[k] == b.members[k] {
      KeyFate(at, a, b, d, values, k);
      if k in a.members {
        MemberDescribed(at, a, b, d, values, k);
        PatchReplays(at + [k], a.members[k], b.members[k], d, values);
      }
    }
    assert patched == b.members;
  }

  lemma {:induction false} ItemsReplay(at: Path, a: Json, b: Json, d: seq<Change>, values: Values, n: nat)
    requires a.Array? && b.Array? && Describes(at, a, b, d, values) && n <= |a.items|
    ensures PatchedItems(at, a, d, values, n) == b.items[..if n <= |b.items| then n else |b.items|]
    decreases a, 0, n
  {
    hide NatText, Describes, Patched;
    if n != 0 {
      ItemsReplay(at, a, b, d, values, n - 1);
      IndexFate(at, a, b, d, values, n - 1);
      if n - 1 < |b.items| {
        ElementDescribed(at, a, b, d, values, n - 1);
        PatchReplays(at + [NatText(n - 1)], a.items[n - 1], b.items[n - 1], d, values);
        assert b.items[..n] == b.items[..n - 1] + [b.items[n - 1]];
      }
    }
  }

  /** What the reported pointers lead to in the new document. */
  ghost function NewValues(b: Json, d: seq<Change>): Values {
    map c | c in d && c.kind != Removed && Lookup(b, c.path).Some? :: c.path := Lookup(b, c.path).value
  }

  /** Every addition and replacement points at a value of the new document. */
  lemma {:induction false} ReportedExists(at: Path, a: Json, b: Json, c: Change)
    requires c in Diff(at, a, b) && c.kind != Removed
    ensures at <= c.path && Lookup(b, c.path[|at|..]).Some?
    decreases a, 1, 0
  {
    DiffUnder(at, a, b);
    if a.Object? && b.Object? {
      var keys := Sorted(a.members.Keys + b.members.Keys);
      DiffKeysHas(at, a, b, keys, c);
      var i :| 0 <= i < |keys| && c in DiffKey(at, a, b, keys[i]);
      ReportedUnderKey(at, a, b, keys[i], c);
    } else if a.Array? && b.Array? {
      DiffItemsHas(at, a, b, Longer(a, b), c);
      var i: nat :| i < Longer(a, b) && c in DiffItem(at, a, b, i);
      ReportedUnderIndex(at, a, b, i, c);
    }
  }

  lemma {:induction false} ReportedUnderKey(at: Path, a: Json, b: Json, key: string, c: Change)
    requires a.Object? && b.Object? && c in DiffKey(at, a, b, key) && c.kind != Removed
    ensures at <= c.path && Lookup(b, c.path[|at|..]).Some?
    decreases a, 0, 0
  {
    hide Diff;
    KeyUnder(at, a, b, key);
    assert at <= at + [key] <= c.path;
    LookupUnder(b, at, key, c.path);
    if key in a.members && key in b.members {
      ReportedExists(at + [key], a.members[key], b.members[key], c);
    } else {
      assert c.path[|at| + 1..] == [];
    }
  }

  lemma {:induction false} ReportedUnderIndex(at: Path, a: Json, b: Json, i: nat, c: Change)
    requires a.Array? && b.Array? && c in DiffItem(at, a, b, i) && c.kind != Removed
    ensures at <= c.path && Lookup(b, c.path[|at|..]).Some?
    decreases a, 0, 0
  {
    hide Diff, NatText;
    ItemUnder(at, a, b, i);
    assert at <= at + [NatText(i)] <= c.path;
    IndexToken(i);
    LookupUnder(b, at, NatText(i), c.path);
    if i < |a.items| && i < |b.items| {
      ReportedExists(at + [NatText(i)], a.items[i], b.items[i], c);
    } else {
      assert c.path[|at| + 1..] == [];
    }
  }

  lemma DiffDescribes(a: Json, b: Json)
    ensures Describes([], a, b, Diff([], a, b), NewValues(b, Diff([], a, b)))
  {
    hide Diff, Lookup;
    var d := Diff([], a, b);
    forall c | c in d && c.kind != Removed
      ensures c.path in NewValues(b, d) && Lookup(b, c.path[0..]) == Some(NewValues(b, d)[c.path])
    {
      ReportedExists([], a, b, c);
      assert c.path[0..] == c.path;
    }
  }

  /** Replaying the reported changes, with the values their pointers lead to, turns the old document into the new. */
  lemma DiffReplays(a: Json, b: Json)
    ensures Patched([], a, Diff([], a, b), NewValues(b, Diff([], a, b))) == b
  {
    DiffDescribes(a, b);
    PatchReplays([], a, b, Diff([], a, b), NewValues(b, Diff([], a, b)));
  }
}
