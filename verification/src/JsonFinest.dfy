/**
 The structural comparison reports exactly the finest changes (xtask/src/schema.rs:1142-1206): a place is reported
 if and only if the two documents differ there and at no container above it.
 */
module JsonFinest {
  import opened Prelude
  import opened StringOrder
  import opened Json
  import opened JsonPointer
  import opened JsonDiff

  predicate BothContain(a: Json, b: Json) { (a.Object? && b.Object?) || (a.Array? && b.Array?) }

  /** What stands under a key or under the decimal text of an index. */
  ghost predicate HasAt(j: Json, token: string, child: Json) {
    || (j.Object? && token in j.members && j.members[token] == child)
    || (j.Array? && exists i: nat | i < |j.items| :: token == NatText(i) && j.items[i] == child)
  }

  /**
   The two documents differ at the path, and nowhere above it: the path leads through containers of the same kind
   on both sides, and ends at two values that cannot be compared further, or at one that only one side has.
   */
  ghost predicate Differs(a: Json, b: Json, path: Path, kind: ChangeKind)
    decreases |path|
  {
    if path == [] then kind == Changed && a != b && !BothContain(a, b)
    else
      && BothContain(a, b)
      && (|| (exists x, y :: HasAt(a, path[0], x) && HasAt(b, path[0], y) && Differs(x, y, path[1..], kind))
          || (|path| == 1 && kind == Removed && (exists x :: HasAt(a, path[0], x)) && forall y :: !HasAt(b, path[0], y))
          || (|path| == 1 && kind == Added && (exists y :: HasAt(b, path[0], y)) && forall x :: !HasAt(a, path[0], x)))
  }

  lemma KeyHas(j: Json, key: string, x: Json)
    requires j.Object?
    ensures HasAt(j, key, x) <==> key in j.members && j.members[key] == x
  {
  }

  lemma ItemHas(j: Json, i: nat, x: Json)
    requires j.Array?
    ensures HasAt(j, NatText(i), x) <==> i < |j.items| && j.items[i] == x
  {
    hide NatText;
    if k: nat :| k < |j.items| && NatText(i) == NatText(k) && j.items[k] == x { NatTextInjective(i, k); }
  }

  /** The step of `Differs` where the children are known. */
  lemma DiffersAt(a: Json, b: Json, path: Path, kind: ChangeKind, x: Option<Json>, y: Option<Json>)
    requires path != [] && BothContain(a, b)
    requires forall j :: HasAt(a, path[0], j) <==> x == Some(j)
    requires forall j :: HasAt(b, path[0], j) <==> y == Some(j)
    ensures Differs(a, b, path, kind) <==>
      if x.Some? && y.Some? then Differs(x.value, y.value, path[1..], kind)
      else |path| == 1 && ((x.Some? && kind == Removed) || (y.Some? && kind == Added))
  {
    hide HasAt;
    if x.Some? { assert HasAt(a, path[0], x.value); }
    if y.Some? { assert HasAt(b, path[0], y.value); }
  }

  /** The change lies at the path or under it. */
  predicate Within(at: Path, c: Change) { at <= c.path }

  lemma WithinChild(at: Path, token: string, c: Change)
    ensures Within(at + [token], c) <==> Within(at, c) && |c.path| > |at| && c.path[|at|] == token
    ensures Within(at + [token], c) ==> c.path[|at|..][1..] == c.path[|at + [token]|..] && c.path[|at|..][0] == token
  {
    if at <= c.path && |c.path| > |at| && c.path[|at|] == token {
      assert c.path[..|at| + 1] == at + [token];
    }
    if at + [token] <= c.path {
      assert (at + [token])[..|at|] == at;
      assert at <= c.path;
      assert c.path[|at|] == (at + [token])[|at|];
    }
  }

  lemma KeyExactly(at: Path, a: Json, b: Json, key: string, c: Change)
    requires a.Object? && b.Object?
    requires key in a.members && key in b.members ==>
      (c in Diff(at + [key], a.members[key], b.members[key]) <==>
         Within(at + [key], c) && Differs(a.members[key], b.members[key], c.path[|at + [key]|..], c.kind))
    ensures c in DiffKey(at, a, b, key) <==>
      Within(at + [key], c) && Differs(a, b, c.path[|at|..], c.kind)
  {
    hide Differs, HasAt, Diff;
    WithinChild(at, key, c);
    var x := if key in a.members then Some(a.members[key]) else None;
    var y := if key in b.members then Some(b.members[key]) else None;
    if Within(at + [key], c) {
      var path := c.path[|at|..];
      forall j ensures HasAt(a, path[0], j) <==> x == Some(j) { KeyHas(a, key, j); }
      forall j ensures HasAt(b, path[0], j) <==> y == Some(j) { KeyHas(b, key, j); }
      DiffersAt(a, b, path, c.kind, x, y);
      assert |path| == 1 <==> c.path == at + [key];
    }
  }

  lemma ItemExactly(at: Path, a: Json, b: Json, i: nat, c: Change)
    requires a.Array? && b.Array?
    requires i < |a.items| && i < |b.items| ==>
      (c in Diff(at + [NatText(i)], a.items[i], b.items[i]) <==>
         Within(at + [NatText(i)], c) && Differs(a.items[i], b.items[i], c.path[|at + [NatText(i)]|..], c.kind))
    ensures c in DiffItem(at, a, b, i) <==>
      Within(at + [NatText(i)], c) && Differs(a, b, c.path[|at|..], c.kind)
  {
    hide Differs, HasAt, Diff, NatText;
    var token := NatText(i);
    WithinChild(at, token, c);
    var x := if i < |a.items| then Some(a.items[i]) else None;
    var y := if i < |b.items| then Some(b.items[i]) else None;
    if Within(at + [token], c) {
      var path := c.path[|at|..];
      forall j ensures HasAt(a, path[0], j) <==> x == Some(j) { ItemHas(a, i, j); }
      forall j ensures HasAt(b, path[0], j) <==> y == Some(j) { ItemHas(b, i, j); }
      DiffersAt(a, b, path, c.kind, x, y);
      assert |path| == 1 <==> c.path == at + [token];
    }
  }

  /** A difference of two objects starts with a key of one of them. */
  lemma DiffersUnderKey(a: Json, b: Json, path: Path, kind: ChangeKind)
    requires a.Object? && b.Object? && Differs(a, b, path, kind)
    ensures path != [] && path[0] in a.members.Keys + b.members.Keys
  {
  }

  lemma DiffersUnderIndex(a: Json, b: Json, path: Path, kind: ChangeKind) returns (i: nat)
    requires a.Array? && b.Array? && Differs(a, b, path, kind)
    ensures path != [] && i < Longer(a, b) && path[0] == NatText(i)
  {
    hide NatText;
    if x :| HasAt(a, path[0], x) {
      i :| i < |a.items| && path[0] == NatText(i);
    } else {
      var y :| HasAt(b, path[0], y);
      i :| i < |b.items| && path[0] == NatText(i);
    }
  }

  /** The comparison reports exactly the finest changes. */
  lemma {:induction false} DiffIsFinest(at: Path, a: Json, b: Json, c: Change)
    ensures c in Diff(at, a, b) <==> Within(at, c) && Differs(a, b, c.path[|at|..], c.kind)
    decreases a
  {
    if a.Object? && b.Object? {
      ObjectsFinest(at, a, b, c);
    } else if a.Array? && b.Array? {
      ArraysFinest(at, a, b, c);
    } else {
      assert Within(at, c) ==> (c.path[|at|..] == [] <==> c.path == at);
    }
  }

  lemma {:induction false} ObjectsFinest(at: Path, a: Json, b: Json, c: Change)
    requires a.Object? && b.Object?
    ensures c in Diff(at, a, b) <==> Within(at, c) && Differs(a, b, c.path[|at|..], c.kind)
    decreases a, 0
  {
    hide Differs, Sorted, DiffKey, DiffKeys;
    var keys := Sorted(a.members.Keys + b.members.Keys);
    DiffKeysHas(at, a, b, keys, c);
    forall key
      ensures c in DiffKey(at, a, b, key) <==> Within(at + [key], c) && Differs(a, b, c.path[|at|..], c.kind)
      ensures c in DiffKey(at, a, b, key) ==> Within(at, c)
    {
      if key in a.members && key in b.members { DiffIsFinest(at + [key], a.members[key], b.members[key], c); }
      KeyExactly(at, a, b, key, c);
      WithinChild(at, key, c);
    }
    if Within(at, c) && Differs(a, b, c.path[|at|..], c.kind) {
      DiffersUnderKey(a, b, c.path[|at|..], c.kind);
      var i :| 0 <= i < |keys| && keys[i] == c.path[|at|..][0];
      WithinChild(at, keys[i], c);
      assert c in DiffKey(at, a, b, keys[i]);
    }
  }

  lemma {:induction false} ItemChangeCounts(at: Path, a: Json, b: Json, n: nat, i: nat, c: Change)
    requires a.Array? && b.Array? && i < n && c in DiffItem(at, a, b, i)
    ensures c in DiffItems(at, a, b, n)
    decreases n
  {
    hide DiffItem;
    if i < n - 1 { ItemChangeCounts(at, a, b, n - 1, i, c); }
  }

  lemma {:induction false} ArraysFinest(at: Path, a: Json, b: Json, c: Change)
    requires a.Array? && b.Array?
    ensures c in Diff(at, a, b) <==> Within(at, c) && Differs(a, b, c.path[|at|..], c.kind)
    decreases a, 0
  {
    hide Differs, DiffItems, NatText;
    DiffItemsHas(at, a, b, Longer(a, b), c);
    forall i: nat
      ensures c in DiffItem(at, a, b, i) <==> Within(at + [NatText(i)], c) && Differs(a, b, c.path[|at|..], c.kind)
      ensures c in DiffItem(at, a, b, i) ==> Within(at, c)
    {
      if i < |a.items| && i < |b.items| { DiffIsFinest(at + [NatText(i)], a.items[i], b.items[i], c); }
      ItemExactly(at, a, b, i, c);
      WithinChild(at, NatText(i), c);
    }
    if c in Diff(at, a, b) {
      var i: nat :| i < Longer(a, b) && c in DiffItem(at, a, b, i);
    }
    if Within(at, c) && Differs(a, b, c.path[|at|..], c.kind) {
      var i := DiffersUnderIndex(a, b, c.path[|at|..], c.kind);
      WithinChild(at, NatText(i), c);
      ItemChangeCounts(at, a, b, Longer(a, b), i, c);
    }
  }
}
