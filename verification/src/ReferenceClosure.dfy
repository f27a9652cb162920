/**
 The worklist that follows local references from a schema (xtask/src/schema_surface.rs:875-934). It
 ends on cyclic schemas and collects exactly the references reachable from the root, split into those
 that resolve and those that do not.
 */
module ReferenceClosure {
  import opened Prelude
  import opened StringOrder
  import opened Json
  import opened JsonPointer

  // ------------------------------------------------------------------ local references

  /** The reference an object itself carries, when it is local. */
  function OwnRef(m: map<string, Json>): set<string> {
    if "$ref" in m && m["$ref"].String? && m["$ref"].text != "" && m["$ref"].text[0] == '#' then {m["$ref"].text}
      else {}
  }

  /** Every local reference occurring in a value. */
  function Refs(j: Json): set<string>
    decreases j, 1, 0
  {
    match j
    case Object(m) => OwnRef(m) + RefsAt(j, Sorted(m.Keys))
    case Array(items) => RefsIn(items)
    case _ => {}
  }

  function RefsIn(items: seq<Json>): set<string>
    decreases items, 0, 0
  {
    if items == [] then {} else RefsIn(items[..|items| - 1]) + Refs(items[|items| - 1])
  }

  function RefsAt(j: Json, keys: seq<string>): set<string>
    requires Names(j, keys)
    decreases j, 0, |keys|
  {
    if keys == [] then {} else RefsAt(j, keys[..|keys| - 1]) + Refs(j.members[keys[|keys| - 1]])
  }

  method CollectLocalReferences(j: Json, references: set<string>) returns (collected: set<string>)
    ensures collected == references + Refs(j)
    decreases j, 1
  {
    match j
    case Object(m) =>
      collected := references;
      if "$ref" in m && m["$ref"].String? && m["$ref"].text != "" && m["$ref"].text[0] == '#' {
        collected := collected + {m["$ref"].text};
      }
      collected := CollectFromMembers(j, collected);
    case Array(items) => collected := CollectFromItems(items, references);
    case _ => collected := references;
  }

  method CollectFromMembers(j: Json, references: set<string>) returns (collected: set<string>)
    requires j.Object?
    ensures collected == references + RefsAt(j, Sorted(j.members.Keys))
    decreases j, 0
  {
    hide Refs, Sorted;
    collected := references;
    var keys := Sorted(j.members.Keys);
    assert Names(j, keys);
    for i := 0 to |keys|
      invariant collected == references + RefsAt(j, keys[..i])
    {
      assert keys[..i + 1][..i] == keys[..i];
      collected := CollectLocalReferences(j.members[keys[i]], collected);
    }
    assert keys[..|keys|] == keys;
  }

  method CollectFromItems(items: seq<Json>, references: set<string>) returns (collected: set<string>)
    ensures collected == references + RefsIn(items)
    decreases items, 0
  {
    hide Refs;
    collected := references;
    for i := 0 to |items|
      invariant collected == references + RefsIn(items[..i])
    {
      assert items[..i + 1][..i] == items[..i];
      collected := CollectLocalReferences(items[i], collected);
    }
    assert items[..|items|] == items;
  }

  lemma {:induction false} RefsAtHas(j: Json, keys: seq<string>, i: nat)
    requires Names(j, keys) && i < |keys|
    ensures Refs(j.members[keys[i]]) <= RefsAt(j, keys)
  {
    if i < |keys| - 1 { RefsAtHas(j, keys[..|keys| - 1], i); }
  }

  lemma {:induction false} RefsInHas(items: seq<Json>, i: nat)
    requires i < |items|
    ensures Refs(items[i]) <= RefsIn(items)
  {
    if i < |items| - 1 { RefsInHas(items[..|items| - 1], i); }
  }

  lemma ChildRefs(j: Json, token: string)
    requires Child(j, token).Some?
    ensures Refs(Child(j, token).value) <= Refs(j)
  {
    match j
    case Object(m) =>
      var keys := Sorted(m.Keys);
      assert token in m.Keys;
      var i :| 0 <= i < |keys| && keys[i] == token;
      RefsAtHas(j, keys, i);
    case Array(items) => RefsInHas(items, ArrayIndex(token).value);
  }

  lemma {:induction false} LookupRefs(j: Json, path: Path)
    requires Lookup(j, path).Some?
    ensures Refs(Lookup(j, path).value) <= Refs(j)
  {
    if path != [] {
      ChildRefs(j, path[0]);
      LookupRefs(Child(j, path[0]).value, path[1..]);
    }
  }

  /** A resolved reference leads to a part of the document. */
  lemma ResolvedRefs(document: Json, reference: string)
    requires ResolveLocal(document, reference).Some?
    ensures Refs(ResolveLocal(document, reference).value) <= Refs(document)
  {
    var pointer := reference[1..];
    if pointer != "" {
      LookupRefs(document, UnescapeAll(SplitSlash(pointer)[1..]));
    }
  }

  // ------------------------------------------------------------------ what is collected

  /** The value carries, at any depth, a `$ref` with this text, and the text is local. */
  ghost predicate Mentions(j: Json, r: string) { r != "" && r[0] == '#' && Carries(j, r) }

  lemma {:induction false} RefsAtFrom(j: Json, keys: seq<string>, r: string) returns (i: nat)
    requires Names(j, keys) && r in RefsAt(j, keys)
    ensures i < |keys| && r in Refs(j.members[keys[i]])
  {
    hide Refs;
    i := |keys| - 1;
    if r !in Refs(j.members[keys[i]]) { i := RefsAtFrom(j, keys[..i], r); }
  }

  lemma {:induction false} RefsInFrom(items: seq<Json>, r: string) returns (i: nat)
    requires r in RefsIn(items)
    ensures i < |items| && r in Refs(items[i])
  {
    hide Refs;
    i := |items| - 1;
    if r !in Refs(items[i]) { i := RefsInFrom(items[..i], r); }
  }

  /** The collected references are exactly the local texts that occur as a `$ref`, at any depth. */
  lemma {:induction false} RefsExactly(j: Json, r: string)
    ensures r in Refs(j) <==> Mentions(j, r)
  {
    hide Sorted, RefsAt, RefsIn;
    match j
    case Object(m) =>
      var keys := Sorted(m.Keys);
      assert forall i | 0 <= i < |keys| :: keys[i] in m.Keys;
      forall k | k in m ensures r in Refs(m[k]) <==> Mentions(m[k], r) { RefsExactly(m[k], r); }
      if r in RefsAt(j, keys) {
        var i := RefsAtFrom(j, keys, r);
        assert Carries(m[keys[i]], r);
      }
      if k :| k in m && Mentions(m[k], r) {
        assert k in m.Keys;
        var i :| 0 <= i < |keys| && keys[i] == k;
        RefsAtHas(j, keys, i);
      }
    case Array(items) =>
      forall i | 0 <= i < |items| ensures r in Refs(items[i]) <==> Mentions(items[i], r) { RefsExactly(items[i], r); }
      if r in RefsIn(items) {
        var i := RefsInFrom(items, r);
        assert Carries(items[i], r);
      }
      if i :| 0 <= i < |items| && Mentions(items[i], r) { RefsInHas(items, i); }
    case _ =>
  }

  // ------------------------------------------------------------------ reachability

  /** A chain of references, each occurring in what the one before it resolves to. */
  ghost predicate IsChain(document: Json, root: Json, chain: seq<string>) {
    && chain != [] && Mentions(root, chain[0])
    && forall i | 0 <= i < |chain| - 1 :: Leads(document, chain[i], chain[i + 1])
  }

  ghost predicate Leads(document: Json, r: string, r': string) {
    ResolveLocal(document, r).Some? && Mentions(ResolveLocal(document, r).value, r')
  }

  lemma LeadsToRefs(document: Json, r: string, r': string)
    ensures Leads(document, r, r') <==>
      ResolveLocal(document, r).Some? && r' in Refs(ResolveLocal(document, r).value)
  {
    hide ResolveLocal, Refs, Mentions;
    if ResolveLocal(document, r).Some? { RefsExactly(ResolveLocal(document, r).value, r'); }
  }

  ghost predicate Reaches(document: Json, root: Json, r: string) {
    exists chain :: IsChain(document, root, chain) && chain[|chain| - 1] == r
  }

  ghost function Universe(document: Json, root: Json): set<string> { Refs(document) + Refs(root) }

  lemma ReachesRoot(document: Json, root: Json, r: string)
    requires r in Refs(root)
    ensures Reaches(document, root, r)
  {
    hide Refs, Mentions;
    RefsExactly(root, r);
    assert IsChain(document, root, [r]);
  }

  lemma ReachesNext(document: Json, root: Json, r: string, r': string)
    requires Reaches(document, root, r) && Leads(document, r, r')
    ensures Reaches(document, root, r')
  {
    var chain :| IsChain(document, root, chain) && chain[|chain| - 1] == r;
    var longer := chain + [r'];
    assert IsChain(document, root, longer);
    assert longer[|longer| - 1] == r';
  }

  /** A set closed under the references of the root and of its own members holds every reachable one. */
  ghost predicate ClosedSet(document: Json, root: Json, s: set<string>) {
    Refs(root) <= s && forall r, r' | r in s && Leads(document, r, r') :: r' in s
  }

  lemma {:induction false} ChainStays(document: Json, root: Json, s: set<string>, chain: seq<string>, n: nat)
    requires ClosedSet(document, root, s) && IsChain(document, root, chain) && n < |chain|
    ensures chain[n] in s
  {
    hide Refs, Mentions, ResolveLocal;
    if n == 0 {
      RefsExactly(root, chain[0]);
    } else {
      ChainStays(document, root, s, chain, n - 1);
      assert Leads(document, chain[n - 1], chain[n - 1 + 1]);
    }
  }

  lemma ReachableInClosed(document: Json, root: Json, s: set<string>, r: string)
    requires ClosedSet(document, root, s) && Reaches(document, root, r)
    ensures r in s
  {
    var chain :| IsChain(document, root, chain) && chain[|chain| - 1] == r;
    ChainStays(document, root, s, chain, |chain| - 1);
  }

  lemma UniverseClosed(document: Json, root: Json)
    ensures ClosedSet(document, root, Universe(document, root))
  {
    hide Refs, Leads, ResolveLocal;
    forall r, r' | Leads(document, r, r') ensures r' in Universe(document, root) {
      LeadsToRefs(document, r, r');
      ResolvedRefs(document, r);
    }
  }

  /** Everything reachable from the root. */
  ghost function Reachable(document: Json, root: Json): set<string> {
    set r | r in Universe(document, root) && Reaches(document, root, r)
  }

  lemma ReachableExactly(document: Json, root: Json, r: string)
    ensures r in Reachable(document, root) <==> Reaches(document, root, r)
  {
    if Reaches(document, root, r) {
      UniverseClosed(document, root);
      ReachableInClosed(document, root, Universe(document, root), r);
    }
  }

  // ------------------------------------------------------------------ the worklist

  /** What the worklist returns: the references that resolve, with their values, and those that do not. */
  datatype Closure = Closure(resolved: map<string, Json>, missing: set<string>)

  ghost function ClosureOf(document: Json, visited: set<string>): Closure {
    Closure(map r | r in visited && ResolveLocal(document, r).Some? :: ResolveLocal(document, r).value,
            set r | r in visited && ResolveLocal(document, r).None?)
  }

  ghost predicate Sound(document: Json, root: Json, s: set<string>) {
    forall r | r in s :: Reaches(document, root, r)
  }

  /** Everything a visited reference leads to has been noted. */
  ghost predicate Expanded(document: Json, visited: set<string>, noted: set<string>) {
    forall r, r' | r in visited && Leads(document, r, r') :: r' in noted
  }

  /** What the worklist keeps: everything noted is reachable, and visited references are expanded. */
  ghost predicate Underway(document: Json, root: Json, pending: set<string>, visited: set<string>) {
    && pending + visited <= Universe(document, root)
    && Refs(root) <= pending + visited
    && Sound(document, root, pending + visited)
    && Expanded(document, visited, pending + visited)
  }

  method CollectReferenceClosure(document: Json, root: Json) returns (closure: Closure)
    ensures closure == ClosureOf(document, Reachable(document, root))
  {
    hide Refs, ResolveLocal, Underway, ClosureOf;
    var pending := CollectLocalReferences(root, {});
    var visited: set<string> := {};
    closure := Closure(map[], {});
    Begins(document, root);
    assert {} + Refs(root) == Refs(root);
    while pending != {}
      invariant Underway(document, root, pending, visited)
      invariant closure == ClosureOf(document, visited)
      decreases |Universe(document, root) - visited|, |pending|
    {
      var reference := Least(pending);
      if reference in visited {
        Skips(document, root, pending, visited, reference);
        pending := pending - {reference};
        continue;
      }
      Visits(document, root, pending, visited, reference);
      ClosureGrows(document, visited, reference);
      pending := pending - {reference};
      visited := visited + {reference};
      var value := ResolveLocal(document, reference);
      if value.None? {
        closure := closure.(missing := closure.missing + {reference});
      } else {
        closure := closure.(resolved := closure.resolved[reference := value.value]);
        pending := CollectLocalReferences(value.value, pending);
      }
    }
    Ends(document, root, visited);
  }

  lemma Begins(document: Json, root: Json)
    ensures Underway(document, root, Refs(root), {})
    ensures ClosureOf(document, {}) == Closure(map[], {})
  {
    hide Refs, Reaches, ResolveLocal;
    forall r | r in Refs(root) ensures Reaches(document, root, r) { ReachesRoot(document, root, r); }
  }

  lemma Skips(document: Json, root: Json, pending: set<string>, visited: set<string>, r: string)
    requires Underway(document, root, pending, visited) && r in pending && r in visited
    ensures Underway(document, root, pending - {r}, visited)
  {
    assert (pending - {r}) + visited == pending + visited;
  }

  /** What a reference adds to the work once it is visited. */
  ghost function NewWork(document: Json, r: string): set<string> {
    if ResolveLocal(document, r).Some? then Refs(ResolveLocal(document, r).value) else {}
  }

  lemma NewWorkReached(document: Json, root: Json, r: string)
    requires Reaches(document, root, r)
    ensures Sound(document, root, NewWork(document, r)) && NewWork(document, r) <= Universe(document, root)
  {
    hide Refs, ResolveLocal, Leads, Reaches;
    forall r' | r' in NewWork(document, r) ensures Reaches(document, root, r') && r' in Universe(document, root) {
      LeadsToRefs(document, r, r');
      ReachesNext(document, root, r, r');
      ResolvedRefs(document, r);
    }
  }

  lemma VisitExpands(document: Json, visited: set<string>, noted: set<string>, r: string)
    requires Expanded(document, visited, noted)
    ensures Expanded(document, visited + {r}, noted + NewWork(document, r))
  {
    hide Refs, ResolveLocal, Leads;
    forall r' | Leads(document, r, r') ensures r' in NewWork(document, r) { LeadsToRefs(document, r, r'); }
  }

  lemma SoundUnion(document: Json, root: Json, s: set<string>, t: set<string>)
    requires Sound(document, root, s) && Sound(document, root, t)
    ensures Sound(document, root, s + t)
  {
    hide Reaches;
  }

  lemma NotedReached(document: Json, root: Json, s: set<string>, r: string)
    requires Sound(document, root, s) && r in s
    ensures Reaches(document, root, r)
  {
    hide Reaches;
  }

  lemma RemovingShrinks(u: set<string>, visited: set<string>, r: string)
    requires r in u && r !in visited
    ensures |u - (visited + {r})| < |u - visited|
  {
    assert u - visited == (u - (visited + {r})) + {r};
  }

  lemma Visits(document: Json, root: Json, pending: set<string>, visited: set<string>, r: string)
    requires Underway(document, root, pending, visited) && r in pending && r !in visited
    ensures Underway(document, root, pending - {r} + NewWork(document, r), visited + {r})
    ensures |Universe(document, root) - (visited + {r})| < |Universe(document, root) - visited|
  {
    hide Refs, ResolveLocal, Reaches, NewWork, Sound, Expanded, Universe;
    var work := NewWork(document, r);
    NotedReached(document, root, pending + visited, r);
    NewWorkReached(document, root, r);
    VisitExpands(document, visited, pending + visited, r);
    SoundUnion(document, root, pending + visited, work);
    assert (pending - {r} + work) + (visited + {r}) == pending + visited + work;
    RemovingShrinks(Universe(document, root), visited, r);
  }

  lemma ClosureGrows(document: Json, visited: set<string>, r: string)
    ensures
      var before := ClosureOf(document, visited);
      ClosureOf(document, visited + {r}) ==
        if ResolveLocal(document, r).Some?
        then before.(resolved := before.resolved[r := ResolveLocal(document, r).value])
        else before.(missing := before.missing + {r})
  {
    hide ResolveLocal;
  }

  lemma EndsClosed(document: Json, root: Json, visited: set<string>)
    requires Underway(document, root, {}, visited)
    ensures Sound(document, root, visited) && ClosedSet(document, root, visited)
  {
    hide Refs, Reaches, ResolveLocal;
    assert {} + visited == visited;
  }

  lemma Ends(document: Json, root: Json, visited: set<string>)
    requires Underway(document, root, {}, visited)
    ensures visited == Reachable(document, root)
  {
    EndsClosed(document, root, visited);
    hide Underway, ClosedSet, Reaches, Reachable;
    forall r ensures r in visited <==> r in Reachable(document, root) {
      ReachableExactly(document, root, r);
      if Reaches(document, root, r) { ReachableInClosed(document, root, visited, r); }
    }
  }
}
