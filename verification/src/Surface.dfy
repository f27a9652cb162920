/**
 The required-surface comparison (xtask/src/schema_surface.rs): one entry of the surface is resolved
 in a baseline and in an observed schema document, compared structurally, and digested. The comparison
 never looks at the references that do not resolve, and still agrees with the digest.
 */
module Surface {
  import opened Prelude
  import opened StringOrder
  import opened Json
  import opened JsonPointer
  import opened JsonDiff
  import opened CanonicalJson
  import opened ReferenceClosure

  datatype EntryKind = MethodEntry | TypeEntry

  /** A value selected for an entry, under a key that does not depend on where it was found. */
  datatype Root = Root(key: string, pointer: string, value: Json)

  datatype Fragment = Fragment(file: string, pointer: string, value: Json)

  datatype Entry = Entry(missingRoot: bool, missing: set<string>, fragments: map<string, Fragment>)

  const Unresolved := Entry(true, {}, map[])

  function RefKey(reference: string): string { "ref:" + reference }

  lemma RefKeyInjective(r: string, r': string)
    ensures RefKey(r) == RefKey(r') <==> r == r'
  {
    assert RefKey(r)[4..] == r && RefKey(r')[4..] == r';
  }

  // ------------------------------------------------------------------ root selection

  /** What root selection guarantees: distinct keys outside the reference keys, and one root for a type. */
  ghost predicate RootsOk(kind: EntryKind, roots: seq<Root>) {
    && (forall i, j | 0 <= i < j < |roots| :: roots[i].key != roots[j].key)
    && (forall i, r | 0 <= i < |roots| :: roots[i].key != RefKey(r))
    && (kind == TypeEntry ==> |roots| <= 1)
  }

  /** A type is found under a fixed chain of parents (xtask/src/schema_surface.rs:831-856). */
  function SelectNamed(document: Json, parents: Path, name: string): (roots: seq<Root>)
    ensures RootsOk(TypeEntry, roots)
    ensures roots != [] <==> ObjectsOnly(document, parents + [name]).Some?
    ensures roots != [] ==>
      && Lookup(document, parents + [name]) == Some(roots[0].value)
      && roots[0].key == "root" && roots[0].pointer == Under("#", parents + [name])
  {
    var parent := ObjectsOnly(document, parents);
    ObjectsAppend(document, parents, name);
    RootIsNoReference();
    if parent.None? || !parent.value.Object? || name !in parent.value.members then []
    else
      LookupAppend(document, parents, name);
      [Root("root", Under("#", parents + [name]), parent.value.members[name])]
  }

  lemma RootIsNoReference()
    ensures forall r :: "root" != RefKey(r)
  {
    forall r ensures "root" != RefKey(r) {
      assert "root"[1] == 'o' && RefKey(r)[1] == 'e';
    }
  }

  lemma {:induction false} ObjectsAppend(j: Json, path: Path, name: string)
    ensures
      ObjectsOnly(j, path + [name]) ==
        var parent := ObjectsOnly(j, path);
        if parent.Some? && parent.value.Object? && name in parent.value.members then Some(parent.value.members[name])
          else None
  {
    if path == [] {
      assert path + [name] == [name] && [name][1..] == [];
    } else {
      assert (path + [name])[1..] == path[1..] + [name] && (path + [name])[0] == path[0];
      if j.Object? && path[0] in j.members { ObjectsAppend(j.members[path[0]], path[1..], name); }
    }
  }

  lemma {:induction false} LookupAppend(j: Json, path: Path, token: string)
    requires Lookup(j, path).Some?
    ensures Lookup(j, path + [token]) == Child(Lookup(j, path).value, token)
  {
    if path == [] {
      assert path + [token] == [token];
      assert [token][1..] == [];
    } else {
      assert (path + [token])[1..] == path[1..] + [token];
      LookupAppend(Child(j, path[0]).value, path[1..], token);
    }
  }

  // ------------------------------------------------------------------ resolution

  function RootFragments(file: string, roots: seq<Root>): (m: map<string, Fragment>)
    ensures forall k :: k in m <==> exists i :: 0 <= i < |roots| && roots[i].key == k
  {
    if roots == [] then map[]
    else
      var n := |roots| - 1;
      var front := RootFragments(file, roots[..n]);
      assert forall i | 0 <= i < n :: roots[..n][i] == roots[i];
      front[roots[n].key := Fragment(file, roots[n].pointer, roots[n].value)]
  }

  /** The fragments of some references, filed under their reference keys. */
  function RefsFor(file: string, resolved: map<string, Json>, refs: seq<string>): map<string, Fragment>
    requires forall i | 0 <= i < |refs| :: refs[i] in resolved
  {
    if refs == [] then map[]
    else
      var r := refs[|refs| - 1];
      RefsFor(file, resolved, refs[..|refs| - 1])[RefKey(r) := Fragment(file, r, resolved[r])]
  }

  function RefFragments(file: string, resolved: map<string, Json>): map<string, Fragment> {
    var refs := Sorted(resolved.Keys);
    assert forall i | 0 <= i < |refs| :: refs[i] in resolved.Keys;
    RefsFor(file, resolved, refs)
  }

  lemma {:induction false} RefsForHas(file: string, resolved: map<string, Json>, refs: seq<string>, r: string)
    requires forall i | 0 <= i < |refs| :: refs[i] in resolved
    ensures RefKey(r) in RefsFor(file, resolved, refs) <==> r in refs
    ensures r in refs ==> RefsFor(file, resolved, refs)[RefKey(r)] == Fragment(file, r, resolved[r])
  {
    if refs != [] {
      var front, last := refs[..|refs| - 1], refs[|refs| - 1];
      assert refs == front + [last];
      RefsForHas(file, resolved, front, r);
      RefKeyInjective(r, last);
    }
  }

  lemma {:induction false} RefsForOnly(file: string, resolved: map<string, Json>, refs: seq<string>, k: string)
    requires forall i | 0 <= i < |refs| :: refs[i] in resolved
    ensures k in RefsFor(file, resolved, refs) ==> exists r :: r in resolved && k == RefKey(r)
  {
    if refs != [] { RefsForOnly(file, resolved, refs[..|refs| - 1], k); }
  }

  /** A reference fragment is filed exactly for the references that resolve. */
  lemma RefFragmentHas(file: string, resolved: map<string, Json>, r: string)
    ensures RefKey(r) in RefFragments(file, resolved) <==> r in resolved
    ensures r in resolved ==> RefFragments(file, resolved)[RefKey(r)] == Fragment(file, r, resolved[r])
  {
    hide Sorted;
    var refs := Sorted(resolved.Keys);
    assert r in resolved.Keys <==> r in refs;
    RefsForHas(file, resolved, refs, r);
  }

  lemma RefFragmentOnly(file: string, resolved: map<string, Json>, k: string)
    requires k in RefFragments(file, resolved)
    ensures exists r :: r in resolved && k == RefKey(r)
  {
    hide Sorted;
    RefsForOnly(file, resolved, Sorted(resolved.Keys), k);
  }

  ghost function FollowedFrom(document: Json, root: Root): Closure {
    ClosureOf(document, Reachable(document, root.value))
  }

  /** A method owns its envelope only; a type owns everything its references reach. */
  ghost function Resolved(kind: EntryKind, file: string, document: Option<Json>, roots: seq<Root>): Entry {
    if document.None? || roots == [] then Unresolved
    else if kind == MethodEntry then Entry(false, {}, RootFragments(file, roots))
    else
      var c := FollowedFrom(document.value, roots[0]);
      Entry(false, c.missing, RootFragments(file, roots) + RefFragments(file, c.resolved))
  }

  method InsertFragment(fragments: map<string, Fragment>, key: string, fragment: Fragment)
    returns (result: Result<map<string, Fragment>, string>)
    ensures result == if key in fragments then Err(key) else Ok(fragments[key := fragment])
  {
    if key in fragments {
      return Err(key);
    }
    return Ok(fragments[key := fragment]);
  }

  lemma NoReferences(file: string, resolved: map<string, Json>)
    ensures RefsFor(file, resolved, []) == map[]
  {
  }

  lemma NextReference(file: string, resolved: map<string, Json>, refs: seq<string>, i: nat)
    requires forall k | 0 <= k < |refs| :: refs[k] in resolved
    requires Ascending(refs) && i < |refs|
    ensures RefKey(refs[i]) !in RefsFor(file, resolved, refs[..i])
    ensures RefsFor(file, resolved, refs[..i + 1])
      == RefsFor(file, resolved, refs[..i])[RefKey(refs[i]) := Fragment(file, refs[i], resolved[refs[i]])]
  {
    hide RefKey;
    assert refs[..i + 1][..i] == refs[..i];
    RefsForHas(file, resolved, refs[..i], refs[i]);
    forall k | 0 <= k < i ensures refs[k] != refs[i] { AscendingDistinct(refs, k, i); }
  }

  method InsertReferences(file: string, fragments: map<string, Fragment>, resolved: map<string, Json>)
    returns (result: Result<map<string, Fragment>, string>)
    ensures (forall r | r in resolved :: RefKey(r) !in fragments)
      ==> result == Ok(fragments + RefFragments(file, resolved))
  {
    hide Sorted, RefKey, RefsFor;
    var all := fragments;
    var refs := Sorted(resolved.Keys);
    assert forall i | 0 <= i < |refs| :: refs[i] in resolved.Keys;
    NoReferences(file, resolved);
    assert refs[..0] == [];
    for i := 0 to |refs|
      invariant all == fragments + RefsFor(file, resolved, refs[..i])
    {
      var r := refs[i];
      NextReference(file, resolved, refs, i);
      var inserted := InsertFragment(all, RefKey(r), Fragment(file, r, resolved[r]));
      if inserted.Err? {
        return Err(inserted.error);
      }
      all := inserted.value;
    }
    assert refs[..|refs|] == refs;
    return Ok(all);
  }

  /** Resolves one entry. With roots as selection delivers them there is never a duplicate key. */
  method ResolveEntry(kind: EntryKind, file: string, document: Option<Json>, roots: seq<Root>)
    returns (result: Result<Entry, string>)
    ensures RootsOk(kind, roots) ==> result == Ok(Resolved(kind, file, document, roots))
  {
    hide RefFragments, RefKey, ClosureOf, Reachable;
    if document.None? || roots == [] {
      return Ok(Unresolved);
    }
    var entry := Entry(false, {}, map[]);
    for i := 0 to |roots|
      invariant RootsOk(kind, roots) && (kind == MethodEntry || i == 0)
        ==> entry == Entry(false, {}, RootFragments(file, roots[..i]))
      invariant RootsOk(kind, roots) && kind == TypeEntry && i == 1 ==> entry == Resolved(kind, file, document, roots)
    {
      assert roots[..i + 1][..i] == roots[..i];
      var inserted := InsertFragment(entry.fragments, roots[i].key, Fragment(file, roots[i].pointer, roots[i].value));
      if inserted.Err? {
        return Err(inserted.error);
      }
      entry := entry.(fragments := inserted.value);
      if kind == TypeEntry {
        var closure := CollectReferenceClosure(document.value, roots[i].value);
        var followed := InsertReferences(file, entry.fragments, closure.resolved);
        if followed.Err? {
          return Err(followed.error);
        }
        entry := entry.(missing := entry.missing + closure.missing, fragments := followed.value);
        assert RootsOk(kind, roots) ==> i == 0 && roots[..1] == roots;
      }
    }
    assert roots[..|roots|] == roots;
    return Ok(entry);
  }

  // ------------------------------------------------------------------ comparison

  datatype SurfaceChange = SurfaceChange(entry: string, file: string, pointer: string, kind: ChangeKind)

  function ShowOne(id: string, b: Fragment, o: Fragment, c: PointerChange): SurfaceChange {
    SurfaceChange(id, if c.kind == Removed then b.file else o.file, c.pointer, c.kind)
  }

  function ShowAll(id: string, b: Fragment, o: Fragment, changes: seq<PointerChange>): (out: seq<SurfaceChange>)
    ensures |out| == |changes|
  {
    seq(|changes|, i requires 0 <= i < |changes| => ShowOne(id, b, o, changes[i]))
  }

  /** The changes within a fragment found on both sides. */
  function FragmentChanges(id: string, b: Fragment, o: Fragment): seq<SurfaceChange> {
    ShowAll(id, b, o, Rendered(b.pointer, o.pointer, Diff([], b.value, o.value)))
  }

  function KeyChanges(id: string, baseline: Entry, observed: Entry, key: string): seq<SurfaceChange> {
    if key in baseline.fragments && key in observed.fragments then
      FragmentChanges(id, baseline.fragments[key], observed.fragments[key])
    else if key in baseline.fragments then
      [SurfaceChange(id, baseline.fragments[key].file, baseline.fragments[key].pointer, Removed)]
    else if key in observed.fragments then
      [SurfaceChange(id, observed.fragments[key].file, observed.fragments[key].pointer, Added)]
    else []
  }

  function AllKeyChanges(id: string, baseline: Entry, observed: Entry, keys: seq<string>): seq<SurfaceChange> {
    if keys == [] then []
    else
      AllKeyChanges(id, baseline, observed, keys[..|keys| - 1]) + KeyChanges(id, baseline, observed, keys[|keys| - 1])
  }

  /** A root that has disappeared is one removal; otherwise every fragment is compared. */
  function EntryChanges(id: string, baseline: Entry, observed: Entry): seq<SurfaceChange> {
    if observed.missingRoot then
      if baseline.fragments.Keys == {} then []
      else
        var root := baseline.fragments[Least(baseline.fragments.Keys)];
        [SurfaceChange(id, root.file, root.pointer, Removed)]
    else AllKeyChanges(id, baseline, observed, Sorted(baseline.fragments.Keys + observed.fragments.Keys))
  }

  method CompareFragments(id: string, b: Fragment, o: Fragment, changes: seq<SurfaceChange>)
    returns (out: seq<SurfaceChange>)
    ensures out == changes + FragmentChanges(id, b, o)
  {
    hide Diff, Located;
    assert PointerText([]) == "";
    assert Under(b.pointer, []) == b.pointer && Under(o.pointer, []) == o.pointer;
    var found := CompareJson(Cursor(b.pointer, o.pointer, b.pointer, o.pointer), [], b.value, o.value, []);
    out := changes + ShowAll(id, b, o, found);
  }

  method CompareKey(id: string, baseline: Entry, observed: Entry, key: string, changes: seq<SurfaceChange>)
    returns (out: seq<SurfaceChange>)
    ensures out == changes + KeyChanges(id, baseline, observed, key)
  {
    hide FragmentChanges;
    if key in baseline.fragments && key in observed.fragments {
      out := CompareFragments(id, baseline.fragments[key], observed.fragments[key], changes);
    } else if key in baseline.fragments {
      out := changes + [SurfaceChange(id, baseline.fragments[key].file, baseline.fragments[key].pointer, Removed)];
    } else if key in observed.fragments {
      out := changes + [SurfaceChange(id, observed.fragments[key].file, observed.fragments[key].pointer, Added)];
    } else {
      out := changes;
    }
  }

  method CompareKeys(id: string, baseline: Entry, observed: Entry, keys: seq<string>, changes: seq<SurfaceChange>)
    returns (out: seq<SurfaceChange>)
    ensures out == changes + AllKeyChanges(id, baseline, observed, keys)
  {
    hide KeyChanges;
    out := changes;
    for i := 0 to |keys|
      invariant out == changes + AllKeyChanges(id, baseline, observed, keys[..i])
    {
      assert keys[..i + 1][..i] == keys[..i];
      out := CompareKey(id, baseline, observed, keys[i], out);
    }
    assert keys[..|keys|] == keys;
  }

  method CompareEntry(id: string, baseline: Entry, observed: Entry, changes: seq<SurfaceChange>)
    returns (out: seq<SurfaceChange>)
    ensures out == changes + EntryChanges(id, baseline, observed)
  {
    hide Sorted, AllKeyChanges;
    if observed.missingRoot {
      out := changes;
      if baseline.fragments.Keys != {} {
        var root := baseline.fragments[Least(baseline.fragments.Keys)];
        out := out + [SurfaceChange(id, root.file, root.pointer, Removed)];
      }
    } else {
      out := CompareKeys(id, baseline, observed, Sorted(baseline.fragments.Keys + observed.fragments.Keys), changes);
    }
  }

  // ------------------------------------------------------------------ when nothing changed

  ghost predicate SameFragments(b: Entry, o: Entry) {
    && b.fragments.Keys == o.fragments.Keys
    && forall k | k in b.fragments :: b.fragments[k].value == o.fragments[k].value
  }

  lemma {:induction false} NoKeyChanges(id: string, b: Entry, o: Entry, keys: seq<string>)
    ensures AllKeyChanges(id, b, o, keys) == [] <==> forall i | 0 <= i < |keys| :: KeyChanges(id, b, o, keys[i]) == []
  {
    hide KeyChanges;
    if keys != [] {
      var front := keys[..|keys| - 1];
      NoKeyChanges(id, b, o, front);
      assert forall i | 0 <= i < |front| :: front[i] == keys[i];
    }
  }

  lemma KeyUnchanged(id: string, b: Entry, o: Entry, key: string)
    requires key in b.fragments || key in o.fragments
    ensures KeyChanges(id, b, o, key) == [] <==>
      key in b.fragments && key in o.fragments && b.fragments[key].value == o.fragments[key].value
  {
    hide Diff;
    if key in b.fragments && key in o.fragments {
      DiffEmptyIffEqual([], b.fragments[key].value, o.fragments[key].value);
    }
  }

  /** The comparison is silent exactly when the same fragments hold the same values. */
  lemma SilentIffSameFragments(id: string, b: Entry, o: Entry)
    requires b.fragments.Keys != {}
    ensures EntryChanges(id, b, o) == [] <==> !o.missingRoot && SameFragments(b, o)
  {
    hide Sorted, KeyChanges;
    var keys := Sorted(b.fragments.Keys + o.fragments.Keys);
    NoKeyChanges(id, b, o, keys);
    forall k | k in b.fragments.Keys + o.fragments.Keys
      ensures KeyChanges(id, b, o, k) == [] <==>
        k in b.fragments && k in o.fragments && b.fragments[k].value == o.fragments[k].value
    {
      KeyUnchanged(id, b, o, k);
    }
    assert forall i | 0 <= i < |keys| :: keys[i] in b.fragments.Keys + o.fragments.Keys;
    if AllKeyChanges(id, b, o, keys) == [] {
      forall k | k in b.fragments.Keys + o.fragments.Keys
        ensures k in b.fragments && k in o.fragments && b.fragments[k].value == o.fragments[k].value
      {
        var i :| 0 <= i < |keys| && keys[i] == k;
      }
    }
  }

  // ------------------------------------------------------------------ missing references cannot hide

  /** A method owns its envelope and nothing else: its roots, as selected. */
  lemma MethodFragments(file: string, document: Json, roots: seq<Root>)
    requires RootsOk(MethodEntry, roots) && roots != []
    ensures
      var e := Resolved(MethodEntry, file, Some(document), roots);
      && !e.missingRoot && e.missing == {}
      && (forall k :: k in e.fragments <==> exists i :: 0 <= i < |roots| && roots[i].key == k)
      && forall i | 0 <= i < |roots| :: e.fragments[roots[i].key] == Fragment(file, roots[i].pointer, roots[i].value)
  {
    RootsKept(file, roots);
  }

  lemma {:induction false} RootsKept(file: string, roots: seq<Root>)
    requires forall i, j | 0 <= i < j < |roots| :: roots[i].key != roots[j].key
    ensures forall i | 0 <= i < |roots| ::
      RootFragments(file, roots)[roots[i].key] == Fragment(file, roots[i].pointer, roots[i].value)
  {
    if roots != [] {
      var n := |roots| - 1;
      RootsKept(file, roots[..n]);
      forall i | 0 <= i < n
        ensures RootFragments(file, roots)[roots[i].key] == Fragment(file, roots[i].pointer, roots[i].value)
      {
        assert roots[..n][i] == roots[i];
      }
    }
  }

  /** The fragments of a type: its root, and what its references lead to, each under its own key. */
  lemma TypeFragments(file: string, document: Json, root: Root, k: string)
    requires RootsOk(TypeEntry, [root])
    ensures
      var e := Resolved(TypeEntry, file, Some(document), [root]);
      && (k in e.fragments <==>
            k == root.key || exists r :: k == RefKey(r) && r in FollowedFrom(document, root).resolved)
      && root.key in e.fragments && e.fragments[root.key] == Fragment(file, root.pointer, root.value)
  {
    hide RefFragments, RefKey, ClosureOf, Reachable, Sorted;
    var c := FollowedFrom(document, root);
    assert [root][0] == root;
    if k in RefFragments(file, c.resolved) { RefFragmentOnly(file, c.resolved, k); }
    forall r | r in c.resolved ensures RefKey(r) in RefFragments(file, c.resolved) {
      RefFragmentHas(file, c.resolved, r);
    }
    if root.key in RefFragments(file, c.resolved) {
      RefFragmentOnly(file, c.resolved, root.key);
    }
    assert RootFragments(file, [root])[root.key] == Fragment(file, root.pointer, root.value);
  }

  /**
   A type holds a fragment for exactly the references a chain leads to and that resolve, with the value
   they resolve to, and misses exactly those a chain leads to and that do not.
   */
  lemma TypeReference(file: string, document: Json, root: Root, r: string)
    requires RootsOk(TypeEntry, [root])
    ensures
      var e := Resolved(TypeEntry, file, Some(document), [root]);
      && (RefKey(r) in e.fragments <==> Reaches(document, root.value, r) && ResolveLocal(document, r).Some?)
      && (RefKey(r) in e.fragments ==> e.fragments[RefKey(r)] == Fragment(file, r, ResolveLocal(document, r).value))
      && (r in e.missing <==> Reaches(document, root.value, r) && ResolveLocal(document, r).None?)
  {
    hide RefFragments, RefKey, ResolveLocal, Reaches, Reachable, Sorted;
    var c := FollowedFrom(document, root);
    ReachableExactly(document, root.value, r);
    RefFragmentHas(file, c.resolved, r);
    assert [root][0] == root;
    var roots := RootFragments(file, [root]);
    assert RefKey(r) !in roots;
  }

  /** The same fragments on both sides: so the same root. */
  lemma SameRoot(file: string, docB: Json, docO: Json, b: Root, o: Root)
    requires RootsOk(TypeEntry, [b]) && RootsOk(TypeEntry, [o])
    requires SameFragments(Resolved(TypeEntry, file, Some(docB), [b]), Resolved(TypeEntry, file, Some(docO), [o]))
    ensures b.value == o.value
  {
    hide Resolved, RefKey;
    TypeFragments(file, docB, b, o.key);
    TypeFragments(file, docO, o, o.key);
    assert [o][0] == o;
  }

  lemma SameLead(docB: Json, docO: Json, r: string, r': string)
    requires ResolveLocal(docB, r) == ResolveLocal(docO, r)
    ensures Leads(docB, r, r') <==> Leads(docO, r, r')
  {
    hide ResolveLocal, Mentions;
  }

  /** The references that have a fragment on the observed side are closed under following. */
  lemma FragmentsClosed(file: string, docB: Json, docO: Json, b: Root, o: Root, s: set<string>)
    requires RootsOk(TypeEntry, [b]) && RootsOk(TypeEntry, [o])
    requires Resolved(TypeEntry, file, Some(docB), [b]).missing == {}
    requires SameFragments(Resolved(TypeEntry, file, Some(docB), [b]), Resolved(TypeEntry, file, Some(docO), [o]))
    requires s ==
      set r | r in Universe(docO, o.value) && RefKey(r) in Resolved(TypeEntry, file, Some(docO), [o]).fragments
    ensures ClosedSet(docO, o.value, s)
  {
    hide Resolved, RefKey, Refs, ResolveLocal, Reaches;
    SameRoot(file, docB, docO, b, o);
    UniverseClosed(docO, o.value);
    forall r | r in Refs(o.value) ensures r in s {
      ReachesRoot(docB, b.value, r);
      TypeReference(file, docB, b, r);
    }
    forall r, r' | r in s && Leads(docO, r, r') ensures r' in s {
      TypeReference(file, docO, o, r);
      TypeReference(file, docB, b, r);
      assert Leads(docB, r, r') by { SameLead(docB, docO, r, r'); }
      ReachesNext(docB, b.value, r, r');
      TypeReference(file, docB, b, r');
    }
  }

  /** Over a complete baseline, equal fragments leave no room for a missing reference on the other side. */
  lemma MissingCannotHide(file: string, docB: Json, docO: Json, b: Root, o: Root)
    requires RootsOk(TypeEntry, [b]) && RootsOk(TypeEntry, [o])
    requires Resolved(TypeEntry, file, Some(docB), [b]).missing == {}
    requires SameFragments(Resolved(TypeEntry, file, Some(docB), [b]), Resolved(TypeEntry, file, Some(docO), [o]))
    ensures Resolved(TypeEntry, file, Some(docO), [o]).missing == {}
  {
    hide Resolved, RefKey, Reaches, ResolveLocal;
    var e := Resolved(TypeEntry, file, Some(docO), [o]);
    var s := set r | r in Universe(docO, o.value) && RefKey(r) in e.fragments;
    FragmentsClosed(file, docB, docO, b, o, s);
    forall r | r in e.missing ensures false {
      TypeReference(file, docO, o, r);
      ReachableInClosed(docO, o.value, s, r);
    }
  }

  // ------------------------------------------------------------------ digests

  function Texts(strings: seq<string>): (items: seq<Json>)
    ensures |items| == |strings| && forall i | 0 <= i < |strings| :: items[i] == String(strings[i])
  {
    seq(|strings|, i requires 0 <= i < |strings| => String(strings[i]))
  }

  function FragmentValues(fragments: map<string, Fragment>): map<string, Json> {
    map k | k in fragments :: fragments[k].value
  }

  /** The document that is written canonically and hashed. */
  function DigestInput(id: string, e: Entry): Json {
    Object(map["entry_id" := String(id),
               "missing_root" := Bool(e.missingRoot),
               "missing_references" := Array(Texts(Sorted(e.missing))),
               "fragments" := Object(FragmentValues(e.fragments))])
  }

  /** The text whose SHA-256 digest is published for an entry, after the fixed domain prefix. */
  function DigestText(id: string, e: Entry): string { Canonical(DigestInput(id, e)) }

  method WriteDigestText(id: string, e: Entry) returns (text: string)
    ensures text == DigestText(id, e)
  {
    text := WriteCanonical(DigestInput(id, e), "");
  }

  lemma SortedTextsInjective(s: set<string>, t: set<string>)
    requires Texts(Sorted(s)) == Texts(Sorted(t))
    ensures s == t
  {
    hide Sorted;
    var a, b := Sorted(s), Sorted(t);
    forall i | 0 <= i < |a| ensures a[i] == b[i] {
      assert Texts(a)[i] == String(a[i]) && Texts(b)[i] == String(b[i]);
    }
    assert a == b;
    forall k ensures k in s <==> k in t { assert k in s <==> k in a; }
  }

  ghost predicate SameInputs(b: Entry, o: Entry) {
    b.missingRoot == o.missingRoot && b.missing == o.missing && SameFragments(b, o)
  }

  lemma DigestInputInjective(id: string, b: Entry, o: Entry)
    ensures DigestInput(id, b) == DigestInput(id, o) <==> SameInputs(b, o)
  {
    hide Sorted, Texts;
    if DigestInput(id, b) == DigestInput(id, o) {
      var x, y := DigestInput(id, b).members, DigestInput(id, o).members;
      assert x["missing_root"] == y["missing_root"] && x["missing_references"] == y["missing_references"]
        && x["fragments"] == y["fragments"];
      SortedTextsInjective(b.missing, o.missing);
      assert FragmentValues(b.fragments).Keys == b.fragments.Keys
        && FragmentValues(o.fragments).Keys == o.fragments.Keys;
    }
    if SameInputs(b, o) {
      assert FragmentValues(b.fragments) == FragmentValues(o.fragments);
    }
  }

  ghost predicate FragmentsWellFormed(e: Entry) {
    forall k | k in e.fragments :: WellFormed(e.fragments[k].value)
  }

  lemma DigestInputWellFormed(id: string, e: Entry)
    requires FragmentsWellFormed(e)
    ensures WellFormed(DigestInput(id, e))
  {
    hide Sorted;
    assert WellFormed(Object(FragmentValues(e.fragments)));
    assert WellFormed(Array(Texts(Sorted(e.missing))));
  }

  /** Digest texts are equal exactly when the flag, the missing references and the fragments are. */
  lemma SameDigestIffSameInputs(id: string, b: Entry, o: Entry)
    requires FragmentsWellFormed(b) && FragmentsWellFormed(o)
    ensures DigestText(id, b) == DigestText(id, o) <==> SameInputs(b, o)
  {
    hide Canonical, DigestInput, SameInputs;
    DigestInputWellFormed(id, b);
    DigestInputWellFormed(id, o);
    CanonicalInjective(DigestInput(id, b), DigestInput(id, o));
    DigestInputInjective(id, b, o);
  }

  /** The baseline has been validated: its root is there and all its references resolve. */
  ghost predicate Validated(e: Entry) { !e.missingRoot && e.missing == {} }

  lemma SilentIffSameInputs(id: string, kind: EntryKind, file: string, docB: Option<Json>, rootsB: seq<Root>,
                            docO: Option<Json>, rootsO: seq<Root>)
    requires RootsOk(kind, rootsB) && RootsOk(kind, rootsO)
    requires Validated(Resolved(kind, file, docB, rootsB))
    ensures
      var b, o := Resolved(kind, file, docB, rootsB), Resolved(kind, file, docO, rootsO);
      EntryChanges(id, b, o) == [] <==> SameInputs(b, o)
  {
    hide EntryChanges, RefKey, RefFragments, ClosureOf, Reachable;
    var b, o := Resolved(kind, file, docB, rootsB), Resolved(kind, file, docO, rootsO);
    assert rootsB[0].key in RootFragments(file, rootsB);
    assert rootsB[0].key in b.fragments.Keys;
    SilentIffSameFragments(id, b, o);
    if kind == TypeEntry && !o.missingRoot && SameFragments(b, o) {
      assert rootsB == [rootsB[0]] && rootsO == [rootsO[0]];
      MissingCannotHide(file, docB.value, docO.value, rootsB[0], rootsO[0]);
    }
  }

  /**
   The comparison and the digest agree: over a validated baseline an entry yields no change exactly
   when its baseline and observed digest texts are equal, although the comparison never inspects the
   references that do not resolve.
   */
  lemma SilentIffSameDigest(id: string, kind: EntryKind, file: string, docB: Option<Json>, rootsB: seq<Root>,
                            docO: Option<Json>, rootsO: seq<Root>)
    requires RootsOk(kind, rootsB) && RootsOk(kind, rootsO)
    requires Validated(Resolved(kind, file, docB, rootsB))
    requires FragmentsWellFormed(Resolved(kind, file, docB, rootsB))
      && FragmentsWellFormed(Resolved(kind, file, docO, rootsO))
    ensures
      var b, o := Resolved(kind, file, docB, rootsB), Resolved(kind, file, docO, rootsO);
      EntryChanges(id, b, o) == [] <==> DigestText(id, b) == DigestText(id, o)
  {
    hide Resolved, EntryChanges, DigestText, SameInputs;
    SilentIffSameInputs(id, kind, file, docB, rootsB, docO, rootsO);
    SameDigestIffSameInputs(id, Resolved(kind, file, docB, rootsB), Resolved(kind, file, docO, rootsO));
  }

  /** For a type, found by name in both documents, nothing about the roots has to be assumed. */
  lemma TypeSilentIffSameDigest(id: string, file: string, parents: Path, name: string, docB: Json, docO: Json)
    requires
      var b := Resolved(TypeEntry, file, Some(docB), SelectNamed(docB, parents, name));
      Validated(b) && FragmentsWellFormed(b)
    requires FragmentsWellFormed(Resolved(TypeEntry, file, Some(docO), SelectNamed(docO, parents, name)))
    ensures
      var b := Resolved(TypeEntry, file, Some(docB), SelectNamed(docB, parents, name));
      var o := Resolved(TypeEntry, file, Some(docO), SelectNamed(docO, parents, name));
      EntryChanges(id, b, o) == [] <==> DigestText(id, b) == DigestText(id, o)
  {
    hide Resolved, EntryChanges, DigestText, FragmentsWellFormed;
    SilentIffSameDigest(id, TypeEntry, file, Some(docB), SelectNamed(docB, parents, name),
                        Some(docO), SelectNamed(docO, parents, name));
  }

  // ------------------------------------------------------------------ ownership of raw changes

  datatype Disposition = InSurface(entryIds: seq<string>) | OutOfSurface

  predicate OwnsAt(e: Entry, file: string, pointer: string) {
    exists k | k in e.fragments :: e.fragments[k].file == file && Owns(e.fragments[k].pointer, pointer)
  }

  function OwnersAt(entries: map<string, Entry>, file: string, pointer: string): set<string> {
    set id | id in entries && OwnsAt(entries[id], file, pointer)
  }

  /** Which entries a change of the whole document falls into. */
  function ClassifyFullChange(baseline: map<string, Entry>, observed: map<string, Entry>, file: string, pointer: string,
                              kind: ChangeKind)
    : (d: Disposition)
    ensures d.InSurface? ==> d.entryIds != []
  {
    var owners := match kind
      case Added => OwnersAt(observed, file, pointer)
      case Removed => OwnersAt(baseline, file, pointer)
      case Changed => OwnersAt(baseline, file, pointer) + OwnersAt(observed, file, pointer);
    if owners == {} then OutOfSurface else InSurface(Sorted(owners))
  }

  /** The entry owns the place on a side on which the change happens. */
  ghost predicate OwnedBy(baseline: map<string, Entry>, observed: map<string, Entry>, file: string, pointer: string,
                          kind: ChangeKind, id: string) {
    || (kind != Added && id in baseline && OwnsAt(baseline[id], file, pointer))
    || (kind != Removed && id in observed && OwnsAt(observed[id], file, pointer))
  }

  /** A change falls into exactly the entries that own its place, and outside the surface if there are none. */
  lemma ClassifiedExactly(baseline: map<string, Entry>, observed: map<string, Entry>, file: string, pointer: string,
                          kind: ChangeKind)
    ensures
      var d := ClassifyFullChange(baseline, observed, file, pointer, kind);
      && (d.OutOfSurface? <==> forall id :: !OwnedBy(baseline, observed, file, pointer, kind, id))
      && (d.InSurface? ==>
            && Ascending(d.entryIds)
            && forall id :: id in d.entryIds <==> OwnedBy(baseline, observed, file, pointer, kind, id))
  {
    hide OwnsAt, Sorted;
    var b, o := OwnersAt(baseline, file, pointer), OwnersAt(observed, file, pointer);
    forall id
      ensures OwnedBy(baseline, observed, file, pointer, kind, id) <==>
        (kind != Added && id in b) || (kind != Removed && id in o)
    {
    }
    var owners := match kind case Added => o case Removed => b case Changed => b + o;
    assert forall id :: id in owners <==> OwnedBy(baseline, observed, file, pointer, kind, id);
  }

  lemma OwnsUnder(base: string, path: Path)
    ensures Owns(base, Under(base, path))
  {
    StartsWithSlash(path);
  }

  /** The side a change is charged to: the baseline for a removal, the observed document otherwise. */
  ghost predicate Charged(b: Entry, o: Entry, c: SurfaceChange) {
    OwnsAt(if c.kind == Removed then b else o, c.file, c.pointer)
  }

  lemma FragmentCharged(id: string, b: Entry, o: Entry, key: string, i: nat)
    requires key in b.fragments && key in o.fragments
    requires i < |FragmentChanges(id, b.fragments[key], o.fragments[key])|
    ensures
      var c := FragmentChanges(id, b.fragments[key], o.fragments[key])[i];
      c.entry == id && Charged(b, o, c)
  {
    hide Diff, Owns, Under;
    var x, y := b.fragments[key], o.fragments[key];
    var path := Diff([], x.value, y.value)[i].path;
    OwnsUnder(x.pointer, path);
    OwnsUnder(y.pointer, path);
  }

  lemma KeyCharged(id: string, b: Entry, o: Entry, key: string, i: nat)
    requires i < |KeyChanges(id, b, o, key)|
    ensures var c := KeyChanges(id, b, o, key)[i]; c.entry == id && Charged(b, o, c)
  {
    hide FragmentChanges;
    if key in b.fragments && key in o.fragments { FragmentCharged(id, b, o, key, i); }
  }

  lemma {:induction false} KeysCharged(id: string, b: Entry, o: Entry, keys: seq<string>, i: nat)
    requires i < |AllKeyChanges(id, b, o, keys)|
    ensures var c := AllKeyChanges(id, b, o, keys)[i]; c.entry == id && Charged(b, o, c)
  {
    hide KeyChanges, Charged;
    var front := AllKeyChanges(id, b, o, keys[..|keys| - 1]);
    if i < |front| {
      KeysCharged(id, b, o, keys[..|keys| - 1], i);
    } else {
      KeyCharged(id, b, o, keys[|keys| - 1], i - |front|);
    }
  }

  lemma EntryCharged(id: string, b: Entry, o: Entry, i: nat)
    requires i < |EntryChanges(id, b, o)|
    ensures var c := EntryChanges(id, b, o)[i]; c.entry == id && Charged(b, o, c)
  {
    hide Sorted, AllKeyChanges;
    if !o.missingRoot {
      KeysCharged(id, b, o, Sorted(b.fragments.Keys + o.fragments.Keys), i);
    }
  }

  /** Every reported change, looked up again as a raw change, is in the surface and names its own entry. */
  lemma ReportedChangesAreOwned(baseline: map<string, Entry>, observed: map<string, Entry>, id: string, i: nat)
    requires id in baseline && id in observed
    requires i < |EntryChanges(id, baseline[id], observed[id])|
    ensures
      var c := EntryChanges(id, baseline[id], observed[id])[i];
      var d := ClassifyFullChange(baseline, observed, c.file, c.pointer, c.kind);
      c.entry == id && d.InSurface? && id in d.entryIds
  {
    hide EntryChanges, OwnsAt, Sorted;
    EntryCharged(id, baseline[id], observed[id], i);
  }
}
