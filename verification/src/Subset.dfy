/**
 The schema-subset extractor of the OpenCode adapter (crates/kaleido-adapter-opencode/build.rs:203-316):
 a last-in first-out worklist over component names, and the rewriting of component references into
 references to the extracted definitions.
 */
module Subset {
  import opened Prelude
  import opened StringOrder
  import opened Json
  import opened JsonPointer

  const COMPONENT := "#/components/schemas/"
  const DEFINITION := "#/definitions/"

  // ------------------------------------------------------------------ component references

  predicate IsComponent(reference: string) { |COMPONENT| <= |reference| && reference[..|COMPONENT|] == COMPONENT }

  function NameOf(reference: string): string
    requires IsComponent(reference)
  {
    reference[|COMPONENT|..]
  }

  /** The component an object refers to itself. */
  function OwnName(m: map<string, Json>): seq<string> {
    if "$ref" in m && m["$ref"].String? && IsComponent(m["$ref"].text) then [NameOf(m["$ref"].text)] else []
  }

  /** Every component name referred to in a value, in the order they are met. */
  function ComponentNames(j: Json): seq<string>
    decreases j, 1, 0
  {
    match j
    case Object(m) => OwnName(m) + NamesAt(j, Sorted(m.Keys))
    case Array(items) => NamesIn(items)
    case _ => []
  }

  function NamesIn(items: seq<Json>): seq<string>
    decreases items, 0, 0
  {
    if items == [] then [] else NamesIn(items[..|items| - 1]) + ComponentNames(items[|items| - 1])
  }

  function NamesAt(j: Json, keys: seq<string>): seq<string>
    requires Names(j, keys)
    decreases j, 0, |keys|
  {
    if keys == [] then [] else NamesAt(j, keys[..|keys| - 1]) + ComponentNames(j.members[keys[|keys| - 1]])
  }

  method CollectRefs(j: Json, queue: seq<string>) returns (out: seq<string>)
    ensures out == queue + ComponentNames(j)
    decreases j, 1
  {
    hide Sorted, IsComponent;
    match j
    case Object(m) =>
      out := queue;
      if "$ref" in m && m["$ref"].String? && IsComponent(m["$ref"].text) {
        out := out + [NameOf(m["$ref"].text)];
      }
      ghost var own := out;
      out := CollectFromMembers(j, out);
      assert own == queue + OwnName(m);
      assert own + NamesAt(j, Sorted(m.Keys)) == queue + (OwnName(m) + NamesAt(j, Sorted(m.Keys)));
    case Array(items) => out := CollectFromItems(items, queue);
    case _ =>
      out := queue;
      assert queue + [] == queue;
  }

  method CollectFromMembers(j: Json, queue: seq<string>) returns (out: seq<string>)
    requires j.Object?
    ensures out == queue + NamesAt(j, Sorted(j.members.Keys))
    decreases j, 0
  {
    hide Sorted, ComponentNames, NamesAt;
    var keys := Sorted(j.members.Keys);
    assert forall i | 0 <= i < |keys| :: keys[i] in j.members.Keys;
    out := queue;
    NamesAtStart(j, keys);
    for i := 0 to |keys|
      invariant out == queue + NamesAt(j, keys[..i])
    {
      NamesAtNext(j, keys, i);
      ghost var before, names := NamesAt(j, keys[..i]), ComponentNames(j.members[keys[i]]);
      assert (queue + before) + names == queue + (before + names);
      out := CollectRefs(j.members[keys[i]], out);
    }
    assert keys[..|keys|] == keys;
  }

  lemma NamesAtStart(j: Json, keys: seq<string>)
    requires Names(j, keys)
    ensures NamesAt(j, keys[..0]) == []
  {
  }

  lemma NamesAtNext(j: Json, keys: seq<string>, i: nat)
    requires Names(j, keys) && i < |keys|
    ensures NamesAt(j, keys[..i + 1]) == NamesAt(j, keys[..i]) + ComponentNames(j.members[keys[i]])
  {
    assert keys[..i + 1][..i] == keys[..i];
  }

  method CollectFromItems(items: seq<Json>, queue: seq<string>) returns (out: seq<string>)
    ensures out == queue + NamesIn(items)
    decreases items, 0
  {
    hide NamesIn, ComponentNames;
    out := queue;
    NamesInStart(items);
    for i := 0 to |items|
      invariant out == queue + NamesIn(items[..i])
    {
      NamesInNext(items, i);
      assert (queue + NamesIn(items[..i])) + ComponentNames(items[i])
        == queue + (NamesIn(items[..i]) + ComponentNames(items[i]));
      out := CollectRefs(items[i], out);
    }
    assert items[..|items|] == items;
  }

  lemma NamesInStart(items: seq<Json>)
    ensures NamesIn(items[..0]) == []
  {
  }

  lemma NamesInNext(items: seq<Json>, i: nat)
    requires i < |items|
    ensures NamesIn(items[..i + 1]) == NamesIn(items[..i]) + ComponentNames(items[i])
  {
    hide ComponentNames;
    assert items[..i + 1][..i] == items[..i];
  }

  // ------------------------------------------------------------------ rewriting

  function RewriteRef(reference: string): string {
    if IsComponent(reference) then DEFINITION + NameOf(reference) else reference
  }

  function Rewrite(j: Json): Json {
    match j
    case Array(items) => Array(seq(|items|, i requires 0 <= i < |items| => Rewrite(items[i])))
    case Object(m) =>
      Object(map k | k in m ::
        if k == "$ref" && m[k].String? then String(RewriteRef(m[k].text)) else Rewrite(m[k]))
    case _ => j
  }

  /** The references of a rewritten value are the rewritten references. */
  lemma {:induction false} RewriteCarries(j: Json, reference: string)
    ensures Carries(Rewrite(j), reference) <==> exists r :: Carries(j, r) && RewriteRef(r) == reference
  {
    hide RewriteRef;
    match j
    case Array(items) =>
      var out := Rewrite(j).items;
      forall i | 0 <= i < |items|
        ensures Carries(out[i], reference) <==> exists r :: Carries(items[i], r) && RewriteRef(r) == reference
      {
        RewriteCarries(items[i], reference);
      }
    case Object(m) =>
      var out := Rewrite(j).members;
      forall k | k in m && !(k == "$ref" && m[k].String?)
        ensures Carries(out[k], reference) <==> exists r :: Carries(m[k], r) && RewriteRef(r) == reference
      {
        RewriteCarries(m[k], reference);
      }
      if "$ref" in m && m["$ref"].String? { assert Carries(j, m["$ref"].text); }
    case _ =>
  }

  lemma {:induction false} CarriedIsNamed(j: Json, reference: string)
    requires Carries(j, reference) && IsComponent(reference)
    ensures NameOf(reference) in ComponentNames(j)
    decreases j, 1
  {
    hide IsComponent, NameOf, Sorted;
    match j
    case Object(m) =>
      if !("$ref" in m && m["$ref"] == String(reference)) {
        var k :| k in m && Carries(m[k], reference);
        CarriedIsNamed(m[k], reference);
        var keys := Sorted(m.Keys);
        assert k in m.Keys;
        var i :| 0 <= i < |keys| && keys[i] == k;
        NamesAtHas(j, keys, i, NameOf(reference));
      }
    case Array(items) =>
      var i :| 0 <= i < |items| && Carries(items[i], reference);
      CarriedIsNamed(items[i], reference);
      NamesInHas(items, i, NameOf(reference));
  }

  /** The component names of a value are exactly those its references name. */
  lemma NamedIffCarried(j: Json, name: string)
    ensures name in ComponentNames(j) <==> Carries(j, COMPONENT + name)
  {
    hide ComponentNames, Carries;
    var reference := COMPONENT + name;
    assert reference[..|COMPONENT|] == COMPONENT && reference[|COMPONENT|..] == name;
    if Carries(j, reference) { CarriedIsNamed(j, reference); }
    if name in ComponentNames(j) { NamedIsCarried(j, name); }
  }

  lemma {:induction false} NamedIsCarried(j: Json, name: string)
    requires name in ComponentNames(j)
    ensures Carries(j, COMPONENT + name)
    decreases j, 1
  {
    hide Sorted, NamesAt, NamesIn;
    match j
    case Object(m) =>
      if name in OwnName(m) {
        OwnIsCarried(m, name);
      } else {
        var keys := Sorted(m.Keys);
        var i := NamedAt(j, keys, name);
        assert keys[i] in m.Keys;
        NamedIsCarried(m[keys[i]], name);
      }
    case Array(items) =>
      var i := NamedIn(items, name);
      NamedIsCarried(items[i], name);
  }

  lemma OwnIsCarried(m: map<string, Json>, name: string)
    requires name in OwnName(m)
    ensures "$ref" in m && m["$ref"] == String(COMPONENT + name)
  {
    var text := m["$ref"].text;
    assert text == text[..|COMPONENT|] + text[|COMPONENT|..];
  }

  lemma {:induction false} NamedAt(j: Json, keys: seq<string>, name: string) returns (i: nat)
    requires Names(j, keys) && name in NamesAt(j, keys)
    ensures i < |keys| && name in ComponentNames(j.members[keys[i]])
  {
    hide ComponentNames;
    i := |keys| - 1;
    if name !in ComponentNames(j.members[keys[i]]) { i := NamedAt(j, keys[..i], name); }
  }

  lemma {:induction false} NamedIn(items: seq<Json>, name: string) returns (i: nat)
    requires name in NamesIn(items)
    ensures i < |items| && name in ComponentNames(items[i])
  {
    hide ComponentNames;
    i := |items| - 1;
    if name !in ComponentNames(items[i]) { i := NamedIn(items[..i], name); }
  }

  lemma {:induction false} NamesAtHas(j: Json, keys: seq<string>, i: nat, name: string)
    requires Names(j, keys) && i < |keys| && name in ComponentNames(j.members[keys[i]])
    ensures name in NamesAt(j, keys)
  {
    hide ComponentNames;
    if i < |keys| - 1 { NamesAtHas(j, keys[..|keys| - 1], i, name); }
  }

  lemma {:induction false} NamesInHas(items: seq<Json>, i: nat, name: string)
    requires i < |items| && name in ComponentNames(items[i])
    ensures name in NamesIn(items)
  {
    hide ComponentNames;
    if i < |items| - 1 { NamesInHas(items[..|items| - 1], i, name); }
  }

  // ------------------------------------------------------------------ reachability

  /** The schemas a name can stand for: the components, with the synthetic ones taking precedence. */
  type Schemas = map<string, Json>

  function Next(schemas: Schemas, name: string): seq<string> {
    if name in schemas then ComponentNames(schemas[name]) else []
  }

  ghost predicate IsChain(schemas: Schemas, start: seq<string>, chain: seq<string>) {
    && chain != [] && chain[0] in start
    && forall i | 0 <= i < |chain| - 1 :: chain[i + 1] in Next(schemas, chain[i])
  }

  ghost predicate Reaches(schemas: Schemas, start: seq<string>, name: string) {
    exists chain :: IsChain(schemas, start, chain) && chain[|chain| - 1] == name
  }

  lemma ReachesStart(schemas: Schemas, start: seq<string>, name: string)
    requires name in start
    ensures Reaches(schemas, start, name)
  {
    assert IsChain(schemas, start, [name]);
  }

  lemma ReachesNext(schemas: Schemas, start: seq<string>, name: string, next: string)
    requires Reaches(schemas, start, name) && next in Next(schemas, name)
    ensures Reaches(schemas, start, next)
  {
    hide Next;
    var chain :| IsChain(schemas, start, chain) && chain[|chain| - 1] == name;
    var longer := chain + [next];
    forall i | 0 <= i < |longer| - 1 ensures longer[i + 1] in Next(schemas, longer[i]) {
      if i < |chain| - 1 { assert longer[i + 1] == chain[i + 1]; }
    }
    assert IsChain(schemas, start, longer);
  }

  ghost predicate ClosedUnder(schemas: Schemas, start: seq<string>, s: set<string>) {
    && (forall n | n in start :: n in s)
    && (forall n, next | n in s && next in Next(schemas, n) :: next in s)
  }

  lemma {:induction false} ChainStays(schemas: Schemas, start: seq<string>, s: set<string>, chain: seq<string>, i: nat)
    requires ClosedUnder(schemas, start, s) && IsChain(schemas, start, chain) && i < |chain|
    ensures chain[i] in s
  {
    hide Next;
    if i > 0 {
      ChainStays(schemas, start, s, chain, i - 1);
      assert chain[(i - 1) + 1] in Next(schemas, chain[i - 1]);
    }
  }

  lemma ReachedIsInside(schemas: Schemas, start: seq<string>, s: set<string>, name: string)
    requires ClosedUnder(schemas, start, s) && Reaches(schemas, start, name)
    ensures name in s
  {
    var chain :| IsChain(schemas, start, chain) && chain[|chain| - 1] == name;
    ChainStays(schemas, start, s, chain, |chain| - 1);
  }

  // ------------------------------------------------------------------ the worklist

  /** Every name that can come up at all. */
  ghost function Universe(schemas: Schemas, start: seq<string>): set<string> {
    (set n | n in start) + set k, n | k in schemas && n in ComponentNames(schemas[k]) :: n
  }

  /** What the worklist keeps: everything seen is reachable, and everything selected is expanded. */
  ghost predicate Underway(schemas: Schemas, start: seq<string>, queue: seq<string>, selected: set<string>) {
    && (forall n | n in queue || n in selected :: Reaches(schemas, start, n) && n in Universe(schemas, start))
    && (forall n | n in start :: n in queue || n in selected)
    && (forall n, next | n in selected && next in Next(schemas, n) :: next in queue || next in selected)
    && (forall n | n in selected :: n in schemas)
  }

  lemma Begins(schemas: Schemas, start: seq<string>)
    ensures Underway(schemas, start, start, {})
  {
    hide Next, Reaches;
    forall n | n in start ensures Reaches(schemas, start, n) { ReachesStart(schemas, start, n); }
  }

  lemma Skips(schemas: Schemas, start: seq<string>, queue: seq<string>, selected: set<string>)
    requires queue != [] && Underway(schemas, start, queue, selected) && queue[|queue| - 1] in selected
    ensures Underway(schemas, start, queue[..|queue| - 1], selected)
  {
    hide Next, Reaches, Universe;
    var n := |queue| - 1;
    assert queue == queue[..n] + [queue[n]];
  }

  lemma Selects(schemas: Schemas, start: seq<string>, queue: seq<string>, selected: set<string>)
    requires queue != [] && Underway(schemas, start, queue, selected) && queue[|queue| - 1] in schemas
      && queue[|queue| - 1] !in selected
    ensures
      var name := queue[|queue| - 1];
      && Underway(schemas, start, queue[..|queue| - 1] + ComponentNames(schemas[name]), selected + {name})
      && |Universe(schemas, start) - (selected + {name})| < |Universe(schemas, start) - selected|
  {
    hide Reaches, ComponentNames;
    var n := |queue| - 1;
    var name, names := queue[n], ComponentNames(schemas[queue[n]]);
    assert queue == queue[..n] + [name];
    forall next | next in names ensures Reaches(schemas, start, next) && next in Universe(schemas, start) {
      ReachesNext(schemas, start, name, next);
    }
    var u := Universe(schemas, start);
    assert u - (selected + {name}) == (u - selected) - {name};
  }

  /** An empty queue: exactly the reachable names have been selected, and all of them have a schema. */
  lemma Ends(schemas: Schemas, start: seq<string>, selected: set<string>)
    requires Underway(schemas, start, [], selected)
    ensures forall n :: n in selected <==> Reaches(schemas, start, n)
    ensures forall n | n in selected :: n in schemas
  {
    hide Next, Reaches, Universe;
    assert ClosedUnder(schemas, start, selected);
    forall n | Reaches(schemas, start, n) ensures n in selected { ReachedIsInside(schemas, start, selected, n); }
  }

  datatype Failure = NoComponents | MissingSynthetic(name: string) | AbsentSchema(name: string)

  /** The definitions are the schemas of exactly the reachable names. */
  ghost predicate Selection(schemas: Schemas, start: seq<string>, selected: map<string, Json>) {
    && (forall n :: n in selected <==> Reaches(schemas, start, n))
    && (forall n | n in selected :: n in schemas && selected[n] == schemas[n])
  }

  /**
   Pops names until the queue is empty. It fails only on a reachable name without a schema, and
   otherwise returns the schema of every reachable name.
   */
  method SelectSchemas(schemas: Schemas, start: seq<string>) returns (r: Result<map<string, Json>, Failure>)
    ensures r.Err? ==> r.error.AbsentSchema? && Reaches(schemas, start, r.error.name) && r.error.name !in schemas
    ensures r.Ok? ==> Selection(schemas, start, r.value)
  {
    hide Underway, Reaches, ComponentNames, Universe;
    var queue, selected: set<string>, definitions: map<string, Json> := start, {}, map[];
    Begins(schemas, start);
    while queue != []
      invariant Underway(schemas, start, queue, selected)
      invariant definitions.Keys == selected && forall n | n in selected :: n in schemas && definitions[n] == schemas[n]
      decreases |Universe(schemas, start) - selected|, |queue|
    {
      var last := |queue| - 1;
      var name := queue[last];
      QueuedIsReached(schemas, start, queue, selected, last);
      if name in selected {
        Skips(schemas, start, queue, selected);
        queue := queue[..last];
        continue;
      }
      if name !in schemas {
        return Err(AbsentSchema(name));
      }
      Selects(schemas, start, queue, selected);
      selected := selected + {name};
      queue := CollectRefs(schemas[name], queue[..last]);
      definitions := definitions[name := schemas[name]];
    }
    Ends(schemas, start, selected);
    assert forall n :: n in definitions <==> n in definitions.Keys;
    r := Ok(definitions);
  }

  lemma QueuedIsReached(schemas: Schemas, start: seq<string>, queue: seq<string>, selected: set<string>, i: nat)
    requires Underway(schemas, start, queue, selected) && i < |queue|
    ensures Reaches(schemas, start, queue[i])
  {
    hide Reaches, Next, Universe;
    assert queue[i] in queue;
  }

  // ------------------------------------------------------------------ the whole extraction

  /** A schema taken out of an operation, under a name of its own. */
  datatype Operation = Operation(name: string, path: Path)

  /** A synthetic schema gets its name as a title unless it has one. */
  function Titled(name: string, schema: Json): Json {
    if schema.Object? && "title" !in schema.members then Object(schema.members["title" := String(name)]) else schema
  }

  function Synthetic(document: Json, operations: seq<Operation>): Result<Schemas, Failure> {
    if operations == [] then Ok(map[])
    else
      var n := |operations| - 1;
      var front := Synthetic(document, operations[..n]);
      var schema := ObjectsOnly(document, operations[n].path);
      if front.Err? then front
      else if schema.None? then Err(MissingSynthetic(operations[n].name))
      else Ok(front.value[operations[n].name := Titled(operations[n].name, schema.value)])
  }

  function OperationNames(operations: seq<Operation>): (names: seq<string>)
    ensures |names| == |operations|
  {
    seq(|operations|, i requires 0 <= i < |operations| => operations[i].name)
  }

  function RewriteAll(definitions: map<string, Json>): map<string, Json> {
    map n | n in definitions :: Rewrite(definitions[n])
  }

  function Output(definitions: map<string, Json>): Json {
    Object(map["$schema" := String("http://json-schema.org/draft-07/schema#"),
               "title" := String("OpenCodeRequiredSurface"),
               "type" := String("object"),
               "definitions" := Object(definitions)])
  }

  method ExtractSubset(document: Json, roots: seq<string>, operations: seq<Operation>)
    returns (r: Result<Json, Failure>)
    ensures
      var components := ObjectsOnly(document, ["components", "schemas"]);
      var synthetic := Synthetic(document, operations);
      if components.None? || !components.value.Object? then r == Err(NoComponents)
      else if synthetic.Err? then r == Err(synthetic.error)
      else
        var schemas := components.value.members + synthetic.value;
        var start := roots + OperationNames(operations);
        && (r.Err? ==> r.error.AbsentSchema? && Reaches(schemas, start, r.error.name) && r.error.name !in schemas)
        && (r.Ok? ==> exists selected :: Selection(schemas, start, selected) && r.value == Output(RewriteAll(selected)))
  {
    hide Synthetic, ObjectsOnly, Reaches, Output, RewriteAll, Selection;
    var components := ObjectsOnly(document, ["components", "schemas"]);
    if components.None? || !components.value.Object? {
      return Err(NoComponents);
    }
    var synthetic :- CollectSynthetic(document, operations);
    var selected :- SelectSchemas(components.value.members + synthetic, roots + OperationNames(operations));
    r := Ok(Output(RewriteAll(selected)));
  }

  lemma {:induction false} SyntheticFails(document: Json, operations: seq<Operation>, k: nat)
    requires k <= |operations| && Synthetic(document, operations[..k]).Err?
    ensures Synthetic(document, operations) == Synthetic(document, operations[..k])
    decreases |operations| - k
  {
    if k == |operations| {
      assert operations[..k] == operations;
    } else {
      assert operations[..k + 1][..k] == operations[..k];
      SyntheticFails(document, operations, k + 1);
    }
  }

  method CollectSynthetic(document: Json, operations: seq<Operation>) returns (r: Result<Schemas, Failure>)
    ensures r == Synthetic(document, operations)
  {
    hide ObjectsOnly, Titled;
    var synthetic: Schemas := map[];
    for k := 0 to |operations|
      invariant Synthetic(document, operations[..k]) == Ok(synthetic)
    {
      assert operations[..k + 1][..k] == operations[..k];
      var schema := ObjectsOnly(document, operations[k].path);
      if schema.None? {
        SyntheticFails(document, operations, k + 1);
        return Err(MissingSynthetic(operations[k].name));
      }
      synthetic := synthetic[operations[k].name := Titled(operations[k].name, schema.value)];
    }
    assert operations[..|operations|] == operations;
    r := Ok(synthetic);
  }

  // ------------------------------------------------------------------ what success means

  lemma DefinitionIsNoComponent(name: string)
    ensures !IsComponent(DEFINITION + name)
  {
    var r := DEFINITION + name;
    assert r[2] == 'd' && COMPONENT[2] == 'c';
    if |COMPONENT| <= |r| { assert r[..|COMPONENT|][2] == r[2]; }
  }

  /**
   No component reference is left in an extracted definition, and every reference that was one now
   names a definition that is included.
   */
  lemma RewrittenRefsAreIncluded(schemas: Schemas, start: seq<string>, selected: map<string, Json>, name: string,
                                 reference: string)
    requires Selection(schemas, start, selected) && name in selected && Carries(RewriteAll(selected)[name], reference)
    ensures !IsComponent(reference)
    ensures
      || Carries(selected[name], reference)
      || exists target :: target in RewriteAll(selected) && reference == DEFINITION + target
  {
    hide Reaches, Carries, Rewrite;
    RewriteCarries(selected[name], reference);
    var r :| Carries(selected[name], r) && RewriteRef(r) == reference;
    if IsComponent(r) {
      CarriedIsNamed(selected[name], r);
      assert NameOf(r) in Next(schemas, name);
      ReachesNext(schemas, start, name, NameOf(r));
      assert reference == DEFINITION + NameOf(r);
      assert NameOf(r) in RewriteAll(selected);
      DefinitionIsNoComponent(NameOf(r));
    }
  }

  /** A name that can stand in a JSON pointer as it is. */
  predicate NeedsNoEscape(name: string) { '/' !in name && NoPair(name, '0') && NoPair(name, '1') }

  /** Where the pointer of a rewritten reference leads: into the definitions, token by token of the bare name. */
  lemma DefinitionPointer(definitions: map<string, Json>, name: string)
    ensures Resolve(Output(definitions), (DEFINITION + name)[1..]) ==
      Lookup(Object(definitions), UnescapeAll(SplitSlash(name)))
  {
    hide SplitSlash, UnescapeToken, Lookup;
    var text := (DEFINITION + name)[1..];
    assert text == "" + "/" + ("definitions" + "/" + name);
    SplitJoined("", "definitions" + "/" + name);
    SplitJoined("definitions", name);
    var rest := SplitSlash(name);
    var parts := ["definitions"] + rest;
    assert SplitSlash(text) == [""] + parts && SplitSlash(text)[1..] == parts && parts[1..] == rest;
    UnescapeKeepsIff("definitions");
    DefinitionsFound(definitions, UnescapeAll(rest));
  }

  lemma DefinitionsFound(definitions: map<string, Json>, path: Path)
    ensures Lookup(Output(definitions), ["definitions"] + path) == Lookup(Object(definitions), path)
  {
    assert (["definitions"] + path)[1..] == path;
  }

  lemma {:induction false} FirstPartShorter(name: string)
    requires '/' in name
    ensures |SplitSlash(name)[0]| < |name| && |SplitSlash(name)| > 1
  {
    if name[0] != '/' {
      assert name == [name[0]] + name[1..];
      FirstPartShorter(name[1..]);
    }
  }

  /** A name that needs escaping and is defined alone is not found: its pointer asks for another name. */
  lemma LoneNameIsMissed(name: string, schema: Json)
    requires !NeedsNoEscape(name)
    ensures Resolve(Output(map[name := schema]), (DEFINITION + name)[1..]) == None
  {
    hide SplitSlash, UnescapeToken, Resolve;
    DefinitionPointer(map[name := schema], name);
    var parts := SplitSlash(name);
    UnescapeKeepsIff(parts[0]);
    if '/' in name {
      FirstPartShorter(name);
    } else {
      SplitToken(name);
    }
    assert UnescapeToken(parts[0]) != name;
    assert UnescapeAll(parts)[0] == UnescapeToken(parts[0]);
  }

  /**
   Read as a JSON pointer into the output, a rewritten reference leads to its definition whatever the
   definitions are, exactly if no character of the name would have had to be escaped.
   */
  lemma RewrittenRefResolves(name: string)
    ensures
      (forall definitions: map<string, Json> | name in definitions ::
         Resolve(Output(definitions), (DEFINITION + name)[1..]) == Some(definitions[name]))
      <==> NeedsNoEscape(name)
  {
    hide Resolve, UnescapeToken, SplitSlash;
    if NeedsNoEscape(name) {
      forall definitions: map<string, Json> | name in definitions
        ensures Resolve(Output(definitions), (DEFINITION + name)[1..]) == Some(definitions[name])
      {
        DefinitionPointer(definitions, name);
        SplitToken(name);
        UnescapeKeepsIff(name);
        assert UnescapeAll([name]) == [name] && [name][1..] == [];
      }
    } else {
      LoneNameIsMissed(name, Null);
      assert name in map[name := Null];
    }
  }

  /** A slash or an escape in a name sends the reference astray; any other tilde does no harm. */
  lemma NamesThatFail()
    ensures !NeedsNoEscape("a/b") && !NeedsNoEscape("a~0b") && NeedsNoEscape("a~b")
  {
    assert "a/b"[1] == '/' && "a~0b"[1] == '~' && "a~0b"[2] == '0';
  }
}
