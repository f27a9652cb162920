/**
 What must be among the reported errors. Outside of alternatives and negation nothing that is violated goes
 unreported, and a failing alternative is reported by the first of the shortest lists.
 */
module SchemaReports {
  import opened Prelude
  import opened StringOrder
  import opened Json
  import opened JsonPointer
  import opened SchemaEval
  import opened SchemaMeaning
  import opened SchemaAnswers
  import opened SchemaBlame

  // ------------------------------------------------------------------ what is violated

  /** A keyword other than a combinator that looks at the instance as a whole is violated. */
  ghost predicate FailsPlainly(numbers: Numbers, o: map<string, Json>, i: Json) {
    || !TypeHolds(numbers, o, i) || !EnumConstHold(o, i) || !StringHolds(o, i) || !NumberHolds(numbers, o, i)
    || (i.Array? && !(WithinBound(o, "minItems", |i.items|, false) && WithinBound(o, "maxItems", |i.items|, true)))
  }

  /** The subschema has to hold of the part of the instance that lies `step` tokens further down. */
  ghost predicate Demanded(root: Json, o: map<string, Json>, i: Json, s: Json, x: Json, step: Path) {
    || (step == [] && x == i && "$ref" in o && o["$ref"].String? && ResolveLocal(root, o["$ref"].text) == Some(s))
    || (step == [] && x == i && "allOf" in o && o["allOf"].Array? && s in o["allOf"].items)
    || (i.Object? && |step| == 1 && step[0] in i.members && x == i.members[step[0]]
        && MemberTask(o, i.members, s, step[0]))
    || (i.Array? && exists k: nat | k < |i.items| :: step == [NatText(k)] && x == i.items[k] && ElementTask(o, s, k))
  }

  ghost predicate ObjectViolated(numbers: Numbers, root: Json, o: map<string, Json>, i: Json, path: Path, b: Blame) {
    || (path == [] && FailsPlainly(numbers, o, i))
    || (|path| == 1 && FailsAtMember(o, i, path[0]))
    || exists s, x, step :: Demanded(root, o, i, s, x, step) && step <= path && b(s, x, path[|step|..])
  }

  ghost predicate Violated(numbers: Numbers, root: Json, schema: Json, i: Json, path: Path, n: nat)
    decreases n
  {
    n > 0 &&
    match schema
    case Bool(allowed) => !allowed && path == []
    case Object(o) =>
      ObjectViolated(numbers, root, o, i, path, (s, x, p) => Violated(numbers, root, s, x, p, n - 1))
    case _ => false
  }

  // ------------------------------------------------------------------ lists that hold a pointer

  /** If there is an answer, the pointer is in it. */
  ghost predicate Shows(e: Errors, pointer: string) { e.Ok? ==> pointer in e.value }

  lemma ThenShows(a: Errors, b: Errors, pointer: string)
    requires Shows(a, pointer) || Shows(b, pointer)
    ensures Shows(Then(a, b), pointer)
  {
  }

  /** The list of every task holds what the opinion says is violated there. */
  ghost predicate ReportsOn(run: Runner, b: Blame) {
    forall tasks: seq<Task>, k: nat, path: Path | k < |tasks| && run(tasks).Ok?
      && b(tasks[k].schema, tasks[k].instance, path) ::
      |run(tasks).value| == |tasks| && Under(tasks[k].pointer, path) in run(tasks).value[k]
  }

  lemma {:induction false} FlattenHolds(lists: seq<seq<string>>, k: nat, e: string)
    requires k < |lists| && e in lists[k]
    ensures e in Flatten(lists)
  {
    if k > 0 { FlattenHolds(lists[1..], k - 1, e); }
  }

  lemma TaskShows(run: Runner, b: Blame, tasks: seq<Task>, t: Task, path: Path)
    requires ReportsOn(run, b) && t in tasks && b(t.schema, t.instance, path)
    ensures Shows(Flat(run(tasks)), Under(t.pointer, path))
  {
    hide Under;
    var k :| 0 <= k < |tasks| && tasks[k] == t;
    if run(tasks).Ok? { FlattenHolds(run(tasks).value, k, Under(t.pointer, path)); }
  }

  lemma ChildShows(run: Runner, b: Blame, tasks: seq<Task>, s: Json, x: Json, pointer: string, token: string,
                   path: Path)
    requires ReportsOn(run, b) && Task(s, x, ChildPointer(pointer, token)) in tasks && b(s, x, path)
    ensures Shows(Flat(run(tasks)), Under(pointer, [token] + path))
  {
    hide Under, ChildPointer, Shows, ReportsOn;
    TaskShows(run, b, tasks, Task(s, x, ChildPointer(pointer, token)), path);
    UnderChild(pointer, token, path);
  }

  lemma WholeShows(e: Errors, holds: bool, pointer: string)
    requires Decides(e, holds) && AllHere(e, pointer) && !holds
    ensures Shows(e, pointer)
  {
    if e.Ok? { assert e.value[0] in e.value; }
  }

  // ------------------------------------------------------------------ members

  lemma {:induction false} PropertyTaskThere(properties: map<string, Json>, keys: seq<string>, m: map<string, Json>,
                                             pointer: string, p: string)
    requires (forall k | 0 <= k < |keys| :: keys[k] in properties) && p in keys && p in m
    ensures Task(properties[p], m[p], ChildPointer(pointer, p)) in PropertyTasks(properties, keys, m, pointer)
  {
    hide ChildPointer;
    if p != keys[0] { PropertyTaskThere(properties, keys[1..], m, pointer, p); }
  }

  lemma {:induction false} MatchTaskThere(q: string, schema: Json, keys: seq<string>, m: map<string, Json>,
                                          pointer: string, p: string)
    requires (forall k | 0 <= k < |keys| :: keys[k] in m) && p in keys && PatternMatches(q, p)
    ensures Task(schema, m[p], ChildPointer(pointer, p)) in MatchTasks(q, schema, keys, m, pointer)
  {
    hide ChildPointer, PatternMatches;
    if p != keys[0] { MatchTaskThere(q, schema, keys[1..], m, pointer, p); }
  }

  lemma {:induction false} PatternTaskThere(patterns: map<string, Json>, names: seq<string>, keys: seq<string>,
                                            m: map<string, Json>, pointer: string, q: string, p: string)
    requires forall k | 0 <= k < |names| :: names[k] in patterns
    requires (forall k | 0 <= k < |keys| :: keys[k] in m) && q in names && p in keys && PatternMatches(q, p)
    ensures Task(patterns[q], m[p], ChildPointer(pointer, p)) in PatternTasks(patterns, names, keys, m, pointer)
  {
    hide ChildPointer, PatternMatches, MatchTasks;
    if q == names[0] {
      MatchTaskThere(q, patterns[q], keys, m, pointer, p);
    } else {
      PatternTaskThere(patterns, names[1..], keys, m, pointer, q, p);
    }
  }

  lemma {:induction false} ChildPointerThere(keys: seq<string>, pointer: string, p: string)
    requires p in keys
    ensures ChildPointer(pointer, p) in ChildPointers(keys, pointer)
  {
    hide ChildPointer;
    if p != keys[0] { ChildPointerThere(keys[1..], pointer, p); }
  }

  lemma {:induction false} RequiredShows(required: seq<Json>, m: map<string, Json>, pointer: string, p: string)
    requires String(p) in required && p !in m
    ensures Shows(RequiredErrors(required, m, pointer), ChildPointer(pointer, p))
  {
    hide ChildPointer;
    var rest := RequiredErrors(required[1..], m, pointer);
    var first := if !required[0].String? then Err(InvalidSnapshot)
      else ErrorIf(required[0].text !in m, ChildPointer(pointer, required[0].text));
    if required[0] != String(p) { RequiredShows(required[1..], m, pointer, p); }
    ThenShows(first, rest, ChildPointer(pointer, p));
  }

  /** The members of a usable object schema. */
  ghost predicate Usable(o: map<string, Json>, properties: map<string, Json>, patterns: map<string, Json>) {
    && ObjectAt(o, "properties") == Some(properties) && ObjectAt(o, "patternProperties") == Some(patterns)
    && forall q | q in patterns :: PatternSupported(q)
  }

  lemma PropertyShows(properties: map<string, Json>, m: map<string, Json>, pointer: string, run: Runner, b: Blame,
                      p: string, path: Path)
    requires ReportsOn(run, b) && p in properties && p in m && b(properties[p], m[p], path)
    ensures Shows(PropertiesErrors(properties, m, pointer, run), Under(pointer, [p] + path))
  {
    hide Sorted, PropertyTasks, ReportsOn, Flat, Shows, Under, ChildPointer;
    var keys := Sorted(properties.Keys);
    assert forall k | 0 <= k < |keys| :: keys[k] in properties.Keys;
    assert p in properties.Keys;
    PropertyTaskThere(properties, keys, m, pointer, p);
    ChildShows(run, b, PropertyTasks(properties, keys, m, pointer), properties[p], m[p], pointer, p, path);
  }

  lemma PatternShows(patterns: map<string, Json>, m: map<string, Json>, pointer: string, run: Runner, b: Blame,
                     q: string, p: string, path: Path)
    requires ReportsOn(run, b) && q in patterns && p in m && PatternSupported(q) && PatternAccepts(q, p)
    requires b(patterns[q], m[p], path)
    ensures Shows(PatternPropertyErrors(patterns, m, pointer, run), Under(pointer, [p] + path))
  {
    hide Sorted, PatternTasks, ReportsOn, Flat, Under, ChildPointer, PatternSupported, PatternAccepts, PatternMatches;
    hide PatternsUsable;
    PatternMeans(q, p);
    var names, keys := Sorted(patterns.Keys), Sorted(m.Keys);
    assert forall k | 0 <= k < |names| :: names[k] in patterns.Keys;
    assert forall k | 0 <= k < |keys| :: keys[k] in m.Keys;
    assert q in patterns.Keys && p in m.Keys;
    PatternTaskThere(patterns, names, keys, m, pointer, q, p);
    ChildShows(run, b, PatternTasks(patterns, names, keys, m, pointer), patterns[q], m[p], pointer, p, path);
  }

  lemma AdditionalShows(o: map<string, Json>, properties: map<string, Json>, patterns: map<string, Json>,
                        m: map<string, Json>, pointer: string, run: Runner, b: Blame, p: string, path: Path)
    requires ReportsOn(run, b) && Usable(o, properties, patterns) && p in m && !Declared(o, p)
    requires "additionalProperties" in o
    requires
      || (o["additionalProperties"] == Bool(false) && path == [])
      || (o["additionalProperties"].Object? && b(o["additionalProperties"], m[p], path))
    ensures Shows(AdditionalKeyErrors(o, properties, patterns, m, pointer, run), Under(pointer, [p] + path))
  {
    hide Sorted, ReportsOn, Flat, Under, ChildPointer, Declared, Undeclared, PatternSupported, ObjectAt, ChildTasks;
    hide ChildPointers;
    UndeclaredMeans(o, properties, patterns, p);
    var keys := UndeclaredKeys(properties, patterns, Sorted(m.Keys));
    assert p in m.Keys && p in keys;
    var additional := o["additionalProperties"];
    if additional.Object? {
      assert forall k | 0 <= k < |keys| :: keys[k] in keys && keys[k] in m.Keys;
      var k :| 0 <= k < |keys| && keys[k] == p;
      var tasks := ChildTasks(additional, keys, m, pointer);
      assert tasks[k] == Task(additional, m[p], ChildPointer(pointer, p));
      ChildShows(run, b, tasks, additional, m[p], pointer, p, path);
    } else {
      ChildPointerThere(keys, pointer, p);
      MemberPointer(pointer, p);
      assert [p] + [] == [p];
    }
  }

  /** What concerns one member is reported among the errors of the object. */
  lemma MemberShows(o: map<string, Json>, m: map<string, Json>, pointer: string, run: Runner, b: Blame, s: Json,
                    p: string, path: Path)
    requires ReportsOn(run, b) && p in m && MemberTask(o, m, s, p) && b(s, m[p], path)
    requires "patternProperties" in o && o["patternProperties"].Object? ==>
      forall q | q in o["patternProperties"].members :: PatternSupported(q)
    ensures Shows(ObjectErrors(o, Object(m), pointer, run), Under(pointer, [p] + path))
  {
    hide ReportsOn, Under, Declared, PatternSupported, PatternAccepts, Then;
    hide RequiredKeyErrors, PropertiesErrors, PatternPropertyErrors, AdditionalKeyErrors;
    var properties, patterns := ObjectAt(o, "properties"), ObjectAt(o, "patternProperties");
    var e := Under(pointer, [p] + path);
    if properties.Some? && patterns.Some? {
      var required, own := RequiredKeyErrors(o, m, pointer), PropertiesErrors(properties.value, m, pointer, run);
      var matched := PatternPropertyErrors(patterns.value, m, pointer, run);
      var other := AdditionalKeyErrors(o, properties.value, patterns.value, m, pointer, run);
      if p in properties.value && s == properties.value[p] {
        PropertyShows(properties.value, m, pointer, run, b, p, path);
        ThenShows(required, own, e);
        ThenShows(Then(required, own), matched, e);
        ThenShows(Then(Then(required, own), matched), other, e);
      } else if q :| q in patterns.value && PatternAccepts(q, p) && s == patterns.value[q] {
        PatternShows(patterns.value, m, pointer, run, b, q, p, path);
        ThenShows(Then(required, own), matched, e);
        ThenShows(Then(Then(required, own), matched), other, e);
      } else {
        AdditionalShows(o, properties.value, patterns.value, m, pointer, run, b, p, path);
        ThenShows(Then(Then(required, own), matched), other, e);
      }
    }
  }

  lemma AtMemberShows(o: map<string, Json>, m: map<string, Json>, pointer: string, run: Runner, b: Blame, p: string)
    requires ReportsOn(run, b) && FailsAtMember(o, Object(m), p)
    requires "patternProperties" in o && o["patternProperties"].Object? ==>
      forall q | q in o["patternProperties"].members :: PatternSupported(q)
    ensures Shows(ObjectErrors(o, Object(m), pointer, run), Under(pointer, [p]))
  {
    hide ReportsOn, Under, Declared, PatternSupported, Then, PropertiesErrors, PatternPropertyErrors,
      AdditionalKeyErrors;
    hide RequiredErrors, ChildPointer;
    var properties, patterns := ObjectAt(o, "properties"), ObjectAt(o, "patternProperties");
    var e := Under(pointer, [p]);
    if properties.Some? && patterns.Some? {
      var required, own := RequiredKeyErrors(o, m, pointer), PropertiesErrors(properties.value, m, pointer, run);
      var matched := PatternPropertyErrors(patterns.value, m, pointer, run);
      var other := AdditionalKeyErrors(o, properties.value, patterns.value, m, pointer, run);
      if p in m {
        AdditionalShows(o, properties.value, patterns.value, m, pointer, run, b, p, []);
        assert [p] + [] == [p];
      } else {
        RequiredShows(o["required"].items, m, pointer, p);
        MemberPointer(pointer, p);
        ThenShows(required, own, e);
        ThenShows(Then(required, own), matched, e);
      }
      ThenShows(Then(Then(required, own), matched), other, e);
    }
  }

  // ------------------------------------------------------------------ elements

  lemma ElementShows(o: map<string, Json>, items: seq<Json>, pointer: string, run: Runner, b: Blame, s: Json, k: nat,
                     path: Path)
    requires ReportsOn(run, b) && k < |items| && ElementTask(o, s, k) && b(s, items[k], path)
    ensures Shows(ArrayErrors(o, Array(items), pointer, run), Under(pointer, [NatText(k)] + path))
  {
    hide ReportsOn, Under, Then, BoundErrors, NatText, Flat, ChildPointer, PrefixTasks, RestTasks;
    var prefix := ArrayAt(o, "prefixItems");
    var e := Under(pointer, [NatText(k)] + path);
    if prefix.Some? {
      var bounds := Then(BoundErrors(o, "minItems", |items|, false, pointer),
        BoundErrors(o, "maxItems", |items|, true, pointer));
      var tasks := PrefixTasks(prefix.value, items, pointer);
      var first, rest := Flat(run(tasks)), ItemsErrors(o, |prefix.value|, items, pointer, run);
      if k < |prefix.value| {
        PrefixTaskThere(prefix.value, items, pointer, k);
        ChildShows(run, b, tasks, s, items[k], pointer, NatText(k), path);
        ThenShows(bounds, first, e);
      } else {
        RestTaskThere(s, |prefix.value|, items, pointer, k);
        ChildShows(run, b, RestTasks(s, |prefix.value|, items, pointer), s, items[k], pointer, NatText(k), path);
      }
      ThenShows(Then(bounds, first), rest, e);
    } else {
      NoPrefix(o, items, pointer, run);
    }
  }

  lemma NoPrefix(o: map<string, Json>, items: seq<Json>, pointer: string, run: Runner)
    requires ArrayAt(o, "prefixItems").None?
    ensures ArrayErrors(o, Array(items), pointer, run).Err?
  {
    hide BoundErrors;
  }

  lemma PrefixTaskThere(schemas: seq<Json>, items: seq<Json>, pointer: string, k: nat)
    requires k < |schemas| && k < |items|
    ensures Task(schemas[k], items[k], ChildPointer(pointer, NatText(k))) in PrefixTasks(schemas, items, pointer)
  {
    hide ChildPointer, NatText;
    assert PrefixTasks(schemas, items, pointer)[k] == ItemTask(schemas[k], items, k, pointer);
  }

  lemma RestTaskThere(schema: Json, from: nat, items: seq<Json>, pointer: string, k: nat)
    requires from <= k < |items|
    ensures Task(schema, items[k], ChildPointer(pointer, NatText(k))) in RestTasks(schema, from, items, pointer)
  {
    hide ChildPointer, NatText;
    assert RestTasks(schema, from, items, pointer)[k - from] == ItemTask(schema, items, k, pointer);
  }

  // ------------------------------------------------------------------ the keywords together

  lemma PlainShows(numbers: Numbers, root: Json, o: map<string, Json>, i: Json, pointer: string, run: Runner)
    requires FailsPlainly(numbers, o, i)
    ensures
      || Shows(TypeErrors(numbers, o, i, pointer), pointer) || Shows(EnumConstErrors(o, i, pointer), pointer)
      || Shows(StringErrors(o, i, pointer), pointer) || Shows(NumberErrors(numbers, o, i, pointer), pointer)
      || Shows(ArrayErrors(o, i, pointer, run), pointer)
  {
    hide TypeErrors, EnumConstErrors, StringErrors, NumberErrors, ArrayErrors, TypeHolds, EnumConstHold, StringHolds;
    hide NumberHolds, WithinBound, Decides, AllHere, Shows;
    TypeDecides(numbers, o, i, pointer);
    EnumConstDecides(o, i, pointer);
    StringDecides(o, i, pointer);
    NumberDecides(numbers, o, i, pointer);
    PlainKeywordsHere(numbers, o, i, pointer);
    StringHere(o, i, pointer);
    NumberHere(numbers, o, i, pointer);
    if !TypeHolds(numbers, o, i) {
      WholeShows(TypeErrors(numbers, o, i, pointer), false, pointer);
    } else if !EnumConstHold(o, i) {
      WholeShows(EnumConstErrors(o, i, pointer), false, pointer);
    } else if !StringHolds(o, i) {
      WholeShows(StringErrors(o, i, pointer), false, pointer);
    } else if !NumberHolds(numbers, o, i) {
      WholeShows(NumberErrors(numbers, o, i, pointer), false, pointer);
    } else {
      LengthShows(o, i.items, pointer, run);
    }
  }

  lemma LengthShows(o: map<string, Json>, items: seq<Json>, pointer: string, run: Runner)
    requires !(WithinBound(o, "minItems", |items|, false) && WithinBound(o, "maxItems", |items|, true))
    ensures Shows(ArrayErrors(o, Array(items), pointer, run), pointer)
  {
    hide BoundErrors, WithinBound, Decides, AllHere, Shows, Then, ItemsErrors, PrefixTasks;
    var least, most := BoundErrors(o, "minItems", |items|, false, pointer), BoundErrors(o, "maxItems", |items|, true,
      pointer);
    BoundDecides(o, "minItems", |items|, false, pointer);
    BoundDecides(o, "maxItems", |items|, true, pointer);
    BoundHere(o, "minItems", |items|, false, pointer);
    BoundHere(o, "maxItems", |items|, true, pointer);
    if !WithinBound(o, "minItems", |items|, false) {
      WholeShows(least, false, pointer);
    } else {
      WholeShows(most, false, pointer);
    }
    ThenShows(least, most, pointer);
    var prefix := ArrayAt(o, "prefixItems");
    var first := if prefix.None? then Err(InvalidSnapshot) else Flat(run(PrefixTasks(prefix.value, items, pointer)));
    var rest := if prefix.None? then Err(InvalidSnapshot) else ItemsErrors(o, |prefix.value|, items, pointer, run);
    ThenShows(Then(least, most), first, pointer);
    ThenShows(Then(Then(least, most), first), rest, pointer);
  }

  lemma RefShows(root: Json, o: map<string, Json>, i: Json, pointer: string, run: Runner, b: Blame, s: Json,
                 path: Path)
    requires ReportsOn(run, b) && b(s, i, path)
    requires "$ref" in o && o["$ref"].String? && ResolveLocal(root, o["$ref"].text) == Some(s)
    ensures Shows(RefErrors(root, o, i, pointer, run), Under(pointer, path))
  {
    hide ReportsOn, Under, Flat, ResolveLocal;
    TaskShows(run, b, [Task(s, i, pointer)], Task(s, i, pointer), path);
  }

  lemma AllOfShows(o: map<string, Json>, i: Json, pointer: string, run: Runner, b: Blame, s: Json, path: Path)
    requires ReportsOn(run, b) && b(s, i, path) && "allOf" in o && o["allOf"].Array? && s in o["allOf"].items
    ensures Shows(CombinatorErrors(o, i, pointer, run), Under(pointer, path))
  {
    hide ReportsOn, Under, Flat, AlternativeErrors, NotErrors, Shows, Then;
    var tasks, e := SameInstance(o["allOf"].items, i, pointer), Under(pointer, path);
    var k :| 0 <= k < |o["allOf"].items| && o["allOf"].items[k] == s;
    assert tasks[k] == Task(s, i, pointer);
    TaskShows(run, b, tasks, Task(s, i, pointer), path);
    var all, any, one := AllOfErrors(o, i, pointer, run), AlternativeErrors("anyOf", false, o, i, pointer, run),
      AlternativeErrors("oneOf", true, o, i, pointer, run);
    ThenShows(all, any, e);
    ThenShows(Then(all, any), one, e);
    ThenShows(Then(Then(all, any), one), NotErrors(o, i, pointer, run), e);
  }

  /** Whatever one of the keywords shows is among the errors of the schema. */
  lemma PartShows(numbers: Numbers, root: Json, o: map<string, Json>, i: Json, pointer: string, run: Runner, e: string)
    requires
      || Shows(RefErrors(root, o, i, pointer, run), e) || Shows(CombinatorErrors(o, i, pointer, run), e)
      || Shows(TypeErrors(numbers, o, i, pointer), e) || Shows(EnumConstErrors(o, i, pointer), e)
      || Shows(ObjectErrors(o, i, pointer, run), e) || Shows(ArrayErrors(o, i, pointer, run), e)
      || Shows(StringErrors(o, i, pointer), e) || Shows(NumberErrors(numbers, o, i, pointer), e)
    ensures Shows(SchemaErrors(numbers, root, o, i, pointer, run), e)
  {
    hide RefErrors, CombinatorErrors, TypeErrors, EnumConstErrors, ObjectErrors, ArrayErrors, StringErrors,
      NumberErrors;
    hide Shows, Then;
    var e0, e1 := RefErrors(root, o, i, pointer, run), CombinatorErrors(o, i, pointer, run);
    var s1 := Then(e0, e1);
    if Shows(e0, e) || Shows(e1, e) { ThenShows(e0, e1, e); }
    var s2 := Then(s1, TypeErrors(numbers, o, i, pointer));
    if Shows(s1, e) || Shows(TypeErrors(numbers, o, i, pointer),
      e) { ThenShows(s1, TypeErrors(numbers, o, i, pointer), e); }
    var s3 := Then(s2, EnumConstErrors(o, i, pointer));
    if Shows(s2, e) || Shows(EnumConstErrors(o, i, pointer), e) { ThenShows(s2, EnumConstErrors(o, i, pointer), e); }
    var s4 := Then(s3, ObjectErrors(o, i, pointer, run));
    if Shows(s3, e) || Shows(ObjectErrors(o, i, pointer, run),
      e) { ThenShows(s3, ObjectErrors(o, i, pointer, run), e); }
    var s5 := Then(s4, ArrayErrors(o, i, pointer, run));
    if Shows(s4, e) || Shows(ArrayErrors(o, i, pointer, run), e) { ThenShows(s4, ArrayErrors(o, i, pointer, run), e); }
    var s6 := Then(s5, StringErrors(o, i, pointer));
    if Shows(s5, e) || Shows(StringErrors(o, i, pointer), e) { ThenShows(s5, StringErrors(o, i, pointer), e); }
    ThenShows(s6, NumberErrors(numbers, o, i, pointer), e);
  }

  /** A subschema that has to hold is reported where it is violated. */
  lemma DemandedShows(numbers: Numbers, root: Json, o: map<string, Json>, i: Json, pointer: string, run: Runner,
                      b: Blame, s: Json, x: Json, step: Path, path: Path)
    requires ReportsOn(run, b) && Demanded(root, o, i, s, x, step) && step <= path && b(s, x, path[|step|..])
    requires "patternProperties" in o && o["patternProperties"].Object? ==>
      forall q | q in o["patternProperties"].members :: PatternSupported(q)
    ensures Shows(SchemaErrors(numbers, root, o, i, pointer, run), Under(pointer, path))
  {
    hide ReportsOn, Under, SchemaErrors, RefErrors, CombinatorErrors, ObjectErrors, ArrayErrors, Shows, MemberTask;
    hide ElementTask, ResolveLocal, PatternSupported, NatText;
    var rest := path[|step|..];
    assert path == step + rest;
    if step == [] {
      assert rest == path;
      if "$ref" in o && o["$ref"].String? && ResolveLocal(root, o["$ref"].text) == Some(s) {
        RefShows(root, o, i, pointer, run, b, s, path);
      } else {
        AllOfShows(o, i, pointer, run, b, s, path);
      }
    } else if i.Object? {
      assert step == [step[0]];
      MemberShows(o, i.members, pointer, run, b, s, step[0], rest);
    } else {
      var k: nat :| k < |i.items| && step == [NatText(k)] && x == i.items[k] && ElementTask(o, s, k);
      ElementShows(o, i.items, pointer, run, b, s, k, rest);
    }
    PartShows(numbers, root, o, i, pointer, run, Under(pointer, path));
  }

  lemma ObjectShows(numbers: Numbers, root: Json, o: map<string, Json>, i: Json, pointer: string, run: Runner,
                    b: Blame, path: Path)
    requires ReportsOn(run, b) && ObjectViolated(numbers, root, o, i, path, b)
    requires "patternProperties" in o && o["patternProperties"].Object? ==>
      forall q | q in o["patternProperties"].members :: PatternSupported(q)
    ensures Shows(SchemaErrors(numbers, root, o, i, pointer, run), Under(pointer, path))
  {
    hide ReportsOn, Under, SchemaErrors, Shows, Demanded, FailsPlainly, PatternSupported, FailsAtMember;
    hide RefErrors, CombinatorErrors, TypeErrors, EnumConstErrors, ObjectErrors, ArrayErrors, StringErrors,
      NumberErrors;
    if path == [] && FailsPlainly(numbers, o, i) {
      PlainShows(numbers, root, o, i, pointer, run);
      WholePointer(pointer);
      PartShows(numbers, root, o, i, pointer, run, pointer);
    } else if |path| == 1 && FailsAtMember(o, i, path[0]) {
      MemberFailsInObject(o, i, path[0]);
      AtMemberShows(o, i.members, pointer, run, b, path[0]);
      assert path == [path[0]];
      PartShows(numbers, root, o, i, pointer, run, Under(pointer, path));
    } else {
      var s, x, step :| Demanded(root, o, i, s, x, step) && step <= path && b(s, x, path[|step|..]);
      DemandedShows(numbers, root, o, i, pointer, run, b, s, x, step, path);
    }
  }

  lemma MemberFailsInObject(o: map<string, Json>, i: Json, p: string)
    requires FailsAtMember(o, i, p)
    ensures i.Object?
  {
  }

  // ------------------------------------------------------------------ every schema

  /** Whatever is violated outside of alternatives and negation is reported, wherever it lies. */
  lemma {:induction false} ViolationsAreReported(numbers: Numbers, root: Json, schema: Json, i: Json, pointer: string,
                                                 depth: nat, path: Path)
    requires Violated(numbers, root, schema, i, path, Left(depth))
    ensures Shows(Eval(numbers, root, schema, i, pointer, depth), Under(pointer, path))
    decreases Remaining(depth), 0
  {
    hide SchemaErrors, ObjectViolated, SupportedKey, PatternSupported, FormatSupported, Under, Shows;
    if schema.Object? {
      var o, n := schema.members, Left(depth) - 1;
      if Audited(o) {
        var run := Nested(numbers, root, depth);
        var b: Blame := (s, x, p) => Violated(numbers, root, s, x, p, n);
        forall tasks: seq<Task>, k: nat, p: Path | k < |tasks| && run(tasks).Ok?
          && b(tasks[k].schema, tasks[k].instance, p)
          ensures |run(tasks).value| == |tasks| && Under(tasks[k].pointer, p) in run(tasks).value[k]
        {
          EachReported(numbers, root, tasks, depth + 1, k, p);
        }
        ObjectShows(numbers, root, o, i, pointer, run, b, path);
      } else {
        RefusalShows(Under(pointer, path));
      }
    } else {
      WholePointer(pointer);
      FalseShows(pointer);
    }
  }

  lemma RefusalShows(e: string)
    ensures Shows(Err(InvalidSnapshot), e)
  {
  }

  lemma FalseShows(pointer: string)
    ensures Shows(ErrorIf(true, pointer), pointer)
  {
  }

  lemma {:induction false} EachReported(numbers: Numbers, root: Json, tasks: seq<Task>, depth: nat, k: nat, path: Path)
    requires k < |tasks| && EvalEach(numbers, root, tasks, depth).Ok?
    requires Violated(numbers, root, tasks[k].schema, tasks[k].instance, path, Left(depth))
    ensures
      var lists := EvalEach(numbers, root, tasks, depth).value;
      |lists| == |tasks| && Under(tasks[k].pointer, path) in lists[k]
    decreases Remaining(depth), 1, |tasks|
  {
    hide Eval, Violated, Under;
    EachAnswered(numbers, root, tasks, depth);
    if k == 0 {
      ViolationsAreReported(numbers, root, tasks[0].schema, tasks[0].instance, tasks[0].pointer, depth, path);
    } else {
      EachReported(numbers, root, tasks[1..], depth, k - 1, path);
    }
  }

  lemma {:induction false} EachAnswered(numbers: Numbers, root: Json, tasks: seq<Task>, depth: nat)
    requires EvalEach(numbers, root, tasks, depth).Ok?
    ensures |EvalEach(numbers, root, tasks, depth).value| == |tasks|
    decreases |tasks|
  {
    hide Eval;
    if tasks != [] { EachAnswered(numbers, root, tasks[1..], depth); }
  }

  // ------------------------------------------------------------------ alternatives

  /** The first of the shortest lists that are not empty. */
  ghost predicate FirstShortest(lists: seq<seq<string>>, k: nat) {
    && k < |lists| && lists[k] != []
    && forall j | 0 <= j < |lists| && lists[j] != [] :: |lists[k]| <= |lists[j]| && (j < k ==> |lists[k]| < |lists[j]|)
  }

  lemma {:induction false} BestExactly(lists: seq<seq<string>>)
    ensures Best(lists).None? <==> forall j | 0 <= j < |lists| :: lists[j] == []
    ensures Best(lists).Some? ==> exists k: nat :: FirstShortest(lists, k) && Best(lists).value == lists[k]
  {
    if lists != [] {
      var front, n: nat := lists[..|lists| - 1], |lists| - 1;
      BestExactly(front);
      assert forall j | 0 <= j < n :: lists[j] == front[j];
      if Best(front).Some? {
        var k: nat :| FirstShortest(front, k) && Best(front).value == front[k];
        assert if lists[n] != [] && |lists[n]| < |front[k]| then FirstShortest(lists, n) else FirstShortest(lists, k);
      } else if lists[n] != [] {
        assert FirstShortest(lists, n);
      }
    }
  }

  /**
   What a keyword of alternatives reports: nothing if enough of them hold, its own place if too many do or there is
   none, and otherwise the first of the shortest lists.
   */
  lemma AlternativesReport(lists: seq<seq<string>>, pointer: string, exactlyOne: bool)
    ensures
      var errors, n := Judge(lists, pointer, exactlyOne), Successes(lists);
      && (errors == [] <==> if exactlyOne then n == 1 else n >= 1)
      && (errors != [] && (n > 1 || lists == []) ==> errors == [pointer])
      && (n == 0 && lists != [] ==> exists k: nat :: FirstShortest(lists, k) && errors == lists[k])
  {
    hide Best, Successes, FirstShortest;
    BestExactly(lists);
    NoSuccess(lists);
    if Successes(lists) == 0 && lists != [] { assert lists[0] != [] && Best(lists).Some?; }
  }

  lemma {:induction false} NoSuccess(lists: seq<seq<string>>)
    ensures Successes(lists) == 0 <==> forall j | 0 <= j < |lists| :: lists[j] != []
  {
    if lists != [] {
      var front := lists[..|lists| - 1];
      NoSuccess(front);
      assert forall j | 0 <= j < |front| :: lists[j] == front[j];
    }
  }
}
