/**
 Where the reported errors lie. Every error pointer leads to a place of the instance, or to a required
 property that is missing there, where a keyword of an applicable subschema is violated.
 */
module SchemaBlame {
  import opened Prelude
  import opened StringOrder
  import opened Json
  import opened JsonPointer
  import opened SchemaEval
  import opened SchemaMeaning
  import opened SchemaAnswers

  /** An opinion about which places of an instance a schema is violated at. */
  type Blame = (Json, Json, Path) -> bool

  // ------------------------------------------------------------------ what can be blamed

  /** A keyword that looks at the instance as a whole is violated. */
  ghost predicate FailsHere(numbers: Numbers, o: map<string, Json>, i: Json) {
    || !TypeHolds(numbers, o, i) || !EnumConstHold(o, i) || !StringHolds(o, i) || !NumberHolds(numbers, o, i)
    || (i.Array? && !(WithinBound(o, "minItems", |i.items|, false) && WithinBound(o, "maxItems", |i.items|, true)))
    || "anyOf" in o || "oneOf" in o || "not" in o
  }

  /** A member is required and missing, or present and not allowed. */
  ghost predicate FailsAtMember(o: map<string, Json>, i: Json, p: string) {
    && i.Object?
    && if p in i.members
       then "additionalProperties" in o && o["additionalProperties"] == Bool(false) && !Declared(o, p)
       else "required" in o && o["required"].Array? && String(p) in o["required"].items
  }

  /** The subschema `s` applies to the part `x` of the instance, which lies `step` tokens further down. */
  ghost predicate SubtaskAt(root: Json, o: map<string, Json>, i: Json, s: Json, x: Json, step: Path) {
    || (step == [] && x == i && "$ref" in o && o["$ref"].String? && ResolveLocal(root, o["$ref"].text) == Some(s))
    || (step == [] && x == i && exists k | k in LISTS && k in o :: o[k].Array? && s in o[k].items)
    || (i.Object? && |step| == 1 && step[0] in i.members && x == i.members[step[0]]
        && MemberTask(o, i.members, s, step[0]))
    || (i.Array? && exists k: nat | k < |i.items| :: step == [NatText(k)] && x == i.items[k] && ElementTask(o, s, k))
  }

  /** A keyword of the schema object, or a subschema as `b` sees it, is violated at the place. */
  ghost predicate ObjectBlames(numbers: Numbers, root: Json, o: map<string, Json>, i: Json, path: Path, b: Blame) {
    || (path == [] && FailsHere(numbers, o, i))
    || (|path| == 1 && FailsAtMember(o, i, path[0]))
    || exists s, x, step :: SubtaskAt(root, o, i, s, x, step) && step <= path && b(s, x, path[|step|..])
  }

  /** The schema is violated at the place, within `n` schemas one inside the other. */
  ghost predicate Blames(numbers: Numbers, root: Json, schema: Json, i: Json, path: Path, n: nat)
    decreases n
  {
    n > 0 &&
    match schema
    case Bool(allowed) => !allowed && path == []
    case Object(o) =>
      ObjectBlames(numbers, root, o, i, path, (s, x, p) => Blames(numbers, root, s, x, p, n - 1))
    case _ => false
  }

  // ------------------------------------------------------------------ blamed errors

  /** Every error is the pointer of a place that is blamed. */
  ghost predicate AllBlamed(errors: seq<string>, pointer: string, at: Path -> bool) {
    forall e | e in errors :: exists path :: e == Under(pointer, path) && at(path)
  }

  ghost predicate TaskBlamed(errors: seq<string>, t: Task, b: Blame) {
    AllBlamed(errors, t.pointer, path => b(t.schema, t.instance, path))
  }

  ghost predicate BlamesOn(run: Runner, b: Blame) {
    forall tasks :: run(tasks).Ok? ==>
      && |run(tasks).value| == |tasks|
      && forall k | 0 <= k < |tasks| :: TaskBlamed(run(tasks).value[k], tasks[k], b)
  }

  /** If there is an answer, its errors are blamed. */
  ghost predicate Accused(e: Errors, pointer: string, at: Path -> bool) { e.Ok? ==> AllBlamed(e.value, pointer, at) }

  lemma ThenAccused(a: Errors, b: Errors, pointer: string, at: Path -> bool)
    requires Accused(a, pointer, at) && Accused(b, pointer, at)
    ensures Accused(Then(a, b), pointer, at)
  {
  }

  lemma HereAccused(bad: bool, pointer: string, at: Path -> bool)
    requires bad ==> at([])
    ensures Accused(ErrorIf(bad, pointer), pointer, at)
  {
    assert pointer == Under(pointer, []) by { EmptyPointer(); }
  }

  lemma NothingAccused(pointer: string, at: Path -> bool)
    ensures Accused(Ok([]), pointer, at)
  {
  }

  lemma {:induction false} InFlattened(lists: seq<seq<string>>, e: string) returns (k: nat)
    requires e in Flatten(lists)
    ensures k < |lists| && e in lists[k]
  {
    if e in lists[0] {
      k := 0;
    } else {
      var j := InFlattened(lists[1..], e);
      k := j + 1;
    }
  }

  lemma UnderChild(pointer: string, token: string, path: Path)
    ensures Under(ChildPointer(pointer, token), path) == Under(pointer, [token] + path)
  {
    hide EscapeToken, PointerText;
    PointerHead([token] + path);
    assert ([token] + path)[1..] == path;
    assert pointer + ("/" + (EscapeToken(token) + PointerText(path)))
      == (pointer + "/" + EscapeToken(token)) + PointerText(path);
  }

  /** A task further down the instance, whose blame counts for the whole. */
  ghost predicate TaskFits(t: Task, pointer: string, b: Blame, at: Path -> bool) {
    || (t.pointer == pointer && forall path :: b(t.schema, t.instance, path) ==> at(path))
    || exists token :: t.pointer == ChildPointer(pointer, token)
                       && forall path :: b(t.schema, t.instance, path) ==> at([token] + path)
  }

  lemma TaskErrorBlamed(t: Task, errors: seq<string>, e: string, pointer: string, b: Blame, at: Path -> bool)
    requires TaskBlamed(errors, t, b) && TaskFits(t, pointer, b, at) && e in errors
    ensures exists path :: e == Under(pointer, path) && at(path)
  {
    hide Under, ChildPointer;
    var path :| e == Under(t.pointer, path) && b(t.schema, t.instance, path);
    if t.pointer == pointer && forall path :: b(t.schema, t.instance, path) ==> at(path) {
      assert at(path);
    } else {
      var token :| t.pointer == ChildPointer(pointer, token)
                   && forall path :: b(t.schema, t.instance, path) ==> at([token] + path);
      UnderChild(pointer, token, path);
      assert at([token] + path);
    }
  }

  lemma RunAccused(run: Runner, tasks: seq<Task>, pointer: string, b: Blame, at: Path -> bool)
    requires BlamesOn(run, b) && forall k | 0 <= k < |tasks| :: TaskFits(tasks[k], pointer, b, at)
    ensures Accused(Flat(run(tasks)), pointer, at)
  {
    hide TaskFits, TaskBlamed;
    if run(tasks).Ok? {
      var lists := run(tasks).value;
      forall e | e in Flatten(lists) ensures exists path :: e == Under(pointer, path) && at(path) {
        var k := InFlattened(lists, e);
        TaskErrorBlamed(tasks[k], lists[k], e, pointer, b, at);
      }
    }
  }

  // ------------------------------------------------------------------ references and combinators

  /** What one schema object may be blamed for. */
  ghost function Places(numbers: Numbers, root: Json, o: map<string, Json>, i: Json, b: Blame): Path -> bool {
    path => ObjectBlames(numbers, root, o, i, path, b)
  }

  /** A task on the whole instance fits. */
  lemma SameFits(numbers: Numbers, root: Json, o: map<string, Json>, i: Json, s: Json, pointer: string, b: Blame)
    requires SubtaskAt(root, o, i, s, i, [])
    ensures TaskFits(Task(s, i, pointer), pointer, b, Places(numbers, root, o, i, b))
  {
    hide SubtaskAt;
    forall path | b(s, i, path) ensures ObjectBlames(numbers, root, o, i, path, b) {
      assert [] <= path && path[0..] == path;
    }
  }

  lemma ChildFits(numbers: Numbers, root: Json, o: map<string, Json>, i: Json, s: Json, x: Json, token: string,
                  pointer: string, b: Blame)
    requires SubtaskAt(root, o, i, s, x, [token])
    ensures TaskFits(Task(s, x, ChildPointer(pointer, token)), pointer, b, Places(numbers, root, o, i, b))
  {
    hide SubtaskAt, ChildPointer;
    forall path | b(s, x, path) ensures ObjectBlames(numbers, root, o, i, [token] + path, b) {
      assert [token] <= [token] + path && ([token] + path)[1..] == path;
    }
  }

  lemma RefAccused(numbers: Numbers, root: Json, o: map<string, Json>, i: Json, pointer: string, run: Runner, b: Blame)
    requires BlamesOn(run, b)
    ensures Accused(RefErrors(root, o, i, pointer, run), pointer, Places(numbers, root, o, i, b))
  {
    hide ResolveLocal, BlamesOn, Places, TaskFits, Accused, Flat;
    var at := Places(numbers, root, o, i, b);
    NothingAccused(pointer, at);
    if "$ref" in o && o["$ref"].String? && ResolveLocal(root, o["$ref"].text).Some? {
      var s := ResolveLocal(root, o["$ref"].text).value;
      SameFits(numbers, root, o, i, s, pointer, b);
      RunAccused(run, [Task(s, i, pointer)], pointer, b, at);
    } else {
      RefusalAccused(pointer, at);
    }
  }

  lemma RefusalAccused(pointer: string, at: Path -> bool)
    ensures Accused(Err(InvalidSnapshot), pointer, at)
  {
  }

  lemma ListsFit(numbers: Numbers, root: Json, o: map<string, Json>, i: Json, key: string, pointer: string, b: Blame)
    requires key in LISTS && key in o && o[key].Array?
    ensures
      var tasks := SameInstance(o[key].items, i, pointer);
      forall k | 0 <= k < |tasks| :: TaskFits(tasks[k], pointer, b, Places(numbers, root, o, i, b))
  {
    hide TaskFits, Places;
    var tasks := SameInstance(o[key].items, i, pointer);
    forall k | 0 <= k < |tasks| ensures TaskFits(tasks[k], pointer, b, Places(numbers, root, o, i, b)) {
      assert o[key].items[k] in o[key].items;
      assert SubtaskAt(root, o, i, o[key].items[k], i, []);
      SameFits(numbers, root, o, i, o[key].items[k], pointer, b);
    }
  }

  lemma AllOfAccused(numbers: Numbers, root: Json, o: map<string, Json>, i: Json, pointer: string, run: Runner,
                     b: Blame)
    requires BlamesOn(run, b)
    ensures Accused(AllOfErrors(o, i, pointer, run), pointer, Places(numbers, root, o, i, b))
  {
    hide BlamesOn, Places, TaskFits, Accused, Flat;
    var at := Places(numbers, root, o, i, b);
    NothingAccused(pointer, at);
    RefusalAccused(pointer, at);
    if "allOf" in o && o["allOf"].Array? {
      ListsFit(numbers, root, o, i, "allOf", pointer, b);
      RunAccused(run, SameInstance(o["allOf"].items, i, pointer), pointer, b, at);
    }
  }

  lemma {:induction false} BestIsOne(lists: seq<seq<string>>)
    ensures Best(lists).Some? ==> Best(lists).value in lists
  {
    if lists != [] { BestIsOne(lists[..|lists| - 1]); }
  }

  lemma JudgeAccused(lists: seq<seq<string>>, tasks: seq<Task>, pointer: string, exactlyOne: bool, b: Blame,
                     at: Path -> bool)
    requires |lists| == |tasks| && at([])
    requires forall k | 0 <= k < |tasks| :: TaskBlamed(lists[k], tasks[k], b) && TaskFits(tasks[k], pointer, b, at)
    ensures AllBlamed(Judge(lists, pointer, exactlyOne), pointer, at)
  {
    hide TaskFits, TaskBlamed, Best, Successes;
    HereAccused(true, pointer, at);
    BestIsOne(lists);
    if Best(lists).Some? {
      var k :| 0 <= k < |lists| && lists[k] == Best(lists).value;
      forall e | e in lists[k] ensures exists path :: e == Under(pointer, path) && at(path) {
        TaskErrorBlamed(tasks[k], lists[k], e, pointer, b, at);
      }
    }
  }

  lemma AlternativesAccused(numbers: Numbers, root: Json, key: string, exactlyOne: bool, o: map<string, Json>, i: Json,
                            pointer: string, run: Runner, b: Blame)
    requires BlamesOn(run, b) && key in {"anyOf", "oneOf"}
    ensures Accused(AlternativeErrors(key, exactlyOne, o, i, pointer, run), pointer, Places(numbers, root, o, i, b))
  {
    hide TaskFits, TaskBlamed, Judge, ObjectBlames;
    var at := Places(numbers, root, o, i, b);
    if key in o && o[key].Array? {
      ListsFit(numbers, root, o, i, key, pointer, b);
      var tasks := SameInstance(o[key].items, i, pointer);
      assert at([]) by { BlamedHere(numbers, root, o, i, b); }
      if run(tasks).Ok? { JudgeAccused(run(tasks).value, tasks, pointer, exactlyOne, b, at); }
    }
  }

  lemma BlamedHere(numbers: Numbers, root: Json, o: map<string, Json>, i: Json, b: Blame)
    requires FailsHere(numbers, o, i)
    ensures Places(numbers, root, o, i, b)([])
  {
  }

  lemma NotAccused(numbers: Numbers, root: Json, o: map<string, Json>, i: Json, pointer: string, run: Runner, b: Blame)
    ensures Accused(NotErrors(o, i, pointer, run), pointer, Places(numbers, root, o, i, b))
  {
    hide Places, Accused, Flat;
    var at := Places(numbers, root, o, i, b);
    NothingAccused(pointer, at);
    RefusalAccused(pointer, at);
    if "not" in o {
      BlamedHere(numbers, root, o, i, b);
      HereAccused(true, pointer, at);
      HereAccused(false, pointer, at);
      var nested := Flat(run([Task(o["not"], i, pointer)]));
      if nested.Err? { assert nested.error == InvalidSnapshot; }
    }
  }

  lemma CombinatorsAccused(numbers: Numbers, root: Json, o: map<string, Json>, i: Json, pointer: string, run: Runner,
                           b: Blame)
    requires BlamesOn(run, b)
    ensures Accused(CombinatorErrors(o, i, pointer, run), pointer, Places(numbers, root, o, i, b))
  {
    hide BlamesOn, Places, Accused, AllOfErrors, AlternativeErrors, NotErrors, Then;
    var at := Places(numbers, root, o, i, b);
    var all, any, one, not' := AllOfErrors(o, i, pointer, run), AlternativeErrors("anyOf", false, o, i, pointer, run),
      AlternativeErrors("oneOf", true, o, i, pointer, run), NotErrors(o, i, pointer, run);
    AllOfAccused(numbers, root, o, i, pointer, run, b);
    AlternativesAccused(numbers, root, "anyOf", false, o, i, pointer, run, b);
    AlternativesAccused(numbers, root, "oneOf", true, o, i, pointer, run, b);
    NotAccused(numbers, root, o, i, pointer, run, b);
    ThenAccused(all, any, pointer, at);
    ThenAccused(Then(all, any), one, pointer, at);
    ThenAccused(Then(Then(all, any), one), not', pointer, at);
  }

  // ------------------------------------------------------------------ plain keywords

  /** Errors of the instance as a whole all carry its own pointer. */
  ghost predicate AllHere(e: Errors, pointer: string) { e.Ok?
                          ==> forall k | 0 <= k < |e.value| :: e.value[k] == pointer }

  lemma WholeAccused(numbers: Numbers, root: Json, o: map<string, Json>, i: Json, e: Errors, holds: bool,
                     pointer: string, b: Blame)
    requires Decides(e, holds) && AllHere(e, pointer) && (!holds ==> FailsHere(numbers, o, i))
    ensures Accused(e, pointer, Places(numbers, root, o, i, b))
  {
    hide ObjectBlames, FailsHere;
    var at := Places(numbers, root, o, i, b);
    if e.Ok? && e.value != [] {
      BlamedHere(numbers, root, o, i, b);
      assert pointer == Under(pointer, []) by { EmptyPointer(); }
    }
  }

  lemma PlainKeywordsHere(numbers: Numbers, o: map<string, Json>, i: Json, pointer: string)
    ensures AllHere(TypeErrors(numbers, o, i, pointer), pointer)
    ensures AllHere(EnumConstErrors(o, i, pointer), pointer)
  {
    hide HasType, KnownType;
  }

  lemma StringHere(o: map<string, Json>, i: Json, pointer: string)
    ensures AllHere(StringErrors(o, i, pointer), pointer)
  {
    hide AsU64, PatternMatches, PatternSupported;
  }

  lemma NumberHere(numbers: Numbers, o: map<string, Json>, i: Json, pointer: string)
    ensures AllHere(NumberErrors(numbers, o, i, pointer), pointer)
  {
    hide FitsFormat, FormatSupported;
  }

  lemma BoundHere(o: map<string, Json>, key: string, actual: nat, maximum: bool, pointer: string)
    ensures AllHere(BoundErrors(o, key, actual, maximum, pointer), pointer)
  {
    hide AsU64;
  }

  lemma PlainAccused(numbers: Numbers, root: Json, o: map<string, Json>, i: Json, pointer: string, b: Blame)
    ensures
      var at := Places(numbers, root, o, i, b);
      && Accused(TypeErrors(numbers, o, i, pointer), pointer, at)
        && Accused(EnumConstErrors(o, i, pointer), pointer, at)
      && Accused(StringErrors(o, i, pointer), pointer, at) && Accused(NumberErrors(numbers, o, i, pointer), pointer, at)
  {
    hide Places, Accused, AllHere, TypeErrors, EnumConstErrors, StringErrors, NumberErrors, Decides;
    hide TypeHolds, EnumConstHold, StringHolds, NumberHolds;
    TypeDecides(numbers, o, i, pointer);
    EnumConstDecides(o, i, pointer);
    StringDecides(o, i, pointer);
    NumberDecides(numbers, o, i, pointer);
    PlainKeywordsHere(numbers, o, i, pointer);
    StringHere(o, i, pointer);
    NumberHere(numbers, o, i, pointer);
    WholeAccused(numbers, root, o, i, TypeErrors(numbers, o, i, pointer), TypeHolds(numbers, o, i), pointer, b);
    WholeAccused(numbers, root, o, i, EnumConstErrors(o, i, pointer), EnumConstHold(o, i), pointer, b);
    WholeAccused(numbers, root, o, i, StringErrors(o, i, pointer), StringHolds(o, i), pointer, b);
    WholeAccused(numbers, root, o, i, NumberErrors(numbers, o, i, pointer), NumberHolds(numbers, o, i), pointer, b);
  }

  // ------------------------------------------------------------------ objects

  lemma MemberPointer(pointer: string, p: string)
    ensures ChildPointer(pointer, p) == Under(pointer, [p])
  {
    UnderChild(pointer, p, []);
    EmptyPointer();
    assert [p] + [] == [p];
  }

  lemma {:induction false} RequiredAccused(required: seq<Json>, m: map<string, Json>, pointer: string, at: Path -> bool)
    requires forall p | String(p) in required && p !in m :: at([p])
    ensures Accused(RequiredErrors(required, m, pointer), pointer, at)
  {
    hide ChildPointer, Under;
    if required != [] {
      RequiredAccused(required[1..], m, pointer, at);
      if required[0].String? && required[0].text !in m {
        assert required[0] in required;
        MemberPointer(pointer, required[0].text);
      }
    }
  }

  lemma {:induction false} PropertyTasksAre(properties: map<string, Json>, keys: seq<string>, m: map<string, Json>,
                                            pointer: string, t: Task)
    requires forall k | 0 <= k < |keys| :: keys[k] in properties
    ensures t in PropertyTasks(properties, keys, m, pointer) ==>
      exists p :: p in properties && p in m && t == Task(properties[p], m[p], ChildPointer(pointer, p))
  {
    if keys != [] { PropertyTasksAre(properties, keys[1..], m, pointer, t); }
  }

  lemma {:induction false} MatchTasksAre(q: string, schema: Json, keys: seq<string>, m: map<string, Json>,
                                         pointer: string, t: Task)
    requires PatternSupported(q) && forall k | 0 <= k < |keys| :: keys[k] in m
    ensures t in MatchTasks(q, schema, keys, m, pointer) ==>
      exists p :: p in m && PatternAccepts(q, p) && t == Task(schema, m[p], ChildPointer(pointer, p))
  {
    hide PatternMatches, PatternAccepts, PatternSupported;
    if keys != [] {
      MatchTasksAre(q, schema, keys[1..], m, pointer, t);
      PatternMeans(q, keys[0]);
    }
  }

  lemma {:induction false} PatternTasksAre(patterns: map<string, Json>, names: seq<string>, keys: seq<string>,
                                           m: map<string, Json>, pointer: string, t: Task)
    requires forall k | 0 <= k < |names| :: names[k] in patterns && PatternSupported(names[k])
    requires forall k | 0 <= k < |keys| :: keys[k] in m
    ensures t in PatternTasks(patterns, names, keys, m, pointer) ==>
      exists q, p :: q in patterns && p in m && PatternAccepts(q, p)
                     && t == Task(patterns[q], m[p], ChildPointer(pointer, p))
  {
    hide PatternAccepts, PatternSupported, MatchTasks;
    if names != [] {
      PatternTasksAre(patterns, names[1..], keys, m, pointer, t);
      MatchTasksAre(names[0], patterns[names[0]], keys, m, pointer, t);
    }
  }

  /** A task on a member that applies to it fits. */
  lemma MemberFits(numbers: Numbers, root: Json, o: map<string, Json>, m: map<string, Json>, s: Json, p: string,
                   pointer: string, b: Blame)
    requires p in m && MemberTask(o, m, s, p)
    ensures TaskFits(Task(s, m[p], ChildPointer(pointer, p)), pointer, b, Places(numbers, root, o, Object(m), b))
  {
    hide MemberTask, TaskFits, Places;
    assert SubtaskAt(root, o, Object(m), s, m[p], [p]);
    ChildFits(numbers, root, o, Object(m), s, m[p], p, pointer, b);
  }

  lemma PropertiesAccused(numbers: Numbers, root: Json, o: map<string, Json>, m: map<string, Json>,
                          properties: map<string, Json>, pointer: string, run: Runner, b: Blame)
    requires BlamesOn(run, b) && ObjectAt(o, "properties") == Some(properties)
    ensures Accused(PropertiesErrors(properties, m, pointer, run), pointer, Places(numbers, root, o, Object(m), b))
  {
    hide Sorted, PropertyTasks, BlamesOn, TaskFits, Places, Accused, Flat, Declared, PatternAccepts;
    var keys := Sorted(properties.Keys);
    assert forall k | 0 <= k < |keys| :: keys[k] in properties.Keys;
    var tasks, at := PropertyTasks(properties, keys, m, pointer), Places(numbers, root, o, Object(m), b);
    forall k | 0 <= k < |tasks| ensures TaskFits(tasks[k], pointer, b, at) {
      PropertyTasksAre(properties, keys, m, pointer, tasks[k]);
      var p :| p in properties && p in m && tasks[k] == Task(properties[p], m[p], ChildPointer(pointer, p));
      MemberFits(numbers, root, o, m, properties[p], p, pointer, b);
    }
    RunAccused(run, tasks, pointer, b, at);
  }

  lemma PatternsAccused(numbers: Numbers, root: Json, o: map<string, Json>, m: map<string, Json>,
                        patterns: map<string, Json>, pointer: string, run: Runner, b: Blame)
    requires BlamesOn(run, b) && ObjectAt(o, "patternProperties") == Some(patterns)
    requires forall q | q in patterns :: PatternSupported(q)
    ensures Accused(PatternPropertyErrors(patterns, m, pointer, run), pointer, Places(numbers, root, o, Object(m), b))
  {
    hide Sorted, PatternTasks, BlamesOn, TaskFits, Places, Accused, Flat, Declared, PatternAccepts, PatternSupported;
    var names, keys := Sorted(patterns.Keys), Sorted(m.Keys);
    assert forall k | 0 <= k < |names| :: names[k] in patterns.Keys;
    assert forall k | 0 <= k < |keys| :: keys[k] in m.Keys;
    var tasks, at := PatternTasks(patterns, names, keys, m, pointer), Places(numbers, root, o, Object(m), b);
    forall k | 0 <= k < |tasks| ensures TaskFits(tasks[k], pointer, b, at) {
      PatternTasksAre(patterns, names, keys, m, pointer, tasks[k]);
      var q, p :| q in patterns && p in m && PatternAccepts(q, p)
                  && tasks[k] == Task(patterns[q], m[p], ChildPointer(pointer, p));
      MemberFits(numbers, root, o, m, patterns[q], p, pointer, b);
    }
    RunAccused(run, tasks, pointer, b, at);
  }

  lemma {:induction false} ChildPointersAre(keys: seq<string>, pointer: string, e: string)
    ensures e in ChildPointers(keys, pointer) ==> exists p :: p in keys && e == ChildPointer(pointer, p)
  {
    if keys != [] { ChildPointersAre(keys[1..], pointer, e); }
  }

  /** Members that `additionalProperties` speaks about. */
  lemma AdditionalAccused(numbers: Numbers, root: Json, o: map<string, Json>, m: map<string, Json>, keys: seq<string>,
                          pointer: string, run: Runner, b: Blame)
    requires BlamesOn(run, b) && "additionalProperties" in o
    requires forall k | 0 <= k < |keys| :: keys[k] in m && !Declared(o, keys[k])
    ensures Accused(AdditionalErrors(o["additionalProperties"], keys, m, pointer, run), pointer,
                    Places(numbers, root, o, Object(m), b))
  {
    hide BlamesOn, TaskFits, Flat, Declared, ChildTasks, ChildPointers, ObjectBlames, Under, ChildPointer;
    var additional, at := o["additionalProperties"], Places(numbers, root, o, Object(m), b);
    if additional.Object? {
      var tasks := ChildTasks(additional, keys, m, pointer);
      forall k | 0 <= k < |tasks| ensures TaskFits(tasks[k], pointer, b, at) {
        assert MemberTask(o, m, additional, keys[k]);
        MemberFits(numbers, root, o, m, additional, keys[k], pointer, b);
      }
      RunAccused(run, tasks, pointer, b, at);
    } else if additional == Bool(false) {
      forall e | e in ChildPointers(keys, pointer) ensures exists path :: e == Under(pointer, path) && at(path) {
        ChildPointersAre(keys, pointer, e);
        var p :| p in keys && e == ChildPointer(pointer, p);
        MemberPointer(pointer, p);
        BlamedAtMember(numbers, root, o, Object(m), p, b);
      }
    }
  }

  lemma BlamedAtMember(numbers: Numbers, root: Json, o: map<string, Json>, i: Json, p: string, b: Blame)
    requires FailsAtMember(o, i, p)
    ensures Places(numbers, root, o, i, b)([p])
  {
  }

  lemma AdditionalKeyAccused(numbers: Numbers, root: Json, o: map<string, Json>, m: map<string, Json>,
                             properties: map<string, Json>, patterns: map<string, Json>, pointer: string, run: Runner,
                             b: Blame)
    requires BlamesOn(run, b) && forall q | q in patterns :: PatternSupported(q)
    requires ObjectAt(o, "properties") == Some(properties) && ObjectAt(o, "patternProperties") == Some(patterns)
    ensures Accused(AdditionalKeyErrors(o, properties, patterns, m, pointer, run), pointer,
                    Places(numbers, root, o, Object(m), b))
  {
    hide BlamesOn, Accused, Places, Declared, Sorted, UndeclaredKeys, AdditionalErrors, PatternSupported, ObjectAt;
    NothingAccused(pointer, Places(numbers, root, o, Object(m), b));
    if "additionalProperties" in o {
      var keys := UndeclaredKeys(properties, patterns, Sorted(m.Keys));
      forall k | 0 <= k < |keys| ensures keys[k] in m && !Declared(o, keys[k]) {
        assert keys[k] in keys;
        UndeclaredListed(o, properties, patterns, m, keys[k]);
      }
      AdditionalAccused(numbers, root, o, m, keys, pointer, run, b);
    }
  }

  lemma RequiredKeyAccused(numbers: Numbers, root: Json, o: map<string, Json>, m: map<string, Json>, pointer: string,
                           b: Blame)
    ensures Accused(RequiredKeyErrors(o, m, pointer), pointer, Places(numbers, root, o, Object(m), b))
  {
    hide Accused, Places, RequiredErrors;
    var at := Places(numbers, root, o, Object(m), b);
    NothingAccused(pointer, at);
    RefusalAccused(pointer, at);
    if "required" in o && o["required"].Array? {
      forall p | String(p) in o["required"].items && p !in m ensures at([p]) {
        BlamedAtMember(numbers, root, o, Object(m), p, b);
      }
      RequiredAccused(o["required"].items, m, pointer, at);
    }
  }

  lemma ObjectAccused(numbers: Numbers, root: Json, o: map<string, Json>, i: Json, pointer: string, run: Runner,
                      b: Blame)
    requires BlamesOn(run, b)
    requires "patternProperties" in o && o["patternProperties"].Object? ==>
      forall q | q in o["patternProperties"].members :: PatternSupported(q)
    ensures Accused(ObjectErrors(o, i, pointer, run), pointer, Places(numbers, root, o, i, b))
  {
    hide BlamesOn, Accused, Places, RequiredKeyErrors, PropertiesErrors, PatternPropertyErrors, AdditionalKeyErrors;
    hide Then, PatternSupported;
    var at := Places(numbers, root, o, i, b);
    NothingAccused(pointer, at);
    RefusalAccused(pointer, at);
    if i.Object? {
      var m := i.members;
      var properties, patterns := ObjectAt(o, "properties"), ObjectAt(o, "patternProperties");
      if properties.Some? && patterns.Some? {
        var e1, e2 := RequiredKeyErrors(o, m, pointer), PropertiesErrors(properties.value, m, pointer, run);
        var e3 := PatternPropertyErrors(patterns.value, m, pointer, run);
        var e4 := AdditionalKeyErrors(o, properties.value, patterns.value, m, pointer, run);
        RequiredKeyAccused(numbers, root, o, m, pointer, b);
        PropertiesAccused(numbers, root, o, m, properties.value, pointer, run, b);
        PatternsAccused(numbers, root, o, m, patterns.value, pointer, run, b);
        AdditionalKeyAccused(numbers, root, o, m, properties.value, patterns.value, pointer, run, b);
        ThenAccused(e1, e2, pointer, at);
        ThenAccused(Then(e1, e2), e3, pointer, at);
        ThenAccused(Then(Then(e1, e2), e3), e4, pointer, at);
      }
    }
  }

  // ------------------------------------------------------------------ arrays

  lemma ElementFits(numbers: Numbers, root: Json, o: map<string, Json>, items: seq<Json>, s: Json, k: nat,
                    pointer: string, b: Blame)
    requires k < |items| && ElementTask(o, s, k)
    ensures TaskFits(ItemTask(s, items, k, pointer), pointer, b, Places(numbers, root, o, Array(items), b))
  {
    hide ElementTask, TaskFits, Places, NatText;
    assert SubtaskAt(root, o, Array(items), s, items[k], [NatText(k)]);
    ChildFits(numbers, root, o, Array(items), s, items[k], NatText(k), pointer, b);
  }

  lemma ElementsAccused(numbers: Numbers, root: Json, o: map<string, Json>, items: seq<Json>, prefix: seq<Json>,
                        pointer: string, run: Runner, b: Blame)
    requires BlamesOn(run, b) && ArrayAt(o, "prefixItems") == Some(prefix)
    ensures
      var at := Places(numbers, root, o, Array(items), b);
      && Accused(Flat(run(PrefixTasks(prefix, items, pointer))), pointer, at)
      && Accused(ItemsErrors(o, |prefix|, items, pointer, run), pointer, at)
  {
    hide BlamesOn, TaskFits, Places, Accused, Flat, NatText;
    var at := Places(numbers, root, o, Array(items), b);
    NothingAccused(pointer, at);
    assert Prefix(o) == prefix;
    var first := PrefixTasks(prefix, items, pointer);
    forall k | 0 <= k < |first| ensures TaskFits(first[k], pointer, b, at) {
      ElementFits(numbers, root, o, items, prefix[k], k, pointer, b);
    }
    RunAccused(run, first, pointer, b, at);
    if "items" in o {
      var rest := RestTasks(o["items"], |prefix|, items, pointer);
      forall k | 0 <= k < |rest| ensures TaskFits(rest[k], pointer, b, at) {
        ElementFits(numbers, root, o, items, o["items"], |prefix| + k, pointer, b);
      }
      RunAccused(run, rest, pointer, b, at);
    }
  }

  lemma ArrayAccused(numbers: Numbers, root: Json, o: map<string, Json>, i: Json, pointer: string, run: Runner,
                     b: Blame)
    requires BlamesOn(run, b)
    ensures Accused(ArrayErrors(o, i, pointer, run), pointer, Places(numbers, root, o, i, b))
  {
    hide BlamesOn, Accused, Places, BoundErrors, WithinBound, PrefixTasks, ItemsErrors, Flat, Then, AllHere, Decides;
    var at := Places(numbers, root, o, i, b);
    NothingAccused(pointer, at);
    RefusalAccused(pointer, at);
    if i.Array? {
      var n, prefix := |i.items|, ArrayAt(o, "prefixItems");
      var least, greatest := BoundErrors(o, "minItems", n, false, pointer),
        BoundErrors(o, "maxItems", n, true, pointer);
      BoundDecides(o, "minItems", n, false, pointer);
      BoundDecides(o, "maxItems", n, true, pointer);
      BoundHere(o, "minItems", n, false, pointer);
      BoundHere(o, "maxItems", n, true, pointer);
      WholeAccused(numbers, root, o, i, least, WithinBound(o, "minItems", n, false), pointer, b);
      WholeAccused(numbers, root, o, i, greatest, WithinBound(o, "maxItems", n, true), pointer, b);
      ThenAccused(least, greatest, pointer, at);
      var two := Then(least, greatest);
      if prefix.Some? {
        ElementsAccused(numbers, root, o, i.items, prefix.value, pointer, run, b);
        var first := Flat(run(PrefixTasks(prefix.value, i.items, pointer)));
        ThenAccused(two, first, pointer, at);
        ThenAccused(Then(two, first), ItemsErrors(o, |prefix.value|, i.items, pointer, run), pointer, at);
      } else {
        ThenAccused(two, Err(InvalidSnapshot), pointer, at);
        ThenAccused(Then(two, Err(InvalidSnapshot)), Err(InvalidSnapshot), pointer, at);
      }
    }
  }

  // ------------------------------------------------------------------ a whole schema

  lemma SchemaAccused(numbers: Numbers, root: Json, o: map<string, Json>, i: Json, pointer: string, run: Runner,
                      b: Blame)
    requires BlamesOn(run, b)
    requires "patternProperties" in o && o["patternProperties"].Object? ==>
      forall q | q in o["patternProperties"].members :: PatternSupported(q)
    ensures Accused(SchemaErrors(numbers, root, o, i, pointer, run), pointer, Places(numbers, root, o, i, b))
  {
    hide RefErrors, CombinatorErrors, TypeErrors, EnumConstErrors, ObjectErrors, ArrayErrors, StringErrors,
      NumberErrors, BlamesOn, Accused, Places, Then, PatternSupported;
    var at := Places(numbers, root, o, i, b);
    RefAccused(numbers, root, o, i, pointer, run, b);
    CombinatorsAccused(numbers, root, o, i, pointer, run, b);
    PlainAccused(numbers, root, o, i, pointer, b);
    ObjectAccused(numbers, root, o, i, pointer, run, b);
    ArrayAccused(numbers, root, o, i, pointer, run, b);
    var e1 := Then(RefErrors(root, o, i, pointer, run), CombinatorErrors(o, i, pointer, run));
    ThenAccused(RefErrors(root, o, i, pointer, run), CombinatorErrors(o, i, pointer, run), pointer, at);
    var e2 := Then(e1, TypeErrors(numbers, o, i, pointer));
    ThenAccused(e1, TypeErrors(numbers, o, i, pointer), pointer, at);
    var e3 := Then(e2, EnumConstErrors(o, i, pointer));
    ThenAccused(e2, EnumConstErrors(o, i, pointer), pointer, at);
    var e4 := Then(e3, ObjectErrors(o, i, pointer, run));
    ThenAccused(e3, ObjectErrors(o, i, pointer, run), pointer, at);
    var e5 := Then(e4, ArrayErrors(o, i, pointer, run));
    ThenAccused(e4, ArrayErrors(o, i, pointer, run), pointer, at);
    ThenAccused(e5, StringErrors(o, i, pointer), pointer, at);
    ThenAccused(Then(e5, StringErrors(o, i, pointer)), NumberErrors(numbers, o, i, pointer), pointer, at);
  }

  /** Every reported pointer leads to a place where something that applies there is violated. */
  lemma {:induction false} ErrorsAreBlamed(numbers: Numbers, root: Json, schema: Json, i: Json, pointer: string,
                                           depth: nat)
    ensures
      var errors := Eval(numbers, root, schema, i, pointer, depth);
      errors.Ok? ==>
        forall e | e in errors.value ::
          exists path :: e == Under(pointer, path) && Blames(numbers, root, schema, i, path, Left(depth))
    decreases Remaining(depth), 0
  {
    hide SchemaErrors, ObjectBlames, SupportedKey, PatternSupported, FormatSupported, Under;
    if depth <= 256 {
      if schema.Object? && Audited(schema.members) {
        var run, n, o := Nested(numbers, root, depth), Left(depth) - 1, schema.members;
        var b: Blame := (s, x, p) => Blames(numbers, root, s, x, p, n);
        forall tasks ensures run(tasks).Ok? ==>
          |run(tasks).value| == |tasks| && forall k | 0 <= k < |tasks| :: TaskBlamed(run(tasks).value[k], tasks[k], b)
        {
          EachBlamed(numbers, root, tasks, depth + 1, b);
        }
        SchemaAccused(numbers, root, o, i, pointer, run, b);
        ObjectIsBlamed(numbers, root, o, i, Left(depth), b);
      } else if schema.Bool? {
        WholePointer(pointer);
        if !schema.b { assert Blames(numbers, root, schema, i, [], Left(depth)); }
      }
    }
  }

  lemma WholePointer(pointer: string)
    ensures Under(pointer, []) == pointer
  {
    EmptyPointer();
  }

  lemma ObjectIsBlamed(numbers: Numbers, root: Json, o: map<string, Json>, i: Json, n: nat, b: Blame)
    requires n > 0 && forall s, x, p :: b(s, x, p) <==> Blames(numbers, root, s, x, p, n - 1)
    ensures forall path :: Places(numbers, root, o, i, b)(path) ==> Blames(numbers, root, Object(o), i, path, n)
  {
    hide SubtaskAt, FailsHere, FailsAtMember;
    var own: Blame := (s, x, p) => Blames(numbers, root, s, x, p, n - 1);
    forall path | ObjectBlames(numbers, root, o, i, path, b) ensures ObjectBlames(numbers, root, o, i, path, own) {
      if s, x, step :| SubtaskAt(root, o, i, s, x, step) && step <= path && b(s, x, path[|step|..]) {
        assert own(s, x, path[|step|..]);
      }
    }
  }

  lemma BlamedTask(errors: seq<string>, t: Task, b: Blame)
    requires forall e | e in errors :: exists path :: e == Under(t.pointer, path) && b(t.schema, t.instance, path)
    ensures TaskBlamed(errors, t, b)
  {
    hide Under;
    var at: Path -> bool := path => b(t.schema, t.instance, path);
    forall e | e in errors ensures exists path :: e == Under(t.pointer, path) && at(path) {
      var path :| e == Under(t.pointer, path) && b(t.schema, t.instance, path);
      assert at(path);
    }
  }

  lemma {:induction false} EachBlamed(numbers: Numbers, root: Json, tasks: seq<Task>, depth: nat, b: Blame)
    requires forall s, x, p :: b(s, x, p) <==> Blames(numbers, root, s, x, p, Left(depth))
    ensures
      var out := EvalEach(numbers, root, tasks, depth);
      out.Ok? ==> |out.value| == |tasks| && forall k | 0 <= k < |tasks| :: TaskBlamed(out.value[k], tasks[k], b)
    decreases Remaining(depth), 1, |tasks|
  {
    hide Eval, Blames, Under, TaskBlamed;
    if tasks != [] {
      var t := tasks[0];
      EachBlamed(numbers, root, tasks[1..], depth, b);
      ErrorsAreBlamed(numbers, root, t.schema, t.instance, t.pointer, depth);
      var first := Eval(numbers, root, t.schema, t.instance, t.pointer, depth);
      if first.Ok? {
        forall e | e in first.value
          ensures exists path :: e == Under(t.pointer, path) && b(t.schema, t.instance, path)
        {
          var path :| e == Under(t.pointer, path) && Blames(numbers, root, t.schema, t.instance, path, Left(depth));
          assert b(t.schema, t.instance, path);
        }
        BlamedTask(first.value, t, b);
        var out, rest := EvalEach(numbers, root, tasks, depth), EvalEach(numbers, root, tasks[1..], depth);
        if out.Ok? {
          assert out.value == [first.value] + rest.value;
          forall k | 0 <= k < |tasks| ensures TaskBlamed(out.value[k], tasks[k], b) {
            if k > 0 { assert out.value[k] == rest.value[k - 1] && tasks[k] == tasks[1..][k - 1]; }
          }
        }
      }
    }
  }
}
