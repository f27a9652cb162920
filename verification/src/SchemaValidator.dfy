/** The evaluator's loops (xtask/src/fixtures.rs:3263-3693), each proved to append what `SchemaEval` says. */
module SchemaValidator {
  import opened Prelude
  import opened StringOrder
  import opened Json
  import opened JsonPointer
  import opened SchemaEval

  lemma ThenAssociates(a: Errors, b: Errors, c: Errors)
    ensures Then(Then(a, b), c) == Then(a, Then(b, c))
  {
    if a.Ok? && b.Ok? && c.Ok? {
      assert (a.value + b.value) + c.value == a.value + (b.value + c.value);
    }
  }

  lemma NothingMore(errors: seq<string>)
    ensures Then(Ok(errors), Ok([])) == Ok(errors)
  {
    assert errors + [] == errors;
  }

  lemma FlatCons(first: Errors, rest: Outcomes)
    ensures Flat(Cons(first, rest)) == Then(first, Flat(rest))
  {
    if first.Ok? && rest.Ok? {
      assert ([first.value] + rest.value)[1..] == rest.value;
    }
  }

  /** The errors of a list of tasks are those of the first followed by those of the rest. */
  lemma EachCons(numbers: Numbers, root: Json, t: Task, rest: seq<Task>, depth: nat)
    ensures EvalEach(numbers, root, [t] + rest, depth)
      == Cons(Eval(numbers, root, t.schema, t.instance, t.pointer, depth), EvalEach(numbers, root, rest, depth))
    ensures Flat(EvalEach(numbers, root, [t] + rest, depth))
      == Then(Eval(numbers, root, t.schema, t.instance, t.pointer, depth), Flat(EvalEach(numbers, root, rest, depth)))
  {
    hide Eval, Flat, Then;
    assert ([t] + rest)[1..] == rest;
    FlatCons(Eval(numbers, root, t.schema, t.instance, t.pointer, depth), EvalEach(numbers, root, rest, depth));
  }

  lemma EachOne(numbers: Numbers, root: Json, t: Task, depth: nat)
    ensures Flat(EvalEach(numbers, root, [t], depth)) == Eval(numbers, root, t.schema, t.instance, t.pointer, depth)
  {
    hide Eval;
    EachCons(numbers, root, t, [], depth);
    assert [t] + [] == [t];
    var e := Eval(numbers, root, t.schema, t.instance, t.pointer, depth);
    if e.Ok? { NothingMore(e.value); }
  }

  /** The error list once the given tasks have been evaluated too. */
  ghost function Left(numbers: Numbers, root: Json, e: seq<string>, tasks: seq<Task>, depth: nat): Errors {
    Append(e, Flat(EvalEach(numbers, root, tasks, depth)))
  }

  /** One task done: what is left to append, or the refusal of the whole. */
  lemma LeftStep(numbers: Numbers, root: Json, e: seq<string>, t: Task, rest: seq<Task>, depth: nat)
    ensures
      var now := Append(e, Eval(numbers, root, t.schema, t.instance, t.pointer, depth));
      if now.Err? then Left(numbers, root, e, [t] + rest, depth) == now
      else Left(numbers, root, e, [t] + rest, depth) == Left(numbers, root, now.value, rest, depth)
  {
    hide Eval, EvalEach, Flat;
    EachCons(numbers, root, t, rest, depth);
    ThenAssociates(Ok(e), Eval(numbers, root, t.schema, t.instance, t.pointer, depth),
      Flat(EvalEach(numbers, root, rest, depth)));
  }

  lemma LeftFrom(numbers: Numbers, root: Json, e: seq<string>, tasks: seq<Task>, k: nat, depth: nat)
    requires k < |tasks|
    ensures
      var now := Append(e, Eval(numbers, root, tasks[k].schema, tasks[k].instance, tasks[k].pointer, depth));
      if now.Err? then Left(numbers, root, e, tasks[k..], depth) == now
      else Left(numbers, root, e, tasks[k..], depth) == Left(numbers, root, now.value, tasks[k + 1..], depth)
  {
    hide Left, Eval;
    assert tasks[k..] == [tasks[k]] + tasks[k + 1..];
    LeftStep(numbers, root, e, tasks[k], tasks[k + 1..], depth);
  }

  lemma LeftDone(numbers: Numbers, root: Json, e: seq<string>, depth: nat)
    ensures Left(numbers, root, e, [], depth) == Ok(e)
  {
    NothingMore(e);
  }

  lemma Refuses(a: Errors, b: Errors)
    ensures a.Err? ==> a == Err(InvalidSnapshot)
    ensures a.Err? || b.Err? ==> Then(a, b) == Err(InvalidSnapshot)
  {
    if a.Err? { assert a.error.InvalidSnapshot?; }
    if b.Err? { assert b.error.InvalidSnapshot?; }
  }

  method ValidateJsonSchema(numbers: Numbers, root: Json, schema: Json, instance: Json, pointer: string,
                            errors: seq<string>, depth: nat)
    returns (r: Errors)
    ensures r == Append(errors, Eval(numbers, root, schema, instance, pointer, depth))
    decreases Remaining(depth), 5
  {
    hide Audited, SchemaErrors;
    if depth > MAX_DEPTH {
      return Err(InvalidSnapshot);
    }
    match schema
    case Bool(b) =>
      if b { NothingMore(errors); }
      r := Ok(if b then errors else errors + [pointer]);
    case Object(o) =>
      if !Audited(o) {
        return Err(InvalidSnapshot);
      }
      r := ValidateKeywords(numbers, root, o, instance, pointer, errors, depth);
    case _ =>
      r := Err(InvalidSnapshot);
  }

  method ValidateKeywords(numbers: Numbers, root: Json, o: map<string, Json>, instance: Json, pointer: string,
                          errors: seq<string>, depth: nat)
    returns (r: Errors)
    requires depth <= MAX_DEPTH
    ensures r == Append(errors, SchemaErrors(numbers, root, o, instance, pointer, Nested(numbers, root, depth)))
    decreases Remaining(depth), 4
  {
    hide RefErrors, CombinatorErrors, TypeErrors, EnumConstErrors, ObjectErrors, ArrayErrors, StringErrors,
      NumberErrors, Nested;
    ghost var run := Nested(numbers, root, depth);
    ghost var x0, x1 := RefErrors(root, o, instance, pointer, run), CombinatorErrors(o, instance, pointer, run);
    var x2, x3 := TypeErrors(numbers, o, instance, pointer), EnumConstErrors(o, instance, pointer);
    ghost var x4, x5 := ObjectErrors(o, instance, pointer, run), ArrayErrors(o, instance, pointer, run);
    var x6, x7 := StringErrors(o, instance, pointer), NumberErrors(numbers, o, instance, pointer);
    ChainOfEight(Ok(errors), x0, x1, x2, x3, x4, x5, x6, x7);
    var e := errors;
    e :- ValidateReference(numbers, root, o, instance, pointer, e, depth);
    e :- ValidateCombinators(numbers, root, o, instance, pointer, e, depth);
    e :- Append(e, x2);
    e :- Append(e, x3);
    e :- ValidateObject(numbers, root, o, instance, pointer, e, depth);
    e :- ValidateArray(numbers, root, o, instance, pointer, e, depth);
    e :- Append(e, x6);
    e :- Append(e, x7);
    r := Ok(e);
  }

  lemma ChainOfEight(a: Errors, x0: Errors, x1: Errors, x2: Errors, x3: Errors, x4: Errors, x5: Errors, x6: Errors,
                     x7: Errors)
    ensures Then(Then(Then(Then(Then(Then(Then(Then(a, x0), x1), x2), x3), x4), x5), x6), x7)
      == Then(a, Then(Then(Then(Then(Then(Then(Then(x0, x1), x2), x3), x4), x5), x6), x7))
  {
    hide Then;
    var s1 := Then(x0, x1);
    var s2 := Then(s1, x2);
    var s3 := Then(s2, x3);
    var s4 := Then(s3, x4);
    var s5 := Then(s4, x5);
    var s6 := Then(s5, x6);
    ThenAssociates(a, x0, x1);
    ThenAssociates(a, s1, x2);
    ThenAssociates(a, s2, x3);
    ThenAssociates(a, s3, x4);
    ThenAssociates(a, s4, x5);
    ThenAssociates(a, s5, x6);
    ThenAssociates(a, s6, x7);
  }

  lemma ChainOfFour(a: Errors, x0: Errors, x1: Errors, x2: Errors, x3: Errors)
    ensures Then(Then(Then(Then(a, x0), x1), x2), x3) == Then(a, Then(Then(Then(x0, x1), x2), x3))
  {
    hide Then;
    ThenAssociates(a, x0, x1);
    ThenAssociates(a, Then(x0, x1), x2);
    ThenAssociates(a, Then(Then(x0, x1), x2), x3);
  }

  method ValidateReference(numbers: Numbers, root: Json, o: map<string, Json>, instance: Json, pointer: string,
                           errors: seq<string>, depth: nat)
    returns (r: Errors)
    requires depth <= MAX_DEPTH
    ensures r == Append(errors, RefErrors(root, o, instance, pointer, Nested(numbers, root, depth)))
    decreases Remaining(depth), 0
  {
    hide ResolveLocal, Eval;
    NothingMore(errors);
    r := Ok(errors);
    if "$ref" in o && o["$ref"].String? {
      var target := ResolveLocal(root, o["$ref"].text);
      if target.None? {
        return Err(InvalidSnapshot);
      }
      EachOne(numbers, root, Task(target.value, instance, pointer), depth + 1);
      r := ValidateJsonSchema(numbers, root, target.value, instance, pointer, errors, depth + 1);
    }
  }

  // ------------------------------------------------------------------ combinators

  method ValidateCombinators(numbers: Numbers, root: Json, o: map<string, Json>, instance: Json, pointer: string,
                             errors: seq<string>, depth: nat)
    returns (r: Errors)
    requires depth <= MAX_DEPTH
    ensures r == Append(errors, CombinatorErrors(o, instance, pointer, Nested(numbers, root, depth)))
    decreases Remaining(depth), 2
  {
    hide AllOfErrors, AlternativeErrors, NotErrors, Nested;
    ghost var run := Nested(numbers, root, depth);
    ChainOfFour(Ok(errors), AllOfErrors(o, instance, pointer, run),
      AlternativeErrors("anyOf", false, o, instance, pointer, run),
      AlternativeErrors("oneOf", true, o, instance, pointer, run), NotErrors(o, instance, pointer, run));
    var e := errors;
    e :- ValidateAllOf(numbers, root, o, instance, pointer, e, depth);
    e :- ValidateAlternatives(numbers, root, "anyOf", o, instance, pointer, e, depth, false);
    e :- ValidateAlternatives(numbers, root, "oneOf", o, instance, pointer, e, depth, true);
    e :- ValidateNot(numbers, root, o, instance, pointer, e, depth);
    r := Ok(e);
  }

  method ValidateAllOf(numbers: Numbers, root: Json, o: map<string, Json>, instance: Json, pointer: string,
                       errors: seq<string>, depth: nat)
    returns (r: Errors)
    requires depth <= MAX_DEPTH
    ensures r == Append(errors, AllOfErrors(o, instance, pointer, Nested(numbers, root, depth)))
    decreases Remaining(depth), 0
  {
    hide Eval, EvalEach, Flat, Left;
    NothingMore(errors);
    if "allOf" !in o {
      return Ok(errors);
    }
    if !o["allOf"].Array? {
      return Err(InvalidSnapshot);
    }
    var children := o["allOf"].items;
    ghost var tasks := SameInstance(children, instance, pointer);
    LeftIs(numbers, root, errors, tasks, depth);
    var e := errors;
    assert tasks[0..] == tasks;
    for k := 0 to |children|
      invariant Left(numbers, root, errors, tasks, depth + 1) == Left(numbers, root, e, tasks[k..], depth + 1)
    {
      LeftFrom(numbers, root, e, tasks, k, depth + 1);
      e :- ValidateJsonSchema(numbers, root, children[k], instance, pointer, e, depth + 1);
    }
    assert tasks[|tasks|..] == [];
    LeftDone(numbers, root, e, depth + 1);
    r := Ok(e);
  }

  lemma LeftIs(numbers: Numbers, root: Json, e: seq<string>, tasks: seq<Task>, depth: nat)
    requires depth <= MAX_DEPTH
    ensures Left(numbers, root, e, tasks, depth + 1) == Append(e, Flat(Nested(numbers, root, depth)(tasks)))
  {
    hide EvalEach;
  }

  method ValidateAlternatives(numbers: Numbers, root: Json, key: string, o: map<string, Json>, instance: Json,
                              pointer: string, errors: seq<string>, depth: nat, exactlyOne: bool)
    returns (r: Errors)
    requires depth <= MAX_DEPTH
    ensures r == Append(errors, AlternativeErrors(key, exactlyOne, o, instance, pointer, Nested(numbers, root, depth)))
    decreases Remaining(depth), 0
  {
    hide Eval, EvalEach, Prepend;
    NothingMore(errors);
    if key !in o {
      return Ok(errors);
    }
    if !o[key].Array? {
      return Err(InvalidSnapshot);
    }
    var alternatives := o[key].items;
    ghost var tasks := SameInstance(alternatives, instance, pointer);
    ghost var done: seq<seq<string>> := [];
    var successful, best: Option<seq<string>> := 0, None;
    assert tasks[0..] == tasks;
    PrependNothing([], EvalEach(numbers, root, tasks, depth + 1));
    for k := 0 to |alternatives|
      invariant EvalEach(numbers, root, tasks, depth + 1) ==
        Prepend(done, EvalEach(numbers, root, tasks[k..], depth + 1))
      invariant successful == Successes(done) && best == Best(done)
    {
      assert tasks[k..] == [tasks[k]] + tasks[k + 1..];
      EachCons(numbers, root, tasks[k], tasks[k + 1..], depth + 1);
      Alone(Eval(numbers, root, alternatives[k], instance, pointer, depth + 1));
      PrependFails(done, EvalEach(numbers, root, tasks[k..], depth + 1));
      var candidate :- ValidateJsonSchema(numbers, root, alternatives[k], instance, pointer, [], depth + 1);
      PrependCons(done, candidate, EvalEach(numbers, root, tasks[k + 1..], depth + 1));
      if candidate == [] {
        successful := successful + 1;
      } else if best.None? || |candidate| < |best.value| {
        best := Some(candidate);
      }
      assert (done + [candidate])[..|done|] == done;
      done := done + [candidate];
    }
    assert tasks[|tasks|..] == [];
    NoOutcomes(numbers, root, depth + 1);
    PrependNothing<seq<string>, Refusal>(done, Ok([]));
    var valid := if exactlyOne then successful == 1 else successful >= 1;
    if valid {
      r := Ok(errors);
    } else if successful > 1 {
      r := Ok(errors + [pointer]);
    } else if best.Some? {
      r := Ok(errors + best.value);
    } else {
      r := Ok(errors + [pointer]);
    }
  }

  /** Starting from an empty list, exactly the new errors are collected. */
  lemma Alone(e: Errors)
    ensures Append([], e) == e
  {
    if e.Ok? { assert [] + e.value == e.value; }
  }

  lemma PrependCons(done: seq<seq<string>>, candidate: seq<string>, rest: Outcomes)
    ensures Prepend(done, Cons(Ok(candidate), rest)) == Prepend(done + [candidate], rest)
  {
    if rest.Ok? { assert done + ([candidate] + rest.value) == (done + [candidate]) + rest.value; }
  }

  lemma NoOutcomes(numbers: Numbers, root: Json, depth: nat)
    ensures EvalEach(numbers, root, [], depth) == Ok([])
  {
  }

  method ValidateNot(numbers: Numbers, root: Json, o: map<string, Json>, instance: Json, pointer: string,
                     errors: seq<string>, depth: nat)
    returns (r: Errors)
    requires depth <= MAX_DEPTH
    ensures r == Append(errors, NotErrors(o, instance, pointer, Nested(numbers, root, depth)))
    decreases Remaining(depth), 0
  {
    hide Eval;
    NothingMore(errors);
    r := Ok(errors);
    if "not" in o {
      EachOne(numbers, root, Task(o["not"], instance, pointer), depth + 1);
      var nested :- ValidateJsonSchema(numbers, root, o["not"], instance, pointer, [], depth + 1);
      if nested == [] {
        r := Ok(errors + [pointer]);
      }
    }
  }

  // ------------------------------------------------------------------ objects

  method ValidateObject(numbers: Numbers, root: Json, o: map<string, Json>, instance: Json, pointer: string,
                        errors: seq<string>, depth: nat)
    returns (r: Errors)
    requires depth <= MAX_DEPTH
    ensures r == Append(errors, ObjectErrors(o, instance, pointer, Nested(numbers, root, depth)))
    decreases Remaining(depth), 3
  {
    hide RequiredKeyErrors, PropertiesErrors, PatternPropertyErrors, AdditionalKeyErrors, Nested, ObjectAt;
    NothingMore(errors);
    if !instance.Object? {
      return Ok(errors);
    }
    var members := instance.members;
    var properties, patterns := ObjectAt(o, "properties"), ObjectAt(o, "patternProperties");
    if properties.None? || patterns.None? {
      return Err(InvalidSnapshot);
    }
    ghost var run := Nested(numbers, root, depth);
    ChainOfFour(Ok(errors), RequiredKeyErrors(o, members, pointer),
      PropertiesErrors(properties.value, members, pointer, run),
      PatternPropertyErrors(patterns.value, members, pointer, run),
      AdditionalKeyErrors(o, properties.value, patterns.value, members, pointer, run));
    var e := errors;
    e :- ValidateRequired(o, members, pointer, e);
    e :- ValidateProperties(numbers, root, properties.value, members, pointer, e, depth);
    e :- ValidatePatternProperties(numbers, root, patterns.value, members, pointer, e, depth);
    e :- ValidateAdditional(numbers, root, o, properties.value, patterns.value, members, pointer, e, depth);
    r := Ok(e);
  }

  method ValidateRequired(o: map<string, Json>, instance: map<string, Json>, pointer: string, errors: seq<string>)
    returns (r: Errors)
    ensures r == Append(errors, RequiredKeyErrors(o, instance, pointer))
  {
    NothingMore(errors);
    if "required" !in o {
      return Ok(errors);
    }
    if !o["required"].Array? {
      return Err(InvalidSnapshot);
    }
    var required := o["required"].items;
    var e := errors;
    assert required[0..] == required;
    for k := 0 to |required|
      invariant Then(Ok(errors), RequiredErrors(required, instance, pointer)) ==
        Then(Ok(e), RequiredErrors(required[k..], instance, pointer))
    {
      assert required[k..][1..] == required[k + 1..];
      if !required[k].String? {
        return Err(InvalidSnapshot);
      }
      ghost var now := ErrorIf(required[k].text !in instance, ChildPointer(pointer, required[k].text));
      ThenAssociates(Ok(e), now, RequiredErrors(required[k + 1..], instance, pointer));
      NothingMore(e);
      if required[k].text !in instance {
        e := e + [ChildPointer(pointer, required[k].text)];
      }
    }
    NothingMore(e);
    r := Ok(e);
  }

  lemma PropertyTasksFrom(properties: map<string, Json>, keys: seq<string>, k: nat, instance: map<string, Json>,
                          pointer: string)
    requires k < |keys| && forall i | 0 <= i < |keys| :: keys[i] in properties
    ensures
      var rest := PropertyTasks(properties, keys[k + 1..], instance, pointer);
      PropertyTasks(properties, keys[k..], instance, pointer)
        == if keys[k] in instance then [PropertyTask(properties[keys[k]], instance, keys[k], pointer)] + rest else rest
  {
    assert keys[k..][1..] == keys[k + 1..];
  }

  method ValidateProperties(numbers: Numbers, root: Json, properties: map<string, Json>, instance: map<string, Json>,
                            pointer: string, errors: seq<string>, depth: nat)
    returns (r: Errors)
    requires depth <= MAX_DEPTH
    ensures r == Append(errors, PropertiesErrors(properties, instance, pointer, Nested(numbers, root, depth)))
    decreases Remaining(depth), 0
  {
    hide Eval, Sorted, Left, PropertyTasks, Nested, Flat;
    var keys := Sorted(properties.Keys);
    assert forall i | 0 <= i < |keys| :: keys[i] in properties.Keys;
    ghost var tasks := PropertyTasks(properties, keys, instance, pointer);
    LeftIs(numbers, root, errors, tasks, depth);
    var e := errors;
    assert keys[0..] == keys;
    for k := 0 to |keys|
      invariant Left(numbers, root, errors, tasks, depth + 1) ==
        Left(numbers, root, e, PropertyTasks(properties, keys[k..], instance, pointer), depth + 1)
    {
      PropertyTasksFrom(properties, keys, k, instance, pointer);
      if keys[k] in instance {
        LeftStep(numbers, root, e, PropertyTask(properties[keys[k]], instance, keys[k], pointer),
          PropertyTasks(properties, keys[k + 1..], instance, pointer), depth + 1);
        e :- ValidateJsonSchema(numbers, root, properties[keys[k]], instance[keys[k]], ChildPointer(pointer, keys[k]),
          e, depth + 1);
      }
    }
    assert keys[|keys|..] == [];
    NoPropertyTasks(properties, instance, pointer);
    LeftDone(numbers, root, e, depth + 1);
    r := Ok(e);
  }

  lemma NoPropertyTasks(properties: map<string, Json>, instance: map<string, Json>, pointer: string)
    ensures PropertyTasks(properties, [], instance, pointer) == []
  {
  }

  lemma PatternTasksFrom(patterns: map<string, Json>, names: seq<string>, m: nat, keys: seq<string>,
                         instance: map<string, Json>, pointer: string)
    requires m < |names| && forall i | 0 <= i < |names| :: names[i] in patterns
    requires forall i | 0 <= i < |keys| :: keys[i] in instance
    ensures PatternTasks(patterns, names[m..], keys, instance, pointer)
      == MatchTasks(names[m], patterns[names[m]], keys, instance, pointer)
        + PatternTasks(patterns, names[m + 1..], keys, instance, pointer)
  {
    assert names[m..][1..] == names[m + 1..];
  }

  lemma NoPatternTasks(patterns: map<string, Json>, keys: seq<string>, instance: map<string, Json>, pointer: string)
    requires forall i | 0 <= i < |keys| :: keys[i] in instance
    ensures PatternTasks(patterns, [], keys, instance, pointer) == []
  {
  }

  method ValidatePatternProperties(numbers: Numbers, root: Json, patterns: map<string, Json>,
                                   instance: map<string, Json>, pointer: string, errors: seq<string>, depth: nat)
    returns (r: Errors)
    requires depth <= MAX_DEPTH
    ensures r == Append(errors, PatternPropertyErrors(patterns, instance, pointer, Nested(numbers, root, depth)))
    decreases Remaining(depth), 2
  {
    hide Flat, Left, Nested, Sorted, PatternTasks, PatternsUsable;
    var names, keys := Sorted(patterns.Keys), Sorted(instance.Keys);
    assert forall i | 0 <= i < |names| :: names[i] in patterns.Keys;
    assert forall i | 0 <= i < |keys| :: keys[i] in instance.Keys;
    UsableInOrder(patterns, instance, names, keys);
    LeftIs(numbers, root, errors, PatternTasks(patterns, names, keys, instance, pointer), depth);
    r := ValidatePatterns(numbers, root, patterns, names, keys, instance, pointer, errors, depth);
  }

  method ValidatePatterns(numbers: Numbers, root: Json, patterns: map<string, Json>, names: seq<string>,
                          keys: seq<string>,
                          instance: map<string, Json>, pointer: string, errors: seq<string>, depth: nat)
    returns (r: Errors)
    requires depth <= MAX_DEPTH
    requires forall i | 0 <= i < |names| :: names[i] in patterns
    requires forall i | 0 <= i < |keys| :: keys[i] in instance
    ensures r ==
      if keys == [] || forall i | 0 <= i < |names| :: PatternSupported(names[i])
      then Left(numbers, root, errors, PatternTasks(patterns, names, keys, instance, pointer), depth + 1)
      else Err(InvalidSnapshot)
    decreases Remaining(depth), 1
  {
    hide Left, MatchTasks, PatternTasks, PatternSupported;
    var e := errors;
    assert names[0..] == names;
    ghost var target := Left(numbers, root, errors, PatternTasks(patterns, names, keys, instance, pointer), depth + 1);
    for m := 0 to |names|
      invariant keys == [] || forall i | 0 <= i < m :: PatternSupported(names[i])
      invariant target == Left(numbers, root, e, PatternTasks(patterns, names[m..], keys, instance, pointer), depth + 1)
    {
      if keys != [] && !PatternSupported(names[m]) {
        return Err(InvalidSnapshot);
      }
      PatternTasksFrom(patterns, names, m, keys, instance, pointer);
      ghost var later := PatternTasks(patterns, names[m + 1..], keys, instance, pointer);
      Refuses(target, target);
      e :- ValidatePattern(numbers, root, names[m], patterns[names[m]], keys, instance, pointer, e, depth, later);
    }
    assert names[|names|..] == [];
    NoPatternTasks(patterns, keys, instance, pointer);
    LeftDone(numbers, root, e, depth + 1);
    r := Ok(e);
  }

  /** The patterns are usable exactly when the scan meets no unsupported one. */
  lemma UsableInOrder(patterns: map<string, Json>, instance: map<string, Json>, names: seq<string>, keys: seq<string>)
    requires names == Sorted(patterns.Keys) && keys == Sorted(instance.Keys)
    ensures PatternsUsable(patterns, instance) <==>
      keys == [] || forall i | 0 <= i < |names| :: PatternSupported(names[i])
  {
    hide Sorted, PatternSupported;
    assert keys == [] <==> instance.Keys == {} by { if keys != [] { assert keys[0] in instance.Keys; } }
    forall p ensures p in patterns <==> p in names { assert p in patterns <==> p in patterns.Keys; }
  }

  lemma MatchTasksFrom(pattern: string, schema: Json, keys: seq<string>, k: nat, instance: map<string, Json>,
                       pointer: string)
    requires k < |keys| && forall i | 0 <= i < |keys| :: keys[i] in instance
    ensures
      var rest := MatchTasks(pattern, schema, keys[k + 1..], instance, pointer);
      MatchTasks(pattern, schema, keys[k..], instance, pointer)
        == if PatternMatches(pattern, keys[k]) then [PropertyTask(schema, instance, keys[k], pointer)] + rest else rest
  {
    hide PatternMatches;
    assert keys[k..][1..] == keys[k + 1..];
  }

  lemma NoMatchTasks(pattern: string, schema: Json, instance: map<string, Json>, pointer: string)
    ensures MatchTasks(pattern, schema, [], instance, pointer) == []
  {
  }

  method ValidatePattern(numbers: Numbers, root: Json, pattern: string, schema: Json, keys: seq<string>,
                         instance: map<string, Json>,
                         pointer: string, errors: seq<string>, depth: nat, ghost later: seq<Task>)
    returns (r: Errors)
    requires depth <= MAX_DEPTH
    requires forall i | 0 <= i < |keys| :: keys[i] in instance
    ensures
      var whole := Left(numbers, root, errors, MatchTasks(pattern, schema, keys, instance, pointer) + later, depth + 1);
      if r.Err? then whole == r else whole == Left(numbers, root, r.value, later, depth + 1)
    decreases Remaining(depth), 0
  {
    hide Eval, Left, PatternMatches, MatchTasks;
    var e := errors;
    assert keys[0..] == keys;
    ghost var target := Left(numbers, root, errors, MatchTasks(pattern, schema, keys, instance, pointer) + later,
      depth + 1);
    for k := 0 to |keys|
      invariant target == Left(numbers, root, e, MatchTasks(pattern, schema, keys[k..], instance, pointer) + later,
        depth + 1)
    {
      MatchTasksFrom(pattern, schema, keys, k, instance, pointer);
      if PatternMatches(pattern, keys[k]) {
        ghost var rest := MatchTasks(pattern, schema, keys[k + 1..], instance, pointer);
        ghost var t := PropertyTask(schema, instance, keys[k], pointer);
        assert ([t] + rest) + later == [t] + (rest + later);
        LeftStep(numbers, root, e, t, rest + later, depth + 1);
        e :- ValidateJsonSchema(numbers, root, schema, instance[keys[k]], ChildPointer(pointer, keys[k]), e, depth + 1);
      }
    }
    assert keys[|keys|..] == [];
    NoMatchTasks(pattern, schema, instance, pointer);
    assert [] + later == later;
    r := Ok(e);
  }

  /** One undeclared property. */
  ghost function AdditionalAt(numbers: Numbers, root: Json, additional: Json, instance: Json, pointer: string,
                              depth: nat): Errors {
    match additional
    case Bool(allowed) => ErrorIf(!allowed, pointer)
    case Object(_) => Eval(numbers, root, additional, instance, pointer, depth)
    case _ => Err(InvalidSnapshot)
  }

  lemma AdditionalCons(numbers: Numbers, root: Json, additional: Json, key: string, rest: seq<string>,
                       instance: map<string, Json>, pointer: string, depth: nat)
    requires depth <= MAX_DEPTH && key in instance && forall i | 0 <= i < |rest| :: rest[i] in instance
    ensures AdditionalErrors(additional, [key] + rest, instance, pointer, Nested(numbers, root, depth))
      == Then(AdditionalAt(numbers, root, additional, instance[key], ChildPointer(pointer, key), depth + 1),
              AdditionalErrors(additional, rest, instance, pointer, Nested(numbers, root, depth)))
  {
    hide Eval, EvalEach, Flat;
    var run := Nested(numbers, root, depth);
    assert ([key] + rest)[1..] == rest;
    if additional.Object? {
      var t, tasks := PropertyTask(additional, instance, key, pointer), ChildTasks(additional, rest, instance, pointer);
      EachCons(numbers, root, t, tasks, depth + 1);
      NoTasks(numbers, root, depth + 1);
      assert ChildTasks(additional, [key] + rest, instance, pointer) == [t] + tasks;
      assert AdditionalErrors(additional, rest, instance, pointer, run) ==
        Flat(EvalEach(numbers, root, tasks, depth + 1));
    } else if additional.Bool? {
      assert ChildPointers([key] + rest, pointer) == [ChildPointer(pointer, key)] + ChildPointers(rest, pointer);
      NothingMore([]);
      assert AdditionalErrors(additional, rest, instance, pointer, run) ==
        Ok(if additional.b then [] else ChildPointers(rest, pointer));
    }
  }

  lemma NoTasks(numbers: Numbers, root: Json, depth: nat)
    ensures Flat(EvalEach(numbers, root, [], depth)) == Ok([])
  {
  }

  /** The additional errors of the undeclared properties among `keys`. */
  ghost function UndeclaredErrors(additional: Json, properties: map<string, Json>, patterns: map<string, Json>,
                                  keys: seq<string>, instance: map<string, Json>, pointer: string, run: Runner): Errors
    requires forall k :: k in keys ==> k in instance
  {
    AdditionalErrors(additional, UndeclaredKeys(properties, patterns, keys), instance, pointer, run)
  }

  lemma UndeclaredFrom(numbers: Numbers, root: Json, additional: Json, properties: map<string, Json>,
                       patterns: map<string, Json>,
                       keys: seq<string>, k: nat, instance: map<string, Json>, pointer: string, depth: nat)
    requires depth <= MAX_DEPTH && k < |keys| && forall x :: x in keys ==> x in instance
    ensures
      var run := Nested(numbers, root, depth);
      var rest := UndeclaredErrors(additional, properties, patterns, keys[k + 1..], instance, pointer, run);
      UndeclaredErrors(additional, properties, patterns, keys[k..], instance, pointer, run)
        == if Undeclared(properties, patterns, keys[k])
           then Then(AdditionalAt(numbers, root, additional, instance[keys[k]], ChildPointer(pointer, keys[k]),
             depth + 1), rest)
           else rest
  {
    hide Undeclared, AdditionalErrors, AdditionalAt, Nested, Then;
    assert keys[k..][1..] == keys[k + 1..];
    if Undeclared(properties, patterns, keys[k]) {
      var rest := UndeclaredKeys(properties, patterns, keys[k + 1..]);
      forall i | 0 <= i < |rest| ensures rest[i] in instance { assert rest[i] in keys[k + 1..]; }
      AdditionalCons(numbers, root, additional, keys[k], rest, instance, pointer, depth);
    }
  }

  lemma NoUndeclared(additional: Json, properties: map<string, Json>, patterns: map<string, Json>,
                     instance: map<string, Json>, pointer: string, run: Runner)
    ensures UndeclaredErrors(additional, properties, patterns, [], instance, pointer, run) == Ok([])
  {
  }

  method ValidateUndeclared(numbers: Numbers, root: Json, additional: Json, instance: Json, pointer: string,
                            errors: seq<string>, depth: nat)
    returns (r: Errors)
    requires depth <= MAX_DEPTH
    ensures r == Append(errors, AdditionalAt(numbers, root, additional, instance, pointer, depth + 1))
    decreases Remaining(depth), 0
  {
    hide Eval;
    NothingMore(errors);
    match additional
    case Bool(allowed) =>
      r := Ok(if allowed then errors else errors + [pointer]);
    case Object(_) =>
      r := ValidateJsonSchema(numbers, root, additional, instance, pointer, errors, depth + 1);
    case _ =>
      r := Err(InvalidSnapshot);
  }

  method ValidateAdditional(numbers: Numbers, root: Json, o: map<string, Json>, properties: map<string, Json>,
                            patterns: map<string, Json>,
                            instance: map<string, Json>, pointer: string, errors: seq<string>, depth: nat)
    returns (r: Errors)
    requires depth <= MAX_DEPTH
    ensures r == Append(errors, AdditionalKeyErrors(o, properties, patterns, instance, pointer,
      Nested(numbers, root, depth)))
    decreases Remaining(depth), 1
  {
    hide Nested, Sorted, Undeclared, AdditionalErrors, AdditionalAt;
    NothingMore(errors);
    if "additionalProperties" !in o {
      return Ok(errors);
    }
    var additional := o["additionalProperties"];
    var all := Sorted(instance.Keys);
    assert forall k :: k in all ==> k in instance.Keys;
    ghost var run := Nested(numbers, root, depth);
    var e := errors;
    assert all[0..] == all;
    ghost var target := Append(errors, UndeclaredErrors(additional, properties, patterns, all, instance, pointer, run));
    assert target == Append(errors, AdditionalKeyErrors(o, properties, patterns, instance, pointer, run));
    for k := 0 to |all|
      invariant target == Append(e, UndeclaredErrors(additional, properties, patterns, all[k..], instance, pointer,
        run))
    {
      UndeclaredFrom(numbers, root, additional, properties, patterns, all, k, instance, pointer, depth);
      if Undeclared(properties, patterns, all[k]) {
        assert all[k] in instance.Keys;
        ghost var now := AdditionalAt(numbers, root, additional, instance[all[k]], ChildPointer(pointer, all[k]),
          depth + 1);
        ThenAssociates(Ok(e), now, UndeclaredErrors(additional, properties, patterns, all[k + 1..], instance, pointer,
          run));
        e :- ValidateUndeclared(numbers, root, additional, instance[all[k]], ChildPointer(pointer, all[k]), e, depth);
      }
    }
    assert all[|all|..] == [];
    NoUndeclared(additional, properties, patterns, instance, pointer, run);
    NothingMore(e);
    r := Ok(e);
  }

  // ------------------------------------------------------------------ arrays

  method ValidateArray(numbers: Numbers, root: Json, o: map<string, Json>, instance: Json, pointer: string,
                       errors: seq<string>, depth: nat)
    returns (r: Errors)
    requires depth <= MAX_DEPTH
    ensures r == Append(errors, ArrayErrors(o, instance, pointer, Nested(numbers, root, depth)))
    decreases Remaining(depth), 2
  {
    hide BoundErrors, ItemsErrors, Eval, EvalEach, Flat, ArrayAt;
    NothingMore(errors);
    if !instance.Array? {
      return Ok(errors);
    }
    var items := instance.items;
    var prefix := ArrayAt(o, "prefixItems");
    var least, greatest := BoundErrors(o, "minItems", |items|, false, pointer),
      BoundErrors(o, "maxItems", |items|, true, pointer);
    if prefix.None? {
      Refuses(Then(least, greatest), Err(InvalidSnapshot));
      return Err(InvalidSnapshot);
    }
    ghost var run := Nested(numbers, root, depth);
    ChainOfFour(Ok(errors), least, greatest, Flat(run(PrefixTasks(prefix.value, items, pointer))),
      ItemsErrors(o, |prefix.value|, items, pointer, run));
    var e := errors;
    e :- Append(e, least);
    e :- Append(e, greatest);
    e :- ValidatePrefixItems(numbers, root, prefix.value, items, pointer, e, depth);
    e :- ValidateItems(numbers, root, o, |prefix.value|, items, pointer, e, depth);
    r := Ok(e);
  }

  method ValidatePrefixItems(numbers: Numbers, root: Json, schemas: seq<Json>, items: seq<Json>, pointer: string,
                             errors: seq<string>, depth: nat)
    returns (r: Errors)
    requires depth <= MAX_DEPTH
    ensures r == Append(errors, Flat(Nested(numbers, root, depth)(PrefixTasks(schemas, items, pointer))))
    decreases Remaining(depth), 0
  {
    hide Eval, Left, Flat, Nested;
    ghost var tasks := PrefixTasks(schemas, items, pointer);
    LeftIs(numbers, root, errors, tasks, depth);
    var e := errors;
    assert tasks[0..] == tasks;
    for k := 0 to |schemas|
      invariant Left(numbers, root, errors, tasks, depth + 1) ==
        Left(numbers, root, e, if k < |tasks| then tasks[k..] else [], depth + 1)
    {
      if k < |items| {
        LeftFrom(numbers, root, e, tasks, k, depth + 1);
        assert tasks[k] == ItemTask(schemas[k], items, k, pointer);
        assert k + 1 == |tasks| ==> tasks[k + 1..] == [];
        e :- ValidateJsonSchema(numbers, root, schemas[k], items[k], ChildPointer(pointer, NatText(k)), e, depth + 1);
      }
    }
    LeftDone(numbers, root, e, depth + 1);
    r := Ok(e);
  }

  method ValidateItems(numbers: Numbers, root: Json, o: map<string, Json>, from: nat, items: seq<Json>, pointer: string,
                       errors: seq<string>, depth: nat)
    returns (r: Errors)
    requires depth <= MAX_DEPTH
    ensures r == Append(errors, ItemsErrors(o, from, items, pointer, Nested(numbers, root, depth)))
    decreases Remaining(depth), 0
  {
    hide Eval, Left, Flat, Nested;
    NothingMore(errors);
    if "items" !in o {
      return Ok(errors);
    }
    ghost var tasks := RestTasks(o["items"], from, items, pointer);
    LeftIs(numbers, root, errors, tasks, depth);
    var e := errors;
    var k := from;
    assert tasks[0..] == tasks;
    while k < |items|
      invariant from <= k && k - from <= |tasks| && (k < |items| || k - from == |tasks|)
      invariant Left(numbers, root, errors, tasks, depth + 1) == Left(numbers, root, e, tasks[k - from..], depth + 1)
    {
      LeftFrom(numbers, root, e, tasks, k - from, depth + 1);
      assert tasks[k - from] == ItemTask(o["items"], items, k, pointer);
      e :- ValidateJsonSchema(numbers, root, o["items"], items[k], ChildPointer(pointer, NatText(k)), e, depth + 1);
      k := k + 1;
    }
    assert tasks[|tasks|..] == [];
    LeftDone(numbers, root, e, depth + 1);
    r := Ok(e);
  }
}
