/**
 When the evaluator answers at all (xtask/src/fixtures.rs:3263-3390). It refuses as a whole as soon as
 anything it visits is not understood, so it answers exactly if every subschema that applies to a part of
 the instance is understood, to a depth of 257 schemas one inside the other.
 */
module SchemaAnswers {
  import opened Prelude
  import opened StringOrder
  import opened Json
  import opened JsonPointer
  import opened SchemaEval
  import opened SchemaMeaning

  // ------------------------------------------------------------------ what is understood

  const VOCABULARY: set<string> :=
    {"$schema", "$id", "$comment", "$ref", "$defs", "definitions", "components", "title", "description", "default",
     "examples", "discriminator", "deprecated", "readOnly", "writeOnly", "contentMediaType", "contentSchema",
     "allOf", "anyOf", "oneOf", "not", "type", "enum", "const", "minimum", "maximum", "exclusiveMinimum",
     "minLength", "maxLength", "pattern", "format", "minItems", "maxItems", "items", "prefixItems",
     "required", "properties", "patternProperties", "additionalProperties"}

  const PATTERNS: set<string> :=
    {COLOR_PATTERN, "^evt_", "^ses", "^msg_", "^msg", "^prt", "^que", "^per", "^pty", "^wrk"}

  const FORMATS: set<string> := {"int32", "int64", "uint", "uint16", "uint32", "uint64", "double", "binary"}

  const LISTS: set<string> := {"allOf", "anyOf", "oneOf"}

  const LIMITS: set<string> := {"minimum", "maximum", "exclusiveMinimum"}

  ghost predicate TypeName(j: Json) { j.String? && (j.text in PRIMITIVE_TYPES || j.text == "integer") }

  /** Holds of every schema object that is visited, whatever the instance. */
  ghost predicate Understandable(root: Json, o: map<string, Json>) {
    && (forall k | k in o :: k in VOCABULARY || exists rest :: k == "x-" + rest)
    && ("$ref" in o && o["$ref"].String? ==> ResolveLocal(root, o["$ref"].text).Some?)
    && (forall k | k in LISTS && k in o :: o[k].Array?)
    && ("type" in o ==>
          || TypeName(o["type"])
          || (o["type"].Array? && forall n | 0 <= n < |o["type"].items| :: TypeName(o["type"].items[n])))
    && ("pattern" in o && o["pattern"].String? ==> o["pattern"].text in PATTERNS)
    && ("patternProperties" in o ==> o["patternProperties"].Object? && o["patternProperties"].members.Keys <= PATTERNS)
    && ("format" in o && o["format"].String? ==> o["format"].text in FORMATS)
  }

  /** A count: an unsigned integer of 64 bits. */
  ghost predicate CountAt(o: map<string, Json>, key: string) {
    key in o ==> o[key].Number? && UnsignedBelow(o[key].token, 0x1_0000_0000_0000_0000)
  }

  ghost predicate ObjectApplies(o: map<string, Json>, m: map<string, Json>) {
    && ("properties" in o ==> o["properties"].Object?)
    && ("required" in o ==>
          o["required"].Array? && forall n | 0 <= n < |o["required"].items| :: o["required"].items[n].String?)
    && ("additionalProperties" in o && (exists p | p in m :: !Declared(o, p)) ==>
          o["additionalProperties"].Bool? || o["additionalProperties"].Object?)
  }

  /** The keywords for instances of this kind have values of the right kind. */
  ghost predicate Applies(o: map<string, Json>, i: Json) {
    match i
    case String(_) => CountAt(o, "minLength") && CountAt(o, "maxLength") && ("pattern" in o ==> o["pattern"].String?)
    case Number(_) => (forall k | k in LIMITS && k in o :: o[k].Number?) && ("format" in o ==> o["format"].String?)
    case Array(_) => CountAt(o, "minItems") && CountAt(o, "maxItems")
      && ("prefixItems" in o ==> o["prefixItems"].Array?)
    case Object(m) => ObjectApplies(o, m)
    case _ => true
  }

  // ------------------------------------------------------------------ what is visited

  ghost predicate MemberTask(o: map<string, Json>, m: map<string, Json>, s: Json, p: string)
    requires p in m
  {
    || ("properties" in o && o["properties"].Object? && p in o["properties"].members && s == o["properties"].members[p])
    || ("patternProperties" in o && o["patternProperties"].Object?
        && exists q | q in o["patternProperties"].members ::
             PatternAccepts(q, p) && s == o["patternProperties"].members[q])
    || ("additionalProperties" in o && o["additionalProperties"].Object? && !Declared(o, p)
        && s == o["additionalProperties"])
  }

  ghost function Prefix(o: map<string, Json>): seq<Json> {
    if "prefixItems" in o && o["prefixItems"].Array? then o["prefixItems"].items else []
  }

  ghost predicate ElementTask(o: map<string, Json>, s: Json, k: nat) {
    if k < |Prefix(o)| then s == Prefix(o)[k] else "items" in o && s == o["items"]
  }

  /** The subschema `s` applies to the part `x` of the instance. */
  ghost predicate Subtask(root: Json, o: map<string, Json>, i: Json, s: Json, x: Json) {
    || (x == i && "$ref" in o && o["$ref"].String? && ResolveLocal(root, o["$ref"].text) == Some(s))
    || (x == i && exists k | k in LISTS && k in o :: o[k].Array? && s in o[k].items)
    || (x == i && "not" in o && s == o["not"])
    || (i.Object? && exists p | p in i.members :: x == i.members[p] && MemberTask(o, i.members, s, p))
    || (i.Array? && exists k: nat | k < |i.items| :: x == i.items[k] && ElementTask(o, s, k))
  }

  /** Understood, with at most `n` schemas one inside the other. */
  ghost predicate Understood(root: Json, schema: Json, i: Json, n: nat)
    decreases n
  {
    n > 0 &&
    match schema
    case Bool(_) => true
    case Object(o) =>
      && Understandable(root, o) && Applies(o, i)
      && forall s, x | Subtask(root, o, i, s, x) :: Understood(root, s, x, n - 1)
    case _ => false
  }

  // ------------------------------------------------------------------ keyword by keyword

  /** The tasks are answered exactly if each of them is good. */
  ghost predicate AnswersOn(run: Runner, good: Opinion) {
    forall tasks :: run(tasks).Ok? <==> AllTasks(tasks, good)
  }

  lemma TablesAgree(key: string)
    ensures SupportedKey(key) <==> key in VOCABULARY || exists rest :: key == "x-" + rest
    ensures PatternSupported(key) <==> key in PATTERNS
    ensures FormatSupported(key) <==> key in FORMATS
    ensures KnownType(key) <==> key in PRIMITIVE_TYPES || key == "integer"
  {
    if |key| >= 2 && key[..2] == "x-" { assert key == "x-" + key[2..]; }
    if rest :| key == "x-" + rest { assert key[..2] == "x-"; }
  }

  lemma AuditMeans(o: map<string, Json>)
    ensures Audited(o) <==>
      && (forall k | k in o :: k in VOCABULARY || exists rest :: k == "x-" + rest)
      && ("pattern" in o && o["pattern"].String? ==> o["pattern"].text in PATTERNS)
      && ("patternProperties" in o ==>
            o["patternProperties"].Object? && o["patternProperties"].members.Keys <= PATTERNS)
      && ("format" in o && o["format"].String? ==> o["format"].text in FORMATS)
  {
    hide SupportedKey, PatternSupported, FormatSupported;
    forall k ensures SupportedKey(k) <==> k in VOCABULARY || exists rest :: k == "x-" + rest { TablesAgree(k); }
    forall k ensures PatternSupported(k) <==> k in PATTERNS { TablesAgree(k); }
    forall k ensures FormatSupported(k) <==> k in FORMATS { TablesAgree(k); }
  }

  lemma TypeAnswers(numbers: Numbers, o: map<string, Json>, i: Json, pointer: string)
    ensures TypeErrors(numbers, o, i, pointer).Ok? <==>
      ("type" in o ==>
         || TypeName(o["type"])
         || (o["type"].Array? && forall n | 0 <= n < |o["type"].items| :: TypeName(o["type"].items[n])))
  {
    hide HasType, KnownType;
    forall name ensures KnownType(name) <==> name in PRIMITIVE_TYPES || name == "integer" { TablesAgree(name); }
  }

  lemma RefAnswers(root: Json, o: map<string, Json>, i: Json, pointer: string, run: Runner, good: Opinion)
    requires AnswersOn(run, good)
    ensures RefErrors(root, o, i, pointer, run).Ok? <==>
      ("$ref" in o && o["$ref"].String? ==>
         ResolveLocal(root, o["$ref"].text).Some? && good(ResolveLocal(root, o["$ref"].text).value, i))
  {
    hide ResolveLocal;
    if "$ref" in o && o["$ref"].String? && ResolveLocal(root, o["$ref"].text).Some? {
      OneTask(ResolveLocal(root, o["$ref"].text).value, i, pointer, good);
    }
  }

  lemma OneTask(s: Json, i: Json, pointer: string, good: Opinion)
    ensures AllTasks([Task(s, i, pointer)], good) <==> good(s, i)
  {
    assert [Task(s, i, pointer)][0] == Task(s, i, pointer);
  }

  lemma ListTasks(schemas: seq<Json>, i: Json, pointer: string, good: Opinion)
    ensures AllTasks(SameInstance(schemas, i, pointer), good) <==> forall s | s in schemas :: good(s, i)
  {
    var tasks := SameInstance(schemas, i, pointer);
    if AllTasks(tasks, good) {
      forall s | s in schemas ensures good(s, i) {
        var k :| 0 <= k < |schemas| && schemas[k] == s;
        assert good(tasks[k].schema, tasks[k].instance);
      }
    }
  }

  ghost predicate ListAnswers(o: map<string, Json>, key: string, i: Json, good: Opinion) {
    key in o ==> o[key].Array? && forall s | s in o[key].items :: good(s, i)
  }

  lemma CombinatorsAnswer(o: map<string, Json>, i: Json, pointer: string, run: Runner, good: Opinion)
    requires AnswersOn(run, good)
    ensures CombinatorErrors(o, i, pointer, run).Ok? <==>
      && ListAnswers(o, "allOf", i, good) && ListAnswers(o, "anyOf", i, good) && ListAnswers(o, "oneOf", i, good)
      && ("not" in o ==> good(o["not"], i))
  {
    hide SameInstance, Judge;
    forall key | key in o && o[key].Array? ensures
      run(SameInstance(o[key].items, i, pointer)).Ok? <==> forall s | s in o[key].items :: good(s, i)
    {
      ListTasks(o[key].items, i, pointer, good);
    }
    if "not" in o { OneTask(o["not"], i, pointer, good); }
  }

  lemma CountAnswers(o: map<string, Json>, key: string, actual: nat, maximum: bool, pointer: string)
    ensures BoundErrors(o, key, actual, maximum, pointer).Ok? <==> CountAt(o, key)
  {
    hide DecimalValue, UnsignedBelow;
    if key in o && o[key].Number? { UnsignedMeans(o[key].token, U64_MAX); }
  }

  lemma {:induction false} RequiredAnswers(required: seq<Json>, m: map<string, Json>, pointer: string)
    ensures RequiredErrors(required, m, pointer).Ok? <==> forall n | 0 <= n < |required| :: required[n].String?
  {
    if required != [] {
      RequiredAnswers(required[1..], m, pointer);
      assert required == [required[0]] + required[1..];
    }
  }

  /** All subschemas that apply to members of an object are good. */
  ghost predicate MembersGood(o: map<string, Json>, m: map<string, Json>, good: Opinion) {
    forall p, s | p in m && MemberTask(o, m, s, p) :: good(s, m[p])
  }

  lemma PropertiesAnswer(properties: map<string, Json>, m: map<string, Json>, pointer: string, run: Runner,
                         good: Opinion)
    requires AnswersOn(run, good)
    ensures PropertiesErrors(properties, m, pointer, run).Ok? <==>
      forall p | p in properties && p in m :: good(properties[p], m[p])
  {
    hide Sorted, PropertyTasks;
    var keys := Sorted(properties.Keys);
    assert forall k | 0 <= k < |keys| :: keys[k] in properties.Keys;
    PropertyTasksMean(properties, keys, m, pointer, good);
    forall p ensures p in properties <==> p in keys { assert p in properties <==> p in properties.Keys; }
  }

  lemma PatternsAnswer(patterns: map<string, Json>, m: map<string, Json>, pointer: string, run: Runner, good: Opinion)
    requires AnswersOn(run, good) && forall q | q in patterns :: PatternSupported(q)
    ensures PatternPropertyErrors(patterns, m, pointer, run).Ok? <==>
      forall q, p | q in patterns && p in m && PatternAccepts(q, p) :: good(patterns[q], m[p])
  {
    hide Sorted, PatternTasks, PatternAccepts, PatternSupported;
    var names, keys := Sorted(patterns.Keys), Sorted(m.Keys);
    assert forall k | 0 <= k < |names| :: names[k] in patterns.Keys;
    assert forall k | 0 <= k < |keys| :: keys[k] in m.Keys;
    PatternTasksMean(patterns, names, keys, m, pointer, good);
    forall q ensures q in patterns <==> q in names { assert q in patterns <==> q in patterns.Keys; }
    forall p ensures p in m <==> p in keys { assert p in m <==> p in m.Keys; }
  }

  lemma ChildrenAnswer(additional: Json, keys: seq<string>, m: map<string, Json>, pointer: string, run: Runner,
                       good: Opinion)
    requires AnswersOn(run, good) && forall k | 0 <= k < |keys| :: keys[k] in m
    ensures AdditionalErrors(additional, keys, m, pointer, run).Ok? <==>
      forall p | p in keys :: additional.Bool? || (additional.Object? && good(additional, m[p]))
  {
    if keys != [] {
      assert keys[0] in keys;
      if additional.Object? {
        var tasks := ChildTasks(additional, keys, m, pointer);
        if AllTasks(tasks, good) {
          forall p | p in keys ensures good(additional, m[p]) {
            var k :| 0 <= k < |keys| && keys[k] == p;
            assert good(tasks[k].schema, tasks[k].instance);
          }
        }
      }
    }
  }

  lemma UndeclaredListed(o: map<string, Json>, properties: map<string, Json>, patterns: map<string, Json>,
                         m: map<string, Json>, p: string)
    requires forall q | q in patterns :: PatternSupported(q)
    requires ObjectAt(o, "properties") == Some(properties) && ObjectAt(o, "patternProperties") == Some(patterns)
    ensures p in UndeclaredKeys(properties, patterns, Sorted(m.Keys)) <==> p in m && !Declared(o, p)
  {
    hide Sorted, Undeclared, Declared, PatternSupported, ObjectAt;
    assert p in m <==> p in m.Keys;
    UndeclaredMeans(o, properties, patterns, p);
  }

  lemma AdditionalAnswers(o: map<string, Json>, properties: map<string, Json>, patterns: map<string, Json>,
                          m: map<string, Json>, pointer: string, run: Runner, good: Opinion)
    requires AnswersOn(run, good) && forall q | q in patterns :: PatternSupported(q)
    requires ObjectAt(o, "properties") == Some(properties) && ObjectAt(o, "patternProperties") == Some(patterns)
    ensures AdditionalKeyErrors(o, properties, patterns, m, pointer, run).Ok? <==>
      ("additionalProperties" in o ==>
         forall p | p in m && !Declared(o, p) ::
           || o["additionalProperties"].Bool?
           || (o["additionalProperties"].Object? && good(o["additionalProperties"], m[p])))
  {
    hide Sorted, Undeclared, UndeclaredKeys, Declared, PatternSupported, ObjectAt, AdditionalErrors, AnswersOn;
    if "additionalProperties" in o {
      var all := Sorted(m.Keys);
      var keys := UndeclaredKeys(properties, patterns, all);
      forall p ensures p in keys <==> p in m && !Declared(o, p) {
        UndeclaredListed(o, properties, patterns, m, p);
      }
      assert forall k | 0 <= k < |keys| :: keys[k] in keys;
      ChildrenAnswer(o["additionalProperties"], keys, m, pointer, run, good);
    }
  }

  lemma ObjectAnswers(o: map<string, Json>, m: map<string, Json>, pointer: string, run: Runner, good: Opinion)
    requires AnswersOn(run, good)
    requires "patternProperties" in o ==>
      o["patternProperties"].Object? && forall q | q in o["patternProperties"].members :: PatternSupported(q)
    ensures ObjectErrors(o, Object(m), pointer, run).Ok? <==> ObjectApplies(o, m) && MembersGood(o, m, good)
  {
    hide RequiredErrors, PropertiesErrors, PatternPropertyErrors, AdditionalKeyErrors, AnswersOn, Declared;
    hide PatternAccepts, PatternSupported;
    var properties, patterns := ObjectAt(o, "properties"), ObjectAt(o, "patternProperties");
    if "required" in o && o["required"].Array? { RequiredAnswers(o["required"].items, m, pointer); }
    if properties.Some? {
      PropertiesAnswer(properties.value, m, pointer, run, good);
      PatternsAnswer(patterns.value, m, pointer, run, good);
      AdditionalAnswers(o, properties.value, patterns.value, m, pointer, run, good);
      MembersSplit(o, m, properties.value, patterns.value, good);
    }
  }

  ghost predicate AdditionalGood(o: map<string, Json>, m: map<string, Json>, good: Opinion) {
    "additionalProperties" in o && o["additionalProperties"].Object? ==>
      forall p | p in m && !Declared(o, p) :: good(o["additionalProperties"], m[p])
  }

  lemma MembersSplit(o: map<string, Json>, m: map<string, Json>, properties: map<string, Json>,
                     patterns: map<string, Json>, good: Opinion)
    requires ObjectAt(o, "properties") == Some(properties) && ObjectAt(o, "patternProperties") == Some(patterns)
    ensures MembersGood(o, m, good) <==>
      && (forall p | p in properties && p in m :: good(properties[p], m[p]))
      && (forall q, p | q in patterns && p in m && PatternAccepts(q, p) :: good(patterns[q], m[p]))
      && AdditionalGood(o, m, good)
  {
    hide PatternAccepts, Declared;
    if MembersGood(o, m, good) {
      forall p | p in properties && p in m ensures good(properties[p], m[p]) {
        assert MemberTask(o, m, properties[p], p);
      }
      forall q, p | q in patterns && p in m && PatternAccepts(q, p) ensures good(patterns[q], m[p]) {
        assert MemberTask(o, m, patterns[q], p);
      }
      if "additionalProperties" in o && o["additionalProperties"].Object? {
        forall p | p in m && !Declared(o, p) ensures good(o["additionalProperties"], m[p]) {
          assert MemberTask(o, m, o["additionalProperties"], p);
        }
      }
    }
  }

  ghost predicate ElementsGood(o: map<string, Json>, items: seq<Json>, good: Opinion) {
    forall k: nat, s | k < |items| && ElementTask(o, s, k) :: good(s, items[k])
  }

  lemma ArrayAnswers(o: map<string, Json>, items: seq<Json>, pointer: string, run: Runner, good: Opinion)
    requires AnswersOn(run, good)
    ensures ArrayErrors(o, Array(items), pointer, run).Ok? <==> Applies(o, Array(items)) && ElementsGood(o, items, good)
  {
    hide BoundErrors, CountAt;
    CountAnswers(o, "minItems", |items|, false, pointer);
    CountAnswers(o, "maxItems", |items|, true, pointer);
    var prefix := ArrayAt(o, "prefixItems");
    if prefix.Some? {
      assert Prefix(o) == prefix.value;
      var first := PrefixTasks(prefix.value, items, pointer);
      assert forall k | 0 <= k < |first| :: first[k] == ItemTask(prefix.value[k], items, k, pointer);
      assert AllTasks(first, good) <==> PrefixHolds(prefix.value, items, good);
      if "items" in o { RestAnswers(o["items"], |prefix.value|, items, pointer, good); }
      ElementsSplit(o, items, good);
    }
  }

  lemma RestAnswers(schema: Json, from: nat, items: seq<Json>, pointer: string, good: Opinion)
    ensures AllTasks(RestTasks(schema, from, items, pointer), good) <==> RestHolds(schema, from, items, good)
  {
    var rest := RestTasks(schema, from, items, pointer);
    assert forall k | 0 <= k < |rest| :: rest[k] == ItemTask(schema, items, from + k, pointer);
    if AllTasks(rest, good) {
      forall k | from <= k < |items| ensures good(schema, items[k]) {
        assert good(rest[k - from].schema, rest[k - from].instance);
      }
    }
  }

  lemma ElementsSplit(o: map<string, Json>, items: seq<Json>, good: Opinion)
    ensures ElementsGood(o, items, good) <==>
      PrefixHolds(Prefix(o), items, good) && ("items" in o ==> RestHolds(o["items"], |Prefix(o)|, items, good))
  {
    var prefix := Prefix(o);
    if ElementsGood(o, items, good) {
      forall k | 0 <= k < |prefix| && k < |items| ensures good(prefix[k], items[k]) {
        assert ElementTask(o, prefix[k], k);
      }
      if "items" in o {
        forall k | |prefix| <= k < |items| ensures good(o["items"], items[k]) {
          assert ElementTask(o, o["items"], k);
        }
      }
    }
  }

  lemma StringAnswers(o: map<string, Json>, text: string, pointer: string)
    requires "pattern" in o && o["pattern"].String? ==> PatternSupported(o["pattern"].text)
    ensures StringErrors(o, String(text), pointer).Ok? <==> Applies(o, String(text))
  {
    hide BoundErrors, CountAt, PatternSupported, PatternMatches;
    CountAnswers(o, "minLength", |text|, false, pointer);
    CountAnswers(o, "maxLength", |text|, true, pointer);
  }

  lemma NumberAnswers(numbers: Numbers, o: map<string, Json>, token: string, pointer: string)
    requires "format" in o && o["format"].String? ==> FormatSupported(o["format"].text)
    ensures NumberErrors(numbers, o, Number(token), pointer).Ok? <==> Applies(o, Number(token))
  {
    hide FormatSupported, FitsFormat;
  }

  // ------------------------------------------------------------------ a whole schema

  /** The parts of an instance, and the instance itself, are good for everything that applies to them. */
  ghost predicate SubtasksGood(root: Json, o: map<string, Json>, i: Json, good: Opinion) {
    forall s, x | Subtask(root, o, i, s, x) :: good(s, x)
  }

  ghost predicate HereGood(root: Json, o: map<string, Json>, i: Json, good: Opinion) {
    && ("$ref" in o && o["$ref"].String? && ResolveLocal(root, o["$ref"].text).Some? ==>
          good(ResolveLocal(root, o["$ref"].text).value, i))
    && (forall k, s | k in LISTS && k in o && o[k].Array? && s in o[k].items :: good(s, i))
    && ("not" in o ==> good(o["not"], i))
  }

  lemma SubtasksSplit(root: Json, o: map<string, Json>, i: Json, good: Opinion)
    ensures SubtasksGood(root, o, i, good) <==>
      && HereGood(root, o, i, good)
      && (i.Object? ==> MembersGood(o, i.members, good))
      && (i.Array? ==> ElementsGood(o, i.items, good))
  {
    hide ResolveLocal, MemberTask, ElementTask;
    if SubtasksGood(root, o, i, good) {
      if "$ref" in o && o["$ref"].String? && ResolveLocal(root, o["$ref"].text).Some? {
        assert Subtask(root, o, i, ResolveLocal(root, o["$ref"].text).value, i);
      }
      forall k, s | k in LISTS && k in o && o[k].Array? && s in o[k].items ensures good(s, i) {
        assert Subtask(root, o, i, s, i);
      }
      if "not" in o { assert Subtask(root, o, i, o["not"], i); }
      if i.Object? {
        forall p, s | p in i.members && MemberTask(o, i.members, s, p) ensures good(s, i.members[p]) {
          assert Subtask(root, o, i, s, i.members[p]);
        }
      }
      if i.Array? {
        forall k: nat, s | k < |i.items| && ElementTask(o, s, k) ensures good(s, i.items[k]) {
          assert Subtask(root, o, i, s, i.items[k]);
        }
      }
    }
  }

  lemma ListsAnswer(o: map<string, Json>, i: Json, good: Opinion)
    ensures
      && ListAnswers(o, "allOf", i, good) && ListAnswers(o, "anyOf", i, good) && ListAnswers(o, "oneOf", i, good)
      <==>
      && (forall k | k in LISTS && k in o :: o[k].Array?)
      && (forall k, s | k in LISTS && k in o && o[k].Array? && s in o[k].items :: good(s, i))
  {
    assert "allOf" in LISTS && "anyOf" in LISTS && "oneOf" in LISTS;
    if forall k | k in LISTS :: ListAnswers(o, k, i, good) {
      forall k, s | k in LISTS && k in o && o[k].Array? && s in o[k].items ensures good(s, i) {
        assert ListAnswers(o, k, i, good);
      }
    }
  }

  lemma InstanceAnswers(numbers: Numbers, o: map<string, Json>, i: Json, pointer: string, run: Runner, good: Opinion)
    requires AnswersOn(run, good) && Audited(o)
    ensures
      && ObjectErrors(o, i, pointer, run).Ok? && ArrayErrors(o, i, pointer, run).Ok?
      && StringErrors(o, i, pointer).Ok? && NumberErrors(numbers, o, i, pointer).Ok?
      <==>
      && Applies(o, i) && (i.Object? ==> MembersGood(o, i.members, good))
        && (i.Array? ==> ElementsGood(o, i.items, good))
  {
    hide AnswersOn, MembersGood, ElementsGood, ObjectApplies, CountAt, SupportedKey, PatternSupported, FormatSupported;
    match i
    case Object(m) =>
      ObjectAnswers(o, m, pointer, run, good);
      OthersAnswer(numbers, o, i, pointer, run);
    case Array(items) =>
      ArrayAnswers(o, items, pointer, run, good);
      OthersAnswer(numbers, o, i, pointer, run);
    case String(text) =>
      StringAnswers(o, text, pointer);
      OthersAnswer(numbers, o, i, pointer, run);
    case Number(token) =>
      NumberAnswers(numbers, o, token, pointer);
      OthersAnswer(numbers, o, i, pointer, run);
    case _ => OthersAnswer(numbers, o, i, pointer, run);
  }

  /** Keywords for other kinds of instances are passed over. */
  lemma OthersAnswer(numbers: Numbers, o: map<string, Json>, i: Json, pointer: string, run: Runner)
    ensures !i.Object? ==> ObjectErrors(o, i, pointer, run) == Ok([])
    ensures !i.Array? ==> ArrayErrors(o, i, pointer, run) == Ok([])
    ensures !i.String? ==> StringErrors(o, i, pointer) == Ok([])
    ensures !i.Number? ==> NumberErrors(numbers, o, i, pointer) == Ok([])
  {
  }

  lemma PartsAnswer(numbers: Numbers, root: Json, o: map<string, Json>, i: Json, pointer: string, run: Runner)
    ensures SchemaErrors(numbers, root, o, i, pointer, run).Ok? <==>
      && RefErrors(root, o, i, pointer, run).Ok? && CombinatorErrors(o, i, pointer, run).Ok?
      && TypeErrors(numbers, o, i, pointer).Ok? && ObjectErrors(o, i, pointer, run).Ok?
      && ArrayErrors(o, i, pointer, run).Ok? && StringErrors(o, i, pointer).Ok?
      && NumberErrors(numbers, o, i, pointer).Ok?
  {
    hide RefErrors, CombinatorErrors, TypeErrors, ObjectErrors, ArrayErrors, StringErrors, NumberErrors;
  }

  lemma KeywordsAnswer(numbers: Numbers, root: Json, o: map<string, Json>, i: Json, pointer: string, run: Runner,
                       good: Opinion)
    requires AnswersOn(run, good)
    ensures Audited(o) && SchemaErrors(numbers, root, o, i, pointer, run).Ok? <==>
      Understandable(root, o) && Applies(o, i) && SubtasksGood(root, o, i, good)
  {
    hide SchemaErrors, RefErrors, CombinatorErrors, TypeErrors, ObjectErrors, ArrayErrors, StringErrors, NumberErrors;
    hide Audited, AnswersOn, SubtasksGood, MembersGood, ElementsGood, Applies, ListAnswers, ResolveLocal, TypeName;
    PartsAnswer(numbers, root, o, i, pointer, run);
    AuditMeans(o);
    RefAnswers(root, o, i, pointer, run, good);
    CombinatorsAnswer(o, i, pointer, run, good);
    ListsAnswer(o, i, good);
    TypeAnswers(numbers, o, i, pointer);
    if Audited(o) { InstanceAnswers(numbers, o, i, pointer, run, good); }
    SubtasksSplit(root, o, i, good);
  }

  /** How many schemas one inside the other a call at this depth still visits. */
  function Left(depth: nat): nat { if depth <= 256 then 257 - depth else 0 }

  /** The evaluator answers exactly if everything that applies to a part of the instance is understood. */
  lemma {:induction false} AnswersIff(numbers: Numbers, root: Json, schema: Json, i: Json, pointer: string, depth: nat)
    ensures Eval(numbers, root, schema, i, pointer, depth).Ok? <==> Understood(root, schema, i, Left(depth))
    decreases Remaining(depth), 0
  {
    hide SchemaErrors, Audited, Understandable, Applies, Subtask;
    if depth <= 256 && schema.Object? {
      var run, n := Nested(numbers, root, depth), Left(depth) - 1;
      var good: Opinion := (s, x) => Understood(root, s, x, n);
      forall tasks ensures run(tasks).Ok? <==> AllTasks(tasks, good) {
        EachAnswersIff(numbers, root, tasks, depth + 1, good);
      }
      KeywordsAnswer(numbers, root, schema.members, i, pointer, run, good);
    }
  }

  lemma {:induction false} EachAnswersIff(numbers: Numbers, root: Json, tasks: seq<Task>, depth: nat, good: Opinion)
    requires forall s, x :: good(s, x) <==> Understood(root, s, x, Left(depth))
    ensures EvalEach(numbers, root, tasks, depth).Ok? <==> AllTasks(tasks, good)
    decreases Remaining(depth), 1, |tasks|
  {
    hide Eval, Understood;
    if tasks != [] {
      EachAnswersIff(numbers, root, tasks[1..], depth, good);
      AnswersIff(numbers, root, tasks[0].schema, tasks[0].instance, tasks[0].pointer, depth);
      assert tasks == [tasks[0]] + tasks[1..];
      TasksCons(tasks[0], tasks[1..], good);
    }
  }
}
