/**
 What the evaluator decides. The boolean meaning of a schema (sections 8.2.3.1, 10.2.1 and 10.3 of JSON
 Schema Core 2020-12) is given by equations between subschemas; a schema may refer to itself, so the
 equations are read as a step from one opinion `v` about all (schema, instance) pairs to the next.
 */
module SchemaMeaning {
  import opened Prelude
  import opened StringOrder
  import opened Json
  import opened JsonPointer
  import opened SchemaEval

  /** An opinion about which instances satisfy which schemas. */
  type Opinion = (Json, Json) -> bool

  // ------------------------------------------------------------------ the meaning of each keyword

  ghost predicate RefHolds(root: Json, o: map<string, Json>, i: Json, v: Opinion) {
    "$ref" in o && o["$ref"].String? ==>
      var target := ResolveLocal(root, o["$ref"].text);
      target.Some? && v(target.value, i)
  }

  ghost predicate AllHold(schemas: seq<Json>, i: Json, v: Opinion) {
    forall k | 0 <= k < |schemas| :: v(schemas[k], i)
  }

  ghost predicate SomeHolds(schemas: seq<Json>, i: Json, v: Opinion) {
    exists k | 0 <= k < |schemas| :: v(schemas[k], i)
  }

  ghost predicate OneHolds(schemas: seq<Json>, i: Json, v: Opinion) {
    exists k | 0 <= k < |schemas| :: v(schemas[k], i) && forall m | 0 <= m < |schemas| :: v(schemas[m], i) ==> m == k
  }

  ghost predicate CombinatorsHold(o: map<string, Json>, i: Json, v: Opinion) {
    && ("allOf" in o && o["allOf"].Array? ==> AllHold(o["allOf"].items, i, v))
    && ("anyOf" in o && o["anyOf"].Array? ==> SomeHolds(o["anyOf"].items, i, v))
    && ("oneOf" in o && o["oneOf"].Array? ==> OneHolds(o["oneOf"].items, i, v))
    && ("not" in o ==> !v(o["not"], i))
  }

  /** What the type names mean (section 4.2.1 of JSON Schema Core 2020-12). */
  ghost predicate OfType(numbers: Numbers, i: Json, name: string) {
    || (name == "null" && i.Null?) || (name == "boolean" && i.Bool?) || (name == "object" && i.Object?)
    || (name == "array" && i.Array?) || (name == "string" && i.String?) || (name == "number" && i.Number?)
    || (name == "integer" && i.Number? && numbers.whole(i.token))
  }

  const PRIMITIVE_TYPES: set<string> := {"null", "boolean", "object", "array", "string", "number"}

  /** Every instance has exactly one primitive type, and an integer is a number. */
  lemma TypesPartition(numbers: Numbers, i: Json)
    ensures exists name :: name in PRIMITIVE_TYPES && OfType(numbers, i, name)
    ensures forall a, b | a in PRIMITIVE_TYPES && b in PRIMITIVE_TYPES ::
      OfType(numbers, i, a) && OfType(numbers, i, b) ==> a == b
    ensures OfType(numbers, i, "integer") ==> OfType(numbers, i, "number")
  {
    var name := match i
      case Null => "null" case Bool(_) => "boolean" case Object(_) => "object" case Array(_) => "array"
      case String(_) => "string" case Number(_) => "number";
    assert name in PRIMITIVE_TYPES && OfType(numbers, i, name);
  }

  ghost predicate TypeHolds(numbers: Numbers, o: map<string, Json>, i: Json) {
    "type" in o ==>
      match o["type"]
      case String(name) => OfType(numbers, i, name)
      case Array(names) => exists k | 0 <= k < |names| :: names[k].String? && OfType(numbers, i, names[k].text)
      case _ => false
  }

  const COLOR_PATTERN := "^#[0-9a-fA-F]{6}$"

  /** What the supported regular expressions mean: an anchored literal, or a hash and six hexadecimal digits. */
  ghost predicate PatternAccepts(pattern: string, text: string) {
    if pattern == COLOR_PATTERN
    then |text| == 7 && text[0] == '#' && forall k | 1 <= k < 7 :: text[k] in "0123456789abcdefABCDEF"
    else pattern != "" && pattern[0] == '^' && exists rest :: text == pattern[1..] + rest
  }

  /** The number is written as an integer of this signed type. */
  ghost predicate SignedOf(t: string, bound: int) { exists n: int | -bound <= n < bound :: Denotes(t, n) }

  /** The number is written without a sign, as an integer below the bound. */
  ghost predicate UnsignedBelow(t: string, bound: nat) {
    t != "" && t[0] != '-' && exists n | 0 <= n < bound :: Denotes(t, n)
  }

  /** What the number formats mean. */
  ghost predicate FormatAdmits(t: string, format: string) {
    || (format == "int64" && SignedOf(t, 0x8000_0000_0000_0000))
    || (format == "int32" && SignedOf(t, 0x8000_0000))
    || (format in {"uint64", "uint"} && UnsignedBelow(t, 0x1_0000_0000_0000_0000))
    || (format == "uint32" && UnsignedBelow(t, 0x1_0000_0000))
    || (format == "uint16" && UnsignedBelow(t, 0x1_0000))
    || format == "double"
  }

  ghost predicate EnumConstHold(o: map<string, Json>, i: Json) {
    && ("enum" in o && o["enum"].Array? ==> i in o["enum"].items)
    && ("const" in o ==> o["const"] == i)
  }

  ghost predicate RequiredHolds(required: seq<Json>, i: map<string, Json>) {
    forall k | 0 <= k < |required| :: required[k].String? ==> required[k].text in i
  }

  ghost predicate PropertiesHold(properties: map<string, Json>, i: map<string, Json>, v: Opinion) {
    forall p | p in properties && p in i :: v(properties[p], i[p])
  }

  ghost predicate PatternPropertiesHold(patterns: map<string, Json>, i: map<string, Json>, v: Opinion) {
    forall q, p | q in patterns && p in i && PatternAccepts(q, p) :: v(patterns[q], i[p])
  }

  ghost predicate Permits(additional: Json, i: Json, v: Opinion) {
    if additional.Bool? then additional.b else v(additional, i)
  }

  /** A property that `properties` or a pattern speaks about. */
  ghost predicate Declared(o: map<string, Json>, p: string) {
    || ("properties" in o && o["properties"].Object? && p in o["properties"].members)
    || ("patternProperties" in o && o["patternProperties"].Object?
        && exists q | q in o["patternProperties"].members :: PatternAccepts(q, p))
  }

  ghost predicate AdditionalHolds(o: map<string, Json>, i: map<string, Json>, v: Opinion) {
    "additionalProperties" in o ==> forall p | p in i && !Declared(o, p) :: Permits(o["additionalProperties"], i[p], v)
  }

  ghost predicate ObjectHolds(o: map<string, Json>, instance: Json, v: Opinion) {
    instance.Object? ==>
      var i := instance.members;
      && ("required" in o && o["required"].Array? ==> RequiredHolds(o["required"].items, i))
      && ("properties" in o && o["properties"].Object? ==> PropertiesHold(o["properties"].members, i, v))
      && ("patternProperties" in o && o["patternProperties"].Object? ==>
            PatternPropertiesHold(o["patternProperties"].members, i, v))
      && AdditionalHolds(o, i, v)
  }

  ghost predicate WithinBound(o: map<string, Json>, key: string, actual: nat, maximum: bool) {
    key in o && o[key].Number? ==>
      forall n: int | Denotes(o[key].token, n) :: if maximum then actual <= n else n <= actual
  }

  ghost predicate PrefixHolds(schemas: seq<Json>, items: seq<Json>, v: Opinion) {
    forall k | 0 <= k < |schemas| && k < |items| :: v(schemas[k], items[k])
  }

  ghost predicate RestHolds(schema: Json, from: nat, items: seq<Json>, v: Opinion) {
    forall k | from <= k < |items| :: v(schema, items[k])
  }

  ghost predicate ArrayHolds(o: map<string, Json>, instance: Json, v: Opinion) {
    instance.Array? ==>
      var prefix := if "prefixItems" in o && o["prefixItems"].Array? then o["prefixItems"].items else [];
      && WithinBound(o, "minItems", |instance.items|, false)
      && WithinBound(o, "maxItems", |instance.items|, true)
      && PrefixHolds(prefix, instance.items, v)
      && ("items" in o ==> RestHolds(o["items"], |prefix|, instance.items, v))
  }

  ghost predicate StringHolds(o: map<string, Json>, instance: Json) {
    instance.String? ==>
      && WithinBound(o, "minLength", |instance.text|, false)
      && WithinBound(o, "maxLength", |instance.text|, true)
      && ("pattern" in o && o["pattern"].String? ==> PatternAccepts(o["pattern"].text, instance.text))
  }

  ghost predicate LimitHolds(numbers: Numbers, o: map<string, Json>, key: string, comparison: Comparison,
                             token: string) {
    key in o && o[key].Number? ==> numbers.compare(comparison, token, o[key].token)
  }

  ghost predicate NumberHolds(numbers: Numbers, o: map<string, Json>, instance: Json) {
    instance.Number? ==>
      && LimitHolds(numbers, o, "minimum", GreaterOrEqual, instance.token)
      && LimitHolds(numbers, o, "maximum", LessOrEqual, instance.token)
      && LimitHolds(numbers, o, "exclusiveMinimum", Greater, instance.token)
      && ("format" in o && o["format"].String? ==> FormatAdmits(instance.token, o["format"].text))
  }

  /** The instance satisfies every keyword, with subschemas judged by `v`. */
  ghost predicate KeywordsHold(numbers: Numbers, root: Json, o: map<string, Json>, i: Json, v: Opinion) {
    && RefHolds(root, o, i, v)
    && CombinatorsHold(o, i, v)
    && TypeHolds(numbers, o, i)
    && EnumConstHold(o, i)
    && ObjectHolds(o, i, v)
    && ArrayHolds(o, i, v)
    && StringHolds(o, i)
    && NumberHolds(numbers, o, i)
  }

  /** One unfolding of the meaning of a schema. */
  ghost predicate Unfold(numbers: Numbers, root: Json, schema: Json, i: Json, v: Opinion) {
    match schema
    case Bool(b) => b
    case Object(o) => KeywordsHold(numbers, root, o, i, v)
    case _ => false
  }

  // ------------------------------------------------------------------ errors and opinions agree

  ghost predicate AllTasks(tasks: seq<Task>, v: Opinion) {
    forall k | 0 <= k < |tasks| :: v(tasks[k].schema, tasks[k].instance)
  }

  /** If the tasks are evaluated at all, the empty error lists are the ones `v` accepts. */
  ghost predicate Faithful(out: Outcomes, tasks: seq<Task>, v: Opinion) {
    out.Ok? ==>
      && |out.value| == |tasks|
      && forall k | 0 <= k < |tasks| :: (out.value[k] == [] <==> v(tasks[k].schema, tasks[k].instance))
  }

  ghost predicate Sound(run: Runner, v: Opinion) {
    forall tasks :: Faithful(run(tasks), tasks, v)
  }

  /** If there is an answer, it is empty exactly when `p` holds. */
  ghost predicate Decides(e: Errors, p: bool) { e.Ok? ==> (e.value == [] <==> p) }

  lemma {:induction false} FlattenEmpty(lists: seq<seq<string>>)
    ensures Flatten(lists) == [] <==> forall k | 0 <= k < |lists| :: lists[k] == []
  {
    if lists != [] {
      FlattenEmpty(lists[1..]);
      assert lists == [lists[0]] + lists[1..];
    }
  }

  lemma RunDecides(run: Runner, v: Opinion, tasks: seq<Task>)
    requires Sound(run, v)
    ensures Decides(Flat(run(tasks)), AllTasks(tasks, v))
  {
    assert Faithful(run(tasks), tasks, v);
    if run(tasks).Ok? { FlattenEmpty(run(tasks).value); }
  }

  lemma RefDecides(root: Json, o: map<string, Json>, i: Json, pointer: string, run: Runner, v: Opinion)
    requires Sound(run, v)
    ensures Decides(RefErrors(root, o, i, pointer, run), RefHolds(root, o, i, v))
  {
    if "$ref" in o && o["$ref"].String? {
      var target := ResolveLocal(root, o["$ref"].text);
      if target.Some? {
        var tasks := [Task(target.value, i, pointer)];
        RunDecides(run, v, tasks);
        assert tasks[0] == Task(target.value, i, pointer);
      }
    }
  }

  lemma AllOfDecides(o: map<string, Json>, i: Json, pointer: string, run: Runner, v: Opinion)
    requires Sound(run, v)
    ensures Decides(AllOfErrors(o, i, pointer, run), "allOf" in o && o["allOf"].Array?
      ==> AllHold(o["allOf"].items, i, v))
  {
    if "allOf" in o && o["allOf"].Array? {
      var tasks := SameInstance(o["allOf"].items, i, pointer);
      RunDecides(run, v, tasks);
      assert forall k | 0 <= k < |tasks| :: tasks[k] == Task(o["allOf"].items[k], i, pointer);
    }
  }

  lemma NotDecides(o: map<string, Json>, i: Json, pointer: string, run: Runner, v: Opinion)
    requires Sound(run, v)
    ensures Decides(NotErrors(o, i, pointer, run), "not" in o ==> !v(o["not"], i))
  {
    if "not" in o {
      var tasks := [Task(o["not"], i, pointer)];
      RunDecides(run, v, tasks);
      assert tasks[0] == Task(o["not"], i, pointer);
    }
  }

  lemma {:induction false} SomeSuccess(lists: seq<seq<string>>)
    ensures Successes(lists) >= 1 <==> exists k | 0 <= k < |lists| :: lists[k] == []
  {
    if lists != [] {
      var n := |lists| - 1;
      SomeSuccess(lists[..n]);
      assert forall k | 0 <= k < n :: lists[..n][k] == lists[k];
    }
  }

  /** Only list k succeeds. */
  ghost predicate OnlySuccess(lists: seq<seq<string>>, k: nat) {
    k < |lists| && lists[k] == [] && forall m | 0 <= m < |lists| :: lists[m] == [] ==> m == k
  }

  lemma OnlySuccessSnoc(lists: seq<seq<string>>, k: nat)
    requires lists != []
    ensures
      var n := |lists| - 1;
      OnlySuccess(lists, k) <==>
        if k == n then lists[n] == [] && Successes(lists[..n]) == 0 else lists[n] != [] && OnlySuccess(lists[..n], k)
  {
    hide Successes;
    var n := |lists| - 1;
    SomeSuccess(lists[..n]);
    assert forall m | 0 <= m < n :: lists[..n][m] == lists[m];
  }

  lemma {:induction false} OneSuccess(lists: seq<seq<string>>)
    ensures Successes(lists) == 1 <==> exists k: nat :: OnlySuccess(lists, k)
  {
    hide OnlySuccess;
    OnlyInRange(lists);
    if lists != [] {
      var n := |lists| - 1;
      OneSuccess(lists[..n]);
      OnlyInRange(lists[..n]);
      OnlySuccessSnoc(lists, n);
      forall k: nat
        ensures OnlySuccess(lists, k) <==>
          if k == n then lists[n] == [] && Successes(lists[..n]) == 0 else lists[n] != [] && OnlySuccess(lists[..n], k)
      {
        OnlySuccessSnoc(lists, k);
      }
    }
  }

  lemma OnlyInRange(lists: seq<seq<string>>)
    ensures forall k: nat :: OnlySuccess(lists, k) ==> k < |lists|
  {
  }

  lemma OneSuccessHolds(lists: seq<seq<string>>, schemas: seq<Json>, i: Json, v: Opinion)
    requires |lists| == |schemas| && forall k | 0 <= k < |lists| :: (lists[k] == [] <==> v(schemas[k], i))
    ensures (exists k: nat :: OnlySuccess(lists, k)) <==> OneHolds(schemas, i, v)
  {
    if k: nat :| OnlySuccess(lists, k) { assert v(schemas[k], i); }
    if OneHolds(schemas, i, v) {
      var k :| 0 <= k < |schemas| && v(schemas[k], i) && forall m | 0 <= m < |schemas| :: v(schemas[m], i) ==> m == k;
      assert OnlySuccess(lists, k);
    }
  }

  lemma JudgeDecides(lists: seq<seq<string>>, schemas: seq<Json>, i: Json, pointer: string, exactlyOne: bool,
                     v: Opinion)
    requires |lists| == |schemas|
    requires forall k | 0 <= k < |lists| :: (lists[k] == [] <==> v(schemas[k], i))
    ensures Judge(lists, pointer, exactlyOne) == [] <==> if exactlyOne then OneHolds(schemas, i, v)
      else SomeHolds(schemas, i, v)
  {
    hide Successes, Best;
    SomeSuccess(lists);
    OneSuccess(lists);
    if exactlyOne {
      OneSuccessHolds(lists, schemas, i, v);
    } else {
      assert Successes(lists) >= 1 <==> SomeHolds(schemas, i, v);
    }
  }

  lemma AlternativesDecide(key: string, exactlyOne: bool, o: map<string, Json>, i: Json, pointer: string, run: Runner,
                           v: Opinion)
    requires Sound(run, v)
    ensures Decides(AlternativeErrors(key, exactlyOne, o, i, pointer, run),
              key in o && o[key].Array? ==> if exactlyOne then OneHolds(o[key].items, i, v)
                else SomeHolds(o[key].items, i, v))
  {
    hide Judge, OneHolds, SomeHolds;
    if key in o && o[key].Array? {
      var tasks := SameInstance(o[key].items, i, pointer);
      assert Faithful(run(tasks), tasks, v);
      if run(tasks).Ok? {
        JudgeDecides(run(tasks).value, o[key].items, i, pointer, exactlyOne, v);
      }
    }
  }

  lemma CombinatorsDecide(o: map<string, Json>, i: Json, pointer: string, run: Runner, v: Opinion)
    requires Sound(run, v)
    ensures Decides(CombinatorErrors(o, i, pointer, run), CombinatorsHold(o, i, v))
  {
    hide AllOfErrors, AlternativeErrors, NotErrors, AllHold, SomeHolds, OneHolds, Sound;
    AllOfDecides(o, i, pointer, run, v);
    AlternativesDecide("anyOf", false, o, i, pointer, run, v);
    AlternativesDecide("oneOf", true, o, i, pointer, run, v);
    NotDecides(o, i, pointer, run, v);
  }

  lemma TypeDecides(numbers: Numbers, o: map<string, Json>, i: Json, pointer: string)
    ensures Decides(TypeErrors(numbers, o, i, pointer), TypeHolds(numbers, o, i))
  {
    hide KnownType, HasType, OfType;
    forall name ensures HasType(numbers, i, name) <==> OfType(numbers, i, name) { TypeNamed(numbers, i, name); }
  }

  lemma TypeNamed(numbers: Numbers, i: Json, name: string)
    ensures HasType(numbers, i, name) <==> OfType(numbers, i, name)
  {
  }

  lemma HexDigits(c: char)
    ensures IsHex(c) <==> c in "0123456789abcdefABCDEF"
  {
    var digits := "0123456789abcdefABCDEF";
    if '0' <= c <= '9' { assert digits[c as int - '0' as int] == c; }
    if 'a' <= c <= 'f' { assert digits[10 + (c as int - 'a' as int)] == c; }
    if 'A' <= c <= 'F' { assert digits[16 + (c as int - 'A' as int)] == c; }
  }

  lemma PatternMeans(pattern: string, text: string)
    requires PatternSupported(pattern)
    ensures PatternMatches(pattern, text) <==> PatternAccepts(pattern, text)
  {
    if PrefixPattern(pattern) {
      var literal := pattern[1..];
      assert pattern[0] == '^' && pattern != COLOR_PATTERN;
      if StartsWith(text, literal) { assert text == literal + text[|literal|..]; }
      if rest :| text == literal + rest { assert text[..|literal|] == literal; }
    } else {
      forall k | 1 <= k < |text| ensures IsHex(text[k]) <==> text[k] in "0123456789abcdefABCDEF" { HexDigits(text[k]); }
    }
  }

  lemma DigitsHaveNoSign(t: string)
    requires t != "" && AllDigits(t)
    ensures t[0] != '-'
  {
    assert IsDigit(t[0]);
  }

  lemma UnsignedMeans(t: string, greatest: nat)
    ensures UnsignedUpTo(t, greatest) <==> UnsignedBelow(t, greatest + 1)
  {
    hide DecimalValue;
    if UnsignedUpTo(t, greatest) {
      DigitsHaveNoSign(t);
      assert Denotes(t, DecimalValue(t));
    }
  }

  lemma SignedMeans(t: string, greatest: nat)
    ensures SignedUpTo(t, greatest) <==> SignedOf(t, greatest + 1)
  {
    hide DecimalValue;
    if UnsignedUpTo(t, greatest) { assert Denotes(t, DecimalValue(t)); }
    if t != "" && t[0] == '-' && UnsignedUpTo(t[1..], greatest + 1) {
      var magnitude: int := DecimalValue(t[1..]);
      assert Denotes(t, -magnitude);
    }
  }

  lemma FormatMeans(t: string, format: string)
    ensures FitsFormat(t, format) <==> FormatAdmits(t, format)
  {
    hide UnsignedUpTo, SignedUpTo, UnsignedBelow, SignedOf;
    SignedMeans(t, 0x7fff_ffff_ffff_ffff);
    SignedMeans(t, 0x7fff_ffff);
    UnsignedMeans(t, U64_MAX);
    UnsignedMeans(t, 0xffff_ffff);
    UnsignedMeans(t, 0xffff);
  }

  lemma BoundDecides(o: map<string, Json>, key: string, actual: nat, maximum: bool, pointer: string)
    ensures Decides(BoundErrors(o, key, actual, maximum, pointer), WithinBound(o, key, actual, maximum))
  {
    hide DecimalValue;
    if key in o && AsU64(o[key]).Some? {
      var t := o[key].token;
      DigitsHaveNoSign(t);
      assert Denotes(t, DecimalValue(t));
    }
  }

  lemma {:induction false} RequiredDecides(required: seq<Json>, i: map<string, Json>, pointer: string)
    ensures Decides(RequiredErrors(required, i, pointer), RequiredHolds(required, i))
  {
    if required != [] {
      RequiredDecides(required[1..], i, pointer);
      assert required == [required[0]] + required[1..];
    }
  }

  lemma {:induction false} PropertyTasksMean(properties: map<string, Json>, keys: seq<string>, i: map<string, Json>,
                                             pointer: string, v: Opinion)
    requires forall k | 0 <= k < |keys| :: keys[k] in properties
    ensures AllTasks(PropertyTasks(properties, keys, i, pointer), v) <==>
      forall p | p in keys && p in i :: v(properties[p], i[p])
  {
    if keys != [] {
      PropertyTasksMean(properties, keys[1..], i, pointer, v);
      assert keys == [keys[0]] + keys[1..];
      if keys[0] in i {
        TasksCons(PropertyTask(properties[keys[0]], i, keys[0], pointer),
          PropertyTasks(properties, keys[1..], i, pointer), v);
      }
    }
  }

  lemma TasksAppend(a: seq<Task>, b: seq<Task>, v: Opinion)
    ensures AllTasks(a + b, v) <==> AllTasks(a, v) && AllTasks(b, v)
  {
    assert forall k | 0 <= k < |a| :: (a + b)[k] == a[k];
    assert forall k | 0 <= k < |b| :: (a + b)[|a| + k] == b[k];
  }

  lemma TasksCons(t: Task, rest: seq<Task>, v: Opinion)
    ensures AllTasks([t] + rest, v) <==> v(t.schema, t.instance) && AllTasks(rest, v)
  {
    TasksAppend([t], rest, v);
    assert [t][0] == t;
  }

  lemma PropertiesDecide(properties: map<string, Json>, i: map<string, Json>, pointer: string, run: Runner, v: Opinion)
    requires Sound(run, v)
    ensures Decides(PropertiesErrors(properties, i, pointer, run), PropertiesHold(properties, i, v))
  {
    hide Sorted, PropertyTasks;
    var keys := Sorted(properties.Keys);
    assert forall k | 0 <= k < |keys| :: keys[k] in properties.Keys;
    RunDecides(run, v, PropertyTasks(properties, keys, i, pointer));
    PropertyTasksMean(properties, keys, i, pointer, v);
    assert forall p :: p in properties <==> p in keys by {
      forall p ensures p in properties <==> p in keys { assert p in properties <==> p in properties.Keys; }
    }
  }

  lemma {:induction false} MatchTasksMean(q: string, schema: Json, keys: seq<string>, i: map<string, Json>,
                                          pointer: string, v: Opinion)
    requires PatternSupported(q) && forall k | 0 <= k < |keys| :: keys[k] in i
    ensures AllTasks(MatchTasks(q, schema, keys, i, pointer), v) <==>
      forall p | p in keys && PatternAccepts(q, p) :: v(schema, i[p])
  {
    hide PatternMatches, PatternAccepts, PatternSupported;
    if keys != [] {
      PatternMeans(q, keys[0]);
      MatchTasksMean(q, schema, keys[1..], i, pointer, v);
      assert keys == [keys[0]] + keys[1..];
      if PatternMatches(q, keys[0]) {
        TasksCons(PropertyTask(schema, i, keys[0], pointer), MatchTasks(q, schema, keys[1..], i, pointer), v);
      }
    }
  }

  lemma NothingMatches(q: string, schema: Json, i: map<string, Json>, pointer: string, v: Opinion)
    ensures AllTasks(MatchTasks(q, schema, [], i, pointer), v)
  {
  }

  lemma {:induction false} PatternTasksMean(patterns: map<string, Json>, names: seq<string>, keys: seq<string>,
                                            i: map<string, Json>, pointer: string, v: Opinion)
    requires forall k | 0 <= k < |names| :: names[k] in patterns
    requires forall k | 0 <= k < |keys| :: keys[k] in i
    requires keys == [] || forall k | 0 <= k < |names| :: PatternSupported(names[k])
    ensures AllTasks(PatternTasks(patterns, names, keys, i, pointer), v) <==>
      forall q, p | q in names && p in keys && PatternAccepts(q, p) :: v(patterns[q], i[p])
  {
    hide PatternMatches, PatternAccepts, PatternSupported, MatchTasks;
    if names != [] {
      PatternTasksMean(patterns, names[1..], keys, i, pointer, v);
      assert names == [names[0]] + names[1..];
      if keys == [] {
        NothingMatches(names[0], patterns[names[0]], i, pointer, v);
      } else {
        MatchTasksMean(names[0], patterns[names[0]], keys, i, pointer, v);
      }
      TasksAppend(MatchTasks(names[0], patterns[names[0]], keys, i, pointer),
        PatternTasks(patterns, names[1..], keys, i, pointer), v);
    }
  }

  lemma PatternPropertiesDecide(patterns: map<string, Json>, i: map<string, Json>, pointer: string, run: Runner,
                                v: Opinion)
    requires Sound(run, v)
    ensures Decides(PatternPropertyErrors(patterns, i, pointer, run), PatternPropertiesHold(patterns, i, v))
  {
    hide Sorted, PatternTasks, PatternMatches, PatternAccepts, PatternSupported;
    if PatternsUsable(patterns, i) {
      var names, keys := Sorted(patterns.Keys), Sorted(i.Keys);
      assert forall k | 0 <= k < |names| :: names[k] in patterns.Keys;
      assert forall k | 0 <= k < |keys| :: keys[k] in i.Keys;
      if keys != [] { assert keys[0] in i.Keys; }
      RunDecides(run, v, PatternTasks(patterns, names, keys, i, pointer));
      PatternTasksMean(patterns, names, keys, i, pointer, v);
      forall q ensures q in patterns <==> q in names { assert q in patterns <==> q in patterns.Keys; }
      forall p ensures p in i <==> p in keys { assert p in i <==> p in i.Keys; }
    }
  }

  lemma AdditionalDecides(additional: Json, keys: seq<string>, i: map<string, Json>, pointer: string, run: Runner,
                          v: Opinion)
    requires Sound(run, v)
    requires forall k | 0 <= k < |keys| :: keys[k] in i
    ensures Decides(AdditionalErrors(additional, keys, i, pointer, run),
              forall k | 0 <= k < |keys| :: Permits(additional, i[keys[k]], v))
  {
    if keys != [] {
      if additional.Object? {
        var tasks := ChildTasks(additional, keys, i, pointer);
        RunDecides(run, v, tasks);
      } else if additional.Bool? {
        assert keys[0] in i;
      }
    }
  }

  lemma AdditionalKeyDecides(o: map<string, Json>, properties: map<string, Json>, patterns: map<string, Json>,
                             i: map<string, Json>, pointer: string, run: Runner, v: Opinion)
    requires Sound(run, v) && PatternsUsable(patterns, i)
    requires ObjectAt(o, "properties") == Some(properties) && ObjectAt(o, "patternProperties") == Some(patterns)
    ensures Decides(AdditionalKeyErrors(o, properties, patterns, i, pointer, run), AdditionalHolds(o, i, v))
  {
    hide Sorted, Undeclared, Declared, AdditionalErrors, Sound, Permits, PatternSupported, ObjectAt;
    forall p | p in i ensures Undeclared(properties, patterns, p) <==> !Declared(o, p) {
      assert p in i.Keys;
      UndeclaredMeans(o, properties, patterns, p);
    }
    if "additionalProperties" in o {
      var all := Sorted(i.Keys);
      var keys := UndeclaredKeys(properties, patterns, all);
      assert forall k | 0 <= k < |keys| :: keys[k] in all && keys[k] in i.Keys;
      AdditionalDecides(o["additionalProperties"], keys, i, pointer, run, v);
      forall p | p in i && Undeclared(properties, patterns, p) ensures p in keys { assert p in i.Keys; }
    }
  }

  lemma UndeclaredMeans(o: map<string, Json>, properties: map<string, Json>, patterns: map<string, Json>, p: string)
    requires ObjectAt(o, "properties") == Some(properties) && ObjectAt(o, "patternProperties") == Some(patterns)
    requires forall q | q in patterns :: PatternSupported(q)
    ensures Undeclared(properties, patterns, p) <==> !Declared(o, p)
  {
    hide PatternMatches, PatternAccepts, PatternSupported;
    forall q | q in patterns ensures PatternMatches(q, p) <==> PatternAccepts(q, p) { PatternMeans(q, p); }
  }

  lemma PatternsAreUsable(patterns: map<string, Json>, i: map<string, Json>, pointer: string, run: Runner)
    ensures PatternPropertyErrors(patterns, i, pointer, run).Ok? ==> PatternsUsable(patterns, i)
  {
    hide PatternsUsable, PatternTasks, Sorted;
  }

  /** A keyword that is absent asks for nothing. */
  lemma NothingAsked(i: map<string, Json>, v: Opinion)
    ensures PropertiesHold(map[], i, v) && PatternPropertiesHold(map[], i, v)
  {
  }

  lemma ObjectDecides(o: map<string, Json>, instance: Json, pointer: string, run: Runner, v: Opinion)
    requires Sound(run, v)
    ensures Decides(ObjectErrors(o, instance, pointer, run), ObjectHolds(o, instance, v))
  {
    hide RequiredErrors, PropertiesErrors, AdditionalKeyErrors, PatternPropertyErrors, Sound;
    hide RequiredHolds, PropertiesHold, PatternPropertiesHold, AdditionalHolds;
    if instance.Object? {
      var i := instance.members;
      var properties, patterns := ObjectAt(o, "properties"), ObjectAt(o, "patternProperties");
      if properties.Some? && patterns.Some? {
        if "required" in o && o["required"].Array? { RequiredDecides(o["required"].items, i, pointer); }
        PropertiesDecide(properties.value, i, pointer, run, v);
        PatternPropertiesDecide(patterns.value, i, pointer, run, v);
        PatternsAreUsable(patterns.value, i, pointer, run);
        NothingAsked(i, v);
        if PatternPropertyErrors(patterns.value, i, pointer, run).Ok? {
          AdditionalKeyDecides(o, properties.value, patterns.value, i, pointer, run, v);
        }
      }
    }
  }

  lemma PrefixDecides(schemas: seq<Json>, items: seq<Json>, pointer: string, run: Runner, v: Opinion)
    requires Sound(run, v)
    ensures Decides(Flat(run(PrefixTasks(schemas, items, pointer))), PrefixHolds(schemas, items, v))
  {
    var tasks := PrefixTasks(schemas, items, pointer);
    RunDecides(run, v, tasks);
    assert forall k | 0 <= k < |tasks| :: tasks[k] == ItemTask(schemas[k], items, k, pointer);
  }

  lemma ItemsDecide(o: map<string, Json>, from: nat, items: seq<Json>, pointer: string, run: Runner, v: Opinion)
    requires Sound(run, v)
    ensures Decides(ItemsErrors(o, from, items, pointer, run), "items" in o ==> RestHolds(o["items"], from, items, v))
  {
    if "items" in o {
      var tasks := RestTasks(o["items"], from, items, pointer);
      RunDecides(run, v, tasks);
      assert forall k | 0 <= k < |tasks| :: tasks[k] == ItemTask(o["items"], items, from + k, pointer);
      forall k | from <= k < |items| ensures tasks[k - from].schema == o["items"]
        && tasks[k - from].instance == items[k] { }
    }
  }

  lemma ArrayDecides(o: map<string, Json>, instance: Json, pointer: string, run: Runner, v: Opinion)
    requires Sound(run, v)
    ensures Decides(ArrayErrors(o, instance, pointer, run), ArrayHolds(o, instance, v))
  {
    hide PrefixTasks, ItemsErrors, PrefixHolds, RestHolds, Flat, BoundErrors, WithinBound, Sound;
    if instance.Array? {
      BoundDecides(o, "minItems", |instance.items|, false, pointer);
      BoundDecides(o, "maxItems", |instance.items|, true, pointer);
      var prefix := ArrayAt(o, "prefixItems");
      if prefix.Some? {
        PrefixDecides(prefix.value, instance.items, pointer, run, v);
        ItemsDecide(o, |prefix.value|, instance.items, pointer, run, v);
      }
    }
  }

  lemma StringDecides(o: map<string, Json>, instance: Json, pointer: string)
    ensures Decides(StringErrors(o, instance, pointer), StringHolds(o, instance))
  {
    hide BoundErrors, WithinBound, PatternMatches, PatternAccepts, PatternSupported;
    if instance.String? {
      BoundDecides(o, "minLength", |instance.text|, false, pointer);
      BoundDecides(o, "maxLength", |instance.text|, true, pointer);
      if "pattern" in o && o["pattern"].String? && PatternSupported(o["pattern"].text) {
        PatternMeans(o["pattern"].text, instance.text);
      }
    }
  }

  lemma NumberDecides(numbers: Numbers, o: map<string, Json>, instance: Json, pointer: string)
    ensures Decides(NumberErrors(numbers, o, instance, pointer), NumberHolds(numbers, o, instance))
  {
    hide FitsFormat, FormatAdmits, FormatSupported;
    if instance.Number? && "format" in o && o["format"].String? { FormatMeans(instance.token, o["format"].text); }
  }

  /** If subschemas are judged as `v` judges them, so is the whole schema object, one unfolding up. */
  lemma SchemaDecides(numbers: Numbers, root: Json, o: map<string, Json>, i: Json, pointer: string, run: Runner,
                      v: Opinion)
    requires Sound(run, v)
    ensures Decides(SchemaErrors(numbers, root, o, i, pointer, run), KeywordsHold(numbers, root, o, i, v))
  {
    hide RefErrors, CombinatorErrors, TypeErrors, EnumConstErrors, ObjectErrors, ArrayErrors, StringErrors,
      NumberErrors, Sound;
    hide RefHolds, CombinatorsHold, TypeHolds, EnumConstHold, ObjectHolds, ArrayHolds, StringHolds, NumberHolds;
    RefDecides(root, o, i, pointer, run, v);
    CombinatorsDecide(o, i, pointer, run, v);
    TypeDecides(numbers, o, i, pointer);
    EnumConstDecides(o, i, pointer);
    ObjectDecides(o, i, pointer, run, v);
    ArrayDecides(o, i, pointer, run, v);
    StringDecides(o, i, pointer);
    NumberDecides(numbers, o, i, pointer);
  }

  lemma EnumConstDecides(o: map<string, Json>, i: Json, pointer: string)
    ensures Decides(EnumConstErrors(o, i, pointer), EnumConstHold(o, i))
  {
  }

  // ------------------------------------------------------------------ the answer does not depend on the depth

  /** Wherever `run` answers, `other` gives the same answer. */
  ghost predicate Extends(run: Runner, other: Runner) {
    forall tasks :: run(tasks).Ok? ==> other(tasks) == run(tasks)
  }

  /** Wherever `e` answers, `f` gives the same answer. */
  ghost predicate Kept(e: Errors, f: Errors) { e.Ok? ==> f == e }

  lemma CombinatorsKept(o: map<string, Json>, i: Json, pointer: string, run: Runner, other: Runner)
    requires Extends(run, other)
    ensures Kept(CombinatorErrors(o, i, pointer, run), CombinatorErrors(o, i, pointer, other))
  {
    hide SameInstance, Judge, Flatten;
  }

  lemma ObjectKept(o: map<string, Json>, i: Json, pointer: string, run: Runner, other: Runner)
    requires Extends(run, other)
    ensures Kept(ObjectErrors(o, i, pointer, run), ObjectErrors(o, i, pointer, other))
  {
    hide RequiredKeyErrors, PropertyTasks, PatternTasks, PatternsUsable, ChildTasks, ChildPointers, Sorted, Flatten,
      ObjectAt;
  }

  lemma ArrayKept(o: map<string, Json>, i: Json, pointer: string, run: Runner, other: Runner)
    requires Extends(run, other)
    ensures Kept(ArrayErrors(o, i, pointer, run), ArrayErrors(o, i, pointer, other))
  {
    hide BoundErrors, PrefixTasks, RestTasks, Flatten, ArrayAt;
  }

  lemma RefKept(root: Json, o: map<string, Json>, i: Json, pointer: string, run: Runner, other: Runner)
    requires Extends(run, other)
    ensures Kept(RefErrors(root, o, i, pointer, run), RefErrors(root, o, i, pointer, other))
  {
    hide Flatten, ResolveLocal;
  }

  lemma SchemaKept(numbers: Numbers, root: Json, o: map<string, Json>, i: Json, pointer: string, run: Runner,
                   other: Runner)
    requires Extends(run, other)
    ensures Kept(SchemaErrors(numbers, root, o, i, pointer, run), SchemaErrors(numbers, root, o, i, pointer, other))
  {
    hide RefErrors, CombinatorErrors, TypeErrors, EnumConstErrors, ObjectErrors, ArrayErrors, StringErrors,
      NumberErrors, Extends;
    RefKept(root, o, i, pointer, run, other);
    CombinatorsKept(o, i, pointer, run, other);
    ObjectKept(o, i, pointer, run, other);
    ArrayKept(o, i, pointer, run, other);
  }

  /** An answer found from some depth is found from every smaller depth. */
  lemma {:induction false} DepthIndependent(numbers: Numbers, root: Json, schema: Json, i: Json, pointer: string,
                                            depth: nat, less: nat)
    requires less <= depth
    ensures Kept(Eval(numbers, root, schema, i, pointer, depth), Eval(numbers, root, schema, i, pointer, less))
    decreases Remaining(depth), 0
  {
    hide SchemaErrors, Audited;
    if depth <= MAX_DEPTH && schema.Object? {
      var run, other := Nested(numbers, root, depth), Nested(numbers, root, less);
      forall tasks ensures run(tasks).Ok? ==> other(tasks) == run(tasks) {
        EachDepthIndependent(numbers, root, tasks, depth + 1, less + 1);
      }
      SchemaKept(numbers, root, schema.members, i, pointer, run, other);
    }
  }

  lemma {:induction false} EachDepthIndependent(numbers: Numbers, root: Json, tasks: seq<Task>, depth: nat, less: nat)
    requires less <= depth
    ensures EvalEach(numbers, root, tasks, depth).Ok? ==>
      EvalEach(numbers, root, tasks, less) == EvalEach(numbers, root, tasks, depth)
    decreases Remaining(depth), 1, |tasks|
  {
    hide Eval;
    if tasks != [] {
      EachDepthIndependent(numbers, root, tasks[1..], depth, less);
      DepthIndependent(numbers, root, tasks[0].schema, tasks[0].instance, tasks[0].pointer, depth, less);
    }
  }

  // ------------------------------------------------------------------ the boolean meaning

  /** Every opinion of the chain after the first is the unfolding of its predecessor. */
  ghost predicate IsChain(numbers: Numbers, root: Json, w: nat -> Opinion) {
    forall n: nat, schema, i :: w(n + 1)(schema, i) <==> Unfold(numbers, root, schema, i, w(n))
  }

  /** An answer from some depth is empty exactly when the schema holds, unfolded often enough from anywhere. */
  lemma {:induction false} AnswerIsMeaning(numbers: Numbers, root: Json, schema: Json, i: Json, pointer: string,
                                           depth: nat, w: nat -> Opinion, n: nat)
    requires IsChain(numbers, root, w)
    requires n >= Remaining(depth)
    ensures Decides(Eval(numbers, root, schema, i, pointer, depth), w(n)(schema, i))
    decreases Remaining(depth), 0
  {
    hide SchemaErrors, KeywordsHold, Audited;
    if depth <= MAX_DEPTH {
      var m := n - 1;
      assert w(m + 1)(schema, i) <==> Unfold(numbers, root, schema, i, w(m));
      if schema.Object? {
        var run := Nested(numbers, root, depth);
        forall tasks ensures Faithful(run(tasks), tasks, w(m)) {
          AnswersAreMeanings(numbers, root, tasks, depth + 1, w, m);
        }
        SchemaDecides(numbers, root, schema.members, i, pointer, run, w(m));
      }
    }
  }

  lemma {:induction false} AnswersAreMeanings(numbers: Numbers, root: Json, tasks: seq<Task>, depth: nat,
                                              w: nat -> Opinion, n: nat)
    requires IsChain(numbers, root, w)
    requires n >= Remaining(depth)
    ensures Faithful(EvalEach(numbers, root, tasks, depth), tasks, w(n))
    decreases Remaining(depth), 1, |tasks|
  {
    hide Eval, IsChain;
    if tasks != [] {
      AnswersAreMeanings(numbers, root, tasks[1..], depth, w, n);
      AnswerIsMeaning(numbers, root, tasks[0].schema, tasks[0].instance, tasks[0].pointer, depth, w, n);
    }
  }

  /** An answer is empty exactly when the schema holds in every opinion that satisfies all the equations. */
  lemma AnswerIsEveryFixpoint(numbers: Numbers, root: Json, schema: Json, i: Json, pointer: string, depth: nat,
                              v: Opinion)
    requires forall s, j :: v(s, j) <==> Unfold(numbers, root, s, j, v)
    ensures Decides(Eval(numbers, root, schema, i, pointer, depth), v(schema, i))
  {
    hide Unfold, Eval;
    var w: nat -> Opinion := n => v;
    AnswerIsMeaning(numbers, root, schema, i, pointer, depth, w, Remaining(depth));
  }

  /** The opinion after `n` unfoldings of `v`. */
  ghost function Unfolded(numbers: Numbers, root: Json, v: Opinion, n: nat): Opinion {
    if n == 0 then v
    else
      var inner := Unfolded(numbers, root, v, n - 1);
      (schema, i) => Unfold(numbers, root, schema, i, inner)
  }

  /** However the unfolding starts, an answer settles what the schema means from then on. */
  lemma AnswerIsStable(numbers: Numbers, root: Json, schema: Json, i: Json, pointer: string, depth: nat, v: Opinion,
                       n: nat)
    requires n >= Remaining(depth)
    ensures Decides(Eval(numbers, root, schema, i, pointer, depth), Unfolded(numbers, root, v, n)(schema, i))
  {
    hide Unfold, Eval;
    var w: nat -> Opinion := (n: nat) => Unfolded(numbers, root, v, n);
    AnswerIsMeaning(numbers, root, schema, i, pointer, depth, w, n);
  }
}
