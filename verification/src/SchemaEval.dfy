/**
 The offline JSON Schema evaluator of the fixture verifier (xtask/src/fixtures.rs:3263-3860). It
 collects error pointers, follows local `$ref`s to a bounded depth and refuses schemas it does not
 understand. `Eval` says what one call appends; `SchemaMeaning` says what that has to do with validity.
 */
module SchemaEval {
  import opened Prelude
  import opened StringOrder
  import opened Json
  import opened JsonPointer

  datatype Refusal = InvalidSnapshot

  /** The error pointers one call appends, or a refusal. */
  type Errors = Result<seq<string>, Refusal>

  /** A subschema to be evaluated against a part of the instance. */
  datatype Task = Task(schema: Json, instance: Json, pointer: string)

  /** The error lists of several tasks, in order. */
  type Outcomes = Result<seq<seq<string>>, Refusal>

  type Runner = seq<Task> -> Outcomes

  datatype Comparison = Greater | GreaterOrEqual | LessOrEqual

  /** The floating point questions asked about number tokens. */
  datatype Numbers = Numbers(whole: string -> bool, compare: (Comparison, string, string) -> bool)

  const MAX_DEPTH: nat := 256

  function Then(a: Errors, b: Errors): Errors {
    if a.Err? then a else if b.Err? then b else Ok(a.value + b.value)
  }

  function Append(errors: seq<string>, e: Errors): Errors {
    Then(Ok(errors), e)
  }

  function Flatten(lists: seq<seq<string>>): seq<string> {
    if lists == [] then [] else lists[0] + Flatten(lists[1..])
  }

  function Cons(first: Errors, rest: Outcomes): Outcomes {
    if first.Err? then Err(first.error) else if rest.Err? then rest else Ok([first.value] + rest.value)
  }

  function Flat(o: Outcomes): Errors {
    if o.Err? then Err(o.error) else Ok(Flatten(o.value))
  }

  function ErrorIf(bad: bool, pointer: string): Errors {
    Ok(if bad then [pointer] else [])
  }

  // ------------------------------------------------------------------ keyword tables

  predicate SupportedKey(key: string) {
    || key in {"$schema", "$id", "$comment", "$ref", "$defs", "definitions", "components", "title", "description"}
    || key in {"discriminator", "default", "examples", "deprecated", "readOnly", "writeOnly", "type", "properties"}
    || key in {"required", "additionalProperties", "patternProperties", "items", "prefixItems", "anyOf", "oneOf",
      "allOf"}
    || key in {"not", "enum", "const", "minimum", "maximum", "exclusiveMinimum", "minLength", "maxLength", "minItems"}
    || key in {"maxItems", "pattern", "format", "contentMediaType", "contentSchema"}
    || (|key| >= 2 && key[..2] == "x-")
  }

  predicate IsHex(c: char) { '0' <= c <= '9' || 'a' <= c <= 'f' || 'A' <= c <= 'F' }

  predicate IsColor(text: string) {
    |text| == 7 && text[0] == '#' && forall i | 1 <= i < 7 :: IsHex(text[i])
  }

  predicate PrefixPattern(pattern: string) {
    pattern in {"^evt_", "^ses", "^msg_", "^msg", "^prt", "^que", "^per", "^pty", "^wrk"}
  }

  predicate PatternSupported(pattern: string) { PrefixPattern(pattern) || pattern == "^#[0-9a-fA-F]{6}$" }

  /** The meaning of a supported pattern. */
  predicate PatternMatches(pattern: string, text: string) {
    if PrefixPattern(pattern) && |pattern| > 0 then StartsWith(text, pattern[1..])
    else pattern == "^#[0-9a-fA-F]{6}$" && IsColor(text)
  }

  predicate FormatSupported(format: string) {
    format in {"int64", "int32", "uint64", "uint32", "uint16", "uint", "double", "binary"}
  }

  /** The keys, patterns and formats of a schema object are all understood. */
  predicate Audited(o: map<string, Json>) {
    && (forall k | k in o :: SupportedKey(k))
    && ("pattern" in o && o["pattern"].String? ==> PatternSupported(o["pattern"].text))
    && ("patternProperties" in o ==>
          o["patternProperties"].Object? && forall p | p in o["patternProperties"].members :: PatternSupported(p))
    && ("format" in o && o["format"].String? ==> FormatSupported(o["format"].text))
  }

  // ------------------------------------------------------------------ references and combinators

  function RefErrors(root: Json, o: map<string, Json>, instance: Json, pointer: string, run: Runner): Errors {
    if "$ref" !in o || !o["$ref"].String? then Ok([])
    else
      var target := ResolveLocal(root, o["$ref"].text);
      if target.None? then Err(InvalidSnapshot) else Flat(run([Task(target.value, instance, pointer)]))
  }

  function SameInstance(schemas: seq<Json>, instance: Json, pointer: string): (tasks: seq<Task>)
    ensures |tasks| == |schemas|
    ensures forall i | 0 <= i < |schemas| :: tasks[i] == Task(schemas[i], instance, pointer)
  {
    seq(|schemas|, i requires 0 <= i < |schemas| => Task(schemas[i], instance, pointer))
  }

  function AllOfErrors(o: map<string, Json>, instance: Json, pointer: string, run: Runner): Errors {
    if "allOf" !in o then Ok([])
    else if !o["allOf"].Array? then Err(InvalidSnapshot)
    else Flat(run(SameInstance(o["allOf"].items, instance, pointer)))
  }

  function Successes(lists: seq<seq<string>>): nat {
    if lists == [] then 0 else Successes(lists[..|lists| - 1]) + (if lists[|lists| - 1] == [] then 1 else 0)
  }

  /** The first of the shortest non-empty error lists. */
  function Best(lists: seq<seq<string>>): (best: Option<seq<string>>)
    ensures best.Some? ==> best.value != []
  {
    if lists == [] then None
    else
      var front, last := Best(lists[..|lists| - 1]), lists[|lists| - 1];
      if last == [] then front
      else if front.None? || |last| < |front.value| then Some(last)
      else front
  }

  function Judge(lists: seq<seq<string>>, pointer: string, exactlyOne: bool): seq<string> {
    var n := Successes(lists);
    if if exactlyOne then n == 1 else n >= 1 then []
    else if n > 1 then [pointer]
    else if Best(lists).Some? then Best(lists).value
    else [pointer]
  }

  function AlternativeErrors(key: string, exactlyOne: bool, o: map<string, Json>, instance: Json, pointer: string,
                             run: Runner): Errors {
    if key !in o then Ok([])
    else if !o[key].Array? then Err(InvalidSnapshot)
    else
      var lists := run(SameInstance(o[key].items, instance, pointer));
      if lists.Err? then Err(lists.error) else Ok(Judge(lists.value, pointer, exactlyOne))
  }

  function NotErrors(o: map<string, Json>, instance: Json, pointer: string, run: Runner): Errors {
    if "not" !in o then Ok([])
    else
      var nested := Flat(run([Task(o["not"], instance, pointer)]));
      if nested.Err? then nested else ErrorIf(nested.value == [], pointer)
  }

  function CombinatorErrors(o: map<string, Json>, instance: Json, pointer: string, run: Runner): Errors {
    Then(Then(Then(
      AllOfErrors(o, instance, pointer, run),
      AlternativeErrors("anyOf", false, o, instance, pointer, run)),
      AlternativeErrors("oneOf", true, o, instance, pointer, run)),
      NotErrors(o, instance, pointer, run))
  }

  // ------------------------------------------------------------------ plain keywords

  predicate KnownType(name: string) {
    name in {"null", "boolean", "object", "array", "string", "number", "integer"}
  }

  predicate HasType(numbers: Numbers, instance: Json, name: string) {
    match instance
    case Null => name == "null"
    case Bool(_) => name == "boolean"
    case Object(_) => name == "object"
    case Array(_) => name == "array"
    case String(_) => name == "string"
    case Number(t) => name == "number" || (name == "integer" && numbers.whole(t))
  }

  function TypeErrors(numbers: Numbers, o: map<string, Json>, instance: Json, pointer: string): Errors {
    if "type" !in o then Ok([])
    else match o["type"]
      case String(name) =>
        if !KnownType(name) then Err(InvalidSnapshot) else ErrorIf(!HasType(numbers, instance, name), pointer)
      case Array(names) =>
        if exists i | 0 <= i < |names| :: !names[i].String? || !KnownType(names[i].text) then Err(InvalidSnapshot)
        else ErrorIf(!exists i | 0 <= i < |names| :: HasType(numbers, instance, names[i].text), pointer)
      case _ => Err(InvalidSnapshot)
  }

  function EnumConstErrors(o: map<string, Json>, instance: Json, pointer: string): Errors {
    Then(
      ErrorIf("enum" in o && o["enum"].Array? && instance !in o["enum"].items, pointer),
      ErrorIf("const" in o && o["const"] != instance, pointer))
  }

  function AsU64(j: Json): Option<nat> {
    if j.Number? && j.token != "" && AllDigits(j.token) && DecimalValue(j.token) <= U64_MAX
      then Some(DecimalValue(j.token))
    else None
  }

  function BoundErrors(o: map<string, Json>, key: string, actual: nat, maximum: bool, pointer: string): Errors {
    if key !in o then Ok([])
    else
      var bound := AsU64(o[key]);
      if bound.None? then Err(InvalidSnapshot)
      else ErrorIf(!if maximum then actual <= bound.value else actual >= bound.value, pointer)
  }

  function StringErrors(o: map<string, Json>, instance: Json, pointer: string): Errors {
    if !instance.String? then Ok([])
    else Then(Then(
      BoundErrors(o, "minLength", |instance.text|, false, pointer),
      BoundErrors(o, "maxLength", |instance.text|, true, pointer)),
      PatternErrors(o, instance.text, pointer))
  }

  function PatternErrors(o: map<string, Json>, text: string, pointer: string): Errors {
    if "pattern" !in o then Ok([])
    else if !o["pattern"].String? || !PatternSupported(o["pattern"].text) then Err(InvalidSnapshot)
    else ErrorIf(!PatternMatches(o["pattern"].text, text), pointer)
  }

  function LimitErrors(numbers: Numbers, o: map<string, Json>, key: string, comparison: Comparison, token: string,
                       pointer: string): Errors {
    if key !in o then Ok([])
    else if !o[key].Number? then Err(InvalidSnapshot)
    else ErrorIf(!numbers.compare(comparison, token, o[key].token), pointer)
  }

  predicate UnsignedUpTo(t: string, greatest: nat) { t != "" && AllDigits(t) && DecimalValue(t) <= greatest }

  /** A plain integer token of the signed type whose greatest value is given. */
  predicate SignedUpTo(t: string, greatest: nat) {
    UnsignedUpTo(t, greatest) || (t != "" && t[0] == '-' && UnsignedUpTo(t[1..], greatest + 1))
  }

  predicate FitsFormat(t: string, format: string) {
    match format
    case "int64" => SignedUpTo(t, 0x7fff_ffff_ffff_ffff)
    case "int32" => SignedUpTo(t, 0x7fff_ffff)
    case "uint64" => UnsignedUpTo(t, U64_MAX)
    case "uint" => UnsignedUpTo(t, U64_MAX)
    case "uint32" => UnsignedUpTo(t, 0xffff_ffff)
    case "uint16" => UnsignedUpTo(t, 0xffff)
    case _ => format == "double"
  }

  function FormatErrors(o: map<string, Json>, token: string, pointer: string): Errors {
    if "format" !in o then Ok([])
    else if !o["format"].String? || !FormatSupported(o["format"].text) then Err(InvalidSnapshot)
    else ErrorIf(!FitsFormat(token, o["format"].text), pointer)
  }

  function NumberErrors(numbers: Numbers, o: map<string, Json>, instance: Json, pointer: string): Errors {
    if !instance.Number? then Ok([])
    else
      var t := instance.token;
      Then(Then(Then(
        LimitErrors(numbers, o, "minimum", GreaterOrEqual, t, pointer),
        LimitErrors(numbers, o, "maximum", LessOrEqual, t, pointer)),
        LimitErrors(numbers, o, "exclusiveMinimum", Greater, t, pointer)),
        FormatErrors(o, t, pointer))
  }

  // ------------------------------------------------------------------ objects

  function RequiredErrors(required: seq<Json>, instance: map<string, Json>, pointer: string): Errors {
    if required == [] then Ok([])
    else
      var first := required[0];
      Then(if !first.String? then Err(InvalidSnapshot) else ErrorIf(first.text !in instance,
        ChildPointer(pointer, first.text)),
           RequiredErrors(required[1..], instance, pointer))
  }

  function RequiredKeyErrors(o: map<string, Json>, instance: map<string, Json>, pointer: string): Errors {
    if "required" !in o then Ok([])
    else if !o["required"].Array? then Err(InvalidSnapshot)
    else RequiredErrors(o["required"].items, instance, pointer)
  }

  function PropertyTask(schema: Json, instance: map<string, Json>, key: string, pointer: string): Task
    requires key in instance
  {
    Task(schema, instance[key], ChildPointer(pointer, key))
  }

  function PropertyTasks(properties: map<string, Json>, keys: seq<string>, instance: map<string, Json>,
                         pointer: string): seq<Task>
    requires forall i | 0 <= i < |keys| :: keys[i] in properties
  {
    if keys == [] then []
    else
      var rest := PropertyTasks(properties, keys[1..], instance, pointer);
      if keys[0] in instance then [PropertyTask(properties[keys[0]], instance, keys[0], pointer)] + rest else rest
  }

  function PropertiesErrors(properties: map<string, Json>, instance: map<string, Json>, pointer: string,
                            run: Runner): Errors {
    var keys := Sorted(properties.Keys);
    assert forall i | 0 <= i < |keys| :: keys[i] in properties.Keys;
    Flat(run(PropertyTasks(properties, keys, instance, pointer)))
  }

  /** The tasks of one pattern: every property it matches. */
  function MatchTasks(pattern: string, schema: Json, keys: seq<string>, instance: map<string, Json>,
                      pointer: string): seq<Task>
    requires forall i | 0 <= i < |keys| :: keys[i] in instance
  {
    if keys == [] then []
    else
      var rest := MatchTasks(pattern, schema, keys[1..], instance, pointer);
      if PatternMatches(pattern, keys[0]) then [PropertyTask(schema, instance, keys[0], pointer)] + rest else rest
  }

  function PatternTasks(patterns: map<string, Json>, names: seq<string>, keys: seq<string>, instance: map<string, Json>,
                        pointer: string): seq<Task>
    requires forall i | 0 <= i < |names| :: names[i] in patterns
    requires forall i | 0 <= i < |keys| :: keys[i] in instance
  {
    if names == [] then []
    else
      MatchTasks(names[0], patterns[names[0]], keys, instance, pointer)
      + PatternTasks(patterns, names[1..], keys, instance, pointer)
  }

  /** All supported: otherwise the first property met would be refused. */
  predicate PatternsUsable(patterns: map<string, Json>, instance: map<string, Json>) {
    instance.Keys == {} || forall p | p in patterns :: PatternSupported(p)
  }

  function PatternPropertyErrors(patterns: map<string, Json>, instance: map<string, Json>, pointer: string,
                                 run: Runner): Errors {
    if !PatternsUsable(patterns, instance) then Err(InvalidSnapshot)
    else
      var names, keys := Sorted(patterns.Keys), Sorted(instance.Keys);
      assert forall i | 0 <= i < |names| :: names[i] in patterns.Keys;
      assert forall i | 0 <= i < |keys| :: keys[i] in instance.Keys;
      Flat(run(PatternTasks(patterns, names, keys, instance, pointer)))
  }

  /** A property that neither `properties` nor a pattern speaks about. */
  predicate Undeclared(properties: map<string, Json>, patterns: map<string, Json>, key: string) {
    key !in properties && forall p | p in patterns :: !PatternMatches(p, key)
  }

  function UndeclaredKeys(properties: map<string, Json>, patterns: map<string, Json>,
                          keys: seq<string>): (out: seq<string>)
    ensures forall k :: k in out <==> k in keys && Undeclared(properties, patterns, k)
  {
    if keys == [] then []
    else
      var rest := UndeclaredKeys(properties, patterns, keys[1..]);
      if Undeclared(properties, patterns, keys[0]) then [keys[0]] + rest else rest
  }

  function ChildPointers(keys: seq<string>, pointer: string): (out: seq<string>)
    ensures |out| == |keys|
  {
    if keys == [] then [] else [ChildPointer(pointer, keys[0])] + ChildPointers(keys[1..], pointer)
  }

  function ChildTasks(schema: Json, keys: seq<string>, instance: map<string, Json>, pointer: string): (tasks: seq<Task>)
    requires forall i | 0 <= i < |keys| :: keys[i] in instance
    ensures |tasks| == |keys|
    ensures forall i | 0 <= i < |keys| :: tasks[i] == PropertyTask(schema, instance, keys[i], pointer)
  {
    if keys == [] then []
    else [PropertyTask(schema, instance, keys[0], pointer)] + ChildTasks(schema, keys[1..], instance, pointer)
  }

  function AdditionalErrors(additional: Json, keys: seq<string>, instance: map<string, Json>, pointer: string,
                            run: Runner): Errors
    requires forall i | 0 <= i < |keys| :: keys[i] in instance
  {
    if keys == [] then Ok([])
    else match additional
      case Bool(allowed) => Ok(if allowed then [] else ChildPointers(keys, pointer))
      case Object(_) => Flat(run(ChildTasks(additional, keys, instance, pointer)))
      case _ => Err(InvalidSnapshot)
  }

  function AdditionalKeyErrors(o: map<string, Json>, properties: map<string, Json>, patterns: map<string, Json>,
                               instance: map<string, Json>, pointer: string, run: Runner): Errors
  {
    if "additionalProperties" !in o then Ok([])
    else
      var all := Sorted(instance.Keys);
      var keys := UndeclaredKeys(properties, patterns, all);
      assert forall i | 0 <= i < |keys| :: keys[i] in all && keys[i] in instance.Keys;
      AdditionalErrors(o["additionalProperties"], keys, instance, pointer, run)
  }

  /** A keyword whose value has to be an object; absent counts as empty. */
  function ObjectAt(o: map<string, Json>, key: string): Option<map<string, Json>> {
    if key !in o then Some(map[]) else if o[key].Object? then Some(o[key].members) else None
  }

  function ObjectErrors(o: map<string, Json>, instance: Json, pointer: string, run: Runner): Errors {
    if !instance.Object? then Ok([])
    else
      var properties, patterns := ObjectAt(o, "properties"), ObjectAt(o, "patternProperties");
      if properties.None? || patterns.None? then Err(InvalidSnapshot)
      else Then(Then(Then(
        RequiredKeyErrors(o, instance.members, pointer),
        PropertiesErrors(properties.value, instance.members, pointer, run)),
        PatternPropertyErrors(patterns.value, instance.members, pointer, run)),
        AdditionalKeyErrors(o, properties.value, patterns.value, instance.members, pointer, run))
  }

  // ------------------------------------------------------------------ arrays

  function ItemTask(schema: Json, items: seq<Json>, index: nat, pointer: string): Task
    requires index < |items|
  {
    Task(schema, items[index], ChildPointer(pointer, NatText(index)))
  }

  function PrefixTasks(schemas: seq<Json>, items: seq<Json>, pointer: string): (tasks: seq<Task>) {
    var n := if |schemas| < |items| then |schemas| else |items|;
    seq(n, i requires 0 <= i < n => ItemTask(schemas[i], items, i, pointer))
  }

  function RestTasks(schema: Json, from: nat, items: seq<Json>, pointer: string): (tasks: seq<Task>) {
    var n := if from < |items| then |items| - from else 0;
    seq(n, i requires 0 <= i < n => ItemTask(schema, items, from + i, pointer))
  }

  function ArrayAt(o: map<string, Json>, key: string): Option<seq<Json>> {
    if key !in o then Some([]) else if o[key].Array? then Some(o[key].items) else None
  }

  function ItemsErrors(o: map<string, Json>, from: nat, items: seq<Json>, pointer: string, run: Runner): Errors {
    if "items" !in o then Ok([]) else Flat(run(RestTasks(o["items"], from, items, pointer)))
  }

  function ArrayErrors(o: map<string, Json>, instance: Json, pointer: string, run: Runner): Errors {
    if !instance.Array? then Ok([])
    else
      var prefix := ArrayAt(o, "prefixItems");
      Then(Then(Then(
        BoundErrors(o, "minItems", |instance.items|, false, pointer),
        BoundErrors(o, "maxItems", |instance.items|, true, pointer)),
        if prefix.None? then Err(InvalidSnapshot) else Flat(run(PrefixTasks(prefix.value, instance.items, pointer)))),
        if prefix.None? then Err(InvalidSnapshot) else ItemsErrors(o, |prefix.value|, instance.items, pointer, run))
  }

  // ------------------------------------------------------------------ evaluation

  function SchemaErrors(numbers: Numbers, root: Json, o: map<string, Json>, instance: Json, pointer: string,
                        run: Runner): Errors {
    Then(Then(Then(Then(Then(Then(Then(
      RefErrors(root, o, instance, pointer, run),
      CombinatorErrors(o, instance, pointer, run)),
      TypeErrors(numbers, o, instance, pointer)),
      EnumConstErrors(o, instance, pointer)),
      ObjectErrors(o, instance, pointer, run)),
      ArrayErrors(o, instance, pointer, run)),
      StringErrors(o, instance, pointer)),
      NumberErrors(numbers, o, instance, pointer))
  }

  function Remaining(depth: nat): nat { if depth > MAX_DEPTH then 0 else MAX_DEPTH + 1 - depth }

  /** What one call appends to the error list. */
  function Eval(numbers: Numbers, root: Json, schema: Json, instance: Json, pointer: string, depth: nat): Errors
    decreases Remaining(depth), 1
  {
    if depth > MAX_DEPTH then Err(InvalidSnapshot)
    else match schema
      case Bool(b) => ErrorIf(!b, pointer)
      case Object(o) =>
        if !Audited(o) then Err(InvalidSnapshot)
        else SchemaErrors(numbers, root, o, instance, pointer, Nested(numbers, root, depth))
      case _ => Err(InvalidSnapshot)
  }

  /** The evaluation of subschemas, one level deeper. */
  function Nested(numbers: Numbers, root: Json, depth: nat): Runner
    requires depth <= MAX_DEPTH
    decreases Remaining(depth), 0
  {
    tasks => EvalEach(numbers, root, tasks, depth + 1)
  }

  function EvalEach(numbers: Numbers, root: Json, tasks: seq<Task>, depth: nat): Outcomes
    decreases Remaining(depth), 2, |tasks|
  {
    if tasks == [] then Ok([])
    else
      Cons(Eval(numbers, root, tasks[0].schema, tasks[0].instance, tasks[0].pointer, depth),
           EvalEach(numbers, root, tasks[1..], depth))
  }
}
