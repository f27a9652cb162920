/**
 Request and response matching over a recorded Codex trace (xtask/src/fixtures.rs:2236-2385,
 2558-2625). The scan keeps a map of outstanding requests; the theorem says what the absence of
 correlation issues means for the whole trace (section 5 of JSON-RPC 2.0).
 */
module Trace {
  import opened Prelude
  import opened StringOrder
  import opened Json
  import opened JsonPointer
  import opened SchemaEval
  import SchemaValidator

  datatype Direction = C2s | S2c

  function Opposite(d: Direction): Direction { if d == C2s then S2c else C2s }

  datatype Record = Record(line: nat, direction: Direction, payload: Json)

  /** Who asked, and under which id. */
  datatype Key = Key(origin: Direction, id: string)

  datatype Pending = Pending(method_: string, line: nat)

  datatype Catalog = Catalog(
    clientRequests: map<string, Json>, serverRequests: map<string, Json>,
    clientNotifications: map<string, Json>, serverNotifications: map<string, Json>,
    responses: map<(Direction, string), Json>, successWrapper: Json, errorWrapper: Json)

  datatype Category =
    | MethodNotString | UnknownMethod | MethodInvalid
    | RequestIdIllegal | DuplicateOutstanding
    | ResponseIdIllegal | UnknownResponseId | EnvelopeInvalid | ResultInvalid | ErrorInvalid | NeitherResultNorError
    | Unanswered

  datatype Issue = Issue(file: string, line: nat, category: Category, pointer: string)

  datatype Failure = InvalidPayload | InvalidSchema | InvalidMapping

  type Issues = Result<seq<Issue>, Failure>

  /** The issues that are about matching rather than about one message. */
  predicate Correlation(i: Issue) {
    i.category in {DuplicateOutstanding, UnknownResponseId, Unanswered}
  }

  predicate Uncorrelated(issues: seq<Issue>) {
    forall k | 0 <= k < |issues| :: !Correlation(issues[k])
  }

  // ------------------------------------------------------------------ ids

  predicate IntegerToken(t: string) { SignedUpTo(t, 0x7fff_ffff_ffff_ffff) || UnsignedUpTo(t, U64_MAX) }

  /** Strings and integers are kept apart by a prefix. */
  function RequestIdKey(id: Json): Option<string> {
    match id
    case String(text) => Some("s:" + text)
    case Number(token) => if IntegerToken(token) then Some("n:" + token) else None
    case _ => None
  }

  lemma RequestIdKeyInjective(a: Json, b: Json)
    requires RequestIdKey(a).Some? && RequestIdKey(a) == RequestIdKey(b)
    ensures a == b
  {
    hide IntegerToken;
    var x := RequestIdKey(a).value;
    assert x[2..] == match a case String(t) => t case Number(t) => t case _ => "";
    assert x[2..] == match b case String(t) => t case Number(t) => t case _ => "";
    assert x[0] == 's' <==> a.String?;
    assert x[0] == 's' <==> b.String?;
  }

  // ------------------------------------------------------------------ one record

  datatype Event = Ask(key: Key, pending: Pending) | Answer(key: Key) | Quiet

  function Table(c: Catalog, d: Direction, isRequest: bool): map<string, Json> {
    match (d, isRequest)
    case (C2s, true) => c.clientRequests
    case (S2c, true) => c.serverRequests
    case (C2s, false) => c.clientNotifications
    case (S2c, false) => c.serverNotifications
  }

  /** What a record does to the outstanding requests. Unknown methods and illegal ids do nothing. */
  function EventOf(c: Catalog, r: Record): Event {
    if !r.payload.Object? then Quiet
    else
      var o := r.payload.members;
      var id := if "id" in o then RequestIdKey(o["id"]) else None;
      if id.None? then Quiet
      else if "method" !in o then Answer(Key(Opposite(r.direction), id.value))
      else if o["method"].String? && o["method"].text in Table(c, r.direction, true) then
        Ask(Key(r.direction, id.value), Pending(o["method"].text, r.line))
      else Quiet
  }

  function After(pending: map<Key, Pending>, e: Event): map<Key, Pending> {
    match e
    case Ask(key, p) => pending[key := p]
    case Answer(key) => pending - {key}
    case Quiet => pending
  }

  /** A request under an id that is still outstanding, or a response that nothing waits for. */
  predicate Clash(pending: map<Key, Pending>, e: Event) {
    match e
    case Ask(key, _) => key in pending
    case Answer(key) => key !in pending
    case Quiet => false
  }

  function Located(prefix: string, pointers: seq<string>, file: string, line: nat,
                   category: Category): (out: seq<Issue>)
    ensures |out| == |pointers|
    ensures forall k | 0 <= k < |out| :: out[k].category == category
  {
    if pointers == [] then []
    else [Issue(file, line, category, prefix + pointers[0])] + Located(prefix, pointers[1..], file, line, category)
  }

  function InstanceIssues(numbers: Numbers, schema: Json, instance: Json, prefix: string, category: Category,
                          file: string, line: nat): Issues {
    var errors := Eval(numbers, schema, schema, instance, "", 0);
    if errors.Err? then Err(InvalidSchema) else Ok(Located(prefix, errors.value, file, line, category))
  }

  function Join(a: Issues, b: Issues): Issues {
    if a.Err? then a else if b.Err? then b else Ok(a.value + b.value)
  }

  function One(file: string, line: nat, category: Category, pointer: string): Issues {
    Ok([Issue(file, line, category, pointer)])
  }

  function TrackIssues(o: map<string, Json>, key: Option<Key>, pending: map<Key, Pending>, file: string,
                       line: nat): Issues {
    if key.None? then One(file, line, RequestIdIllegal, "/payload/id")
    else if key.value in pending then One(file, line, DuplicateOutstanding, "/payload/id")
    else Ok([])
  }

  function IdAt(o: map<string, Json>, origin: Direction): Option<Key> {
    if "id" !in o || RequestIdKey(o["id"]).None? then None else Some(Key(origin, RequestIdKey(o["id"]).value))
  }

  function MethodIssues(numbers: Numbers, c: Catalog, r: Record, pending: map<Key, Pending>, file: string): Issues
    requires r.payload.Object? && "method" in r.payload.members
  {
    var o := r.payload.members;
    if !o["method"].String? then One(file, r.line, MethodNotString, "/payload/method")
    else
      var schemas := Table(c, r.direction, "id" in o);
      if o["method"].text !in schemas then One(file, r.line, UnknownMethod, "/payload/method")
      else Join(InstanceIssues(numbers, schemas[o["method"].text], r.payload, "/payload", MethodInvalid, file, r.line),
                if "id" in o then TrackIssues(o, IdAt(o, r.direction), pending, file, r.line) else Ok([]))
  }

  function AnswerIssues(numbers: Numbers, c: Catalog, r: Record, origin: Direction, method_: string,
                        file: string): Issues
    requires r.payload.Object?
  {
    var o := r.payload.members;
    if "result" in o then
      Join(InstanceIssues(numbers, c.successWrapper, r.payload, "/payload", EnvelopeInvalid, file, r.line),
           if (origin, method_) !in c.responses then Err(InvalidMapping)
           else InstanceIssues(numbers, c.responses[(origin, method_)], o["result"], "/payload/result", ResultInvalid,
             file, r.line))
    else if "error" in o then InstanceIssues(numbers, c.errorWrapper, r.payload, "/payload", ErrorInvalid, file, r.line)
    else One(file, r.line, NeitherResultNorError, "/payload")
  }

  function ResponseIssues(numbers: Numbers, c: Catalog, r: Record, pending: map<Key, Pending>, file: string): Issues
    requires r.payload.Object?
  {
    var key := IdAt(r.payload.members, Opposite(r.direction));
    if key.None? then One(file, r.line, ResponseIdIllegal, "/payload/id")
    else if key.value !in pending then One(file, r.line, UnknownResponseId, "/payload/id")
    else AnswerIssues(numbers, c, r, key.value.origin, pending[key.value].method_, file)
  }

  function RecordIssues(numbers: Numbers, c: Catalog, r: Record, pending: map<Key, Pending>, file: string): Issues {
    if !r.payload.Object? then Err(InvalidPayload)
    else if "method" in r.payload.members then MethodIssues(numbers, c, r, pending, file)
    else ResponseIssues(numbers, c, r, pending, file)
  }

  // ------------------------------------------------------------------ the whole file

  function IdsOf(pending: map<Key, Pending>, d: Direction): set<string> {
    set k | k in pending && k.origin == d :: k.id
  }

  function KeysFor(d: Direction, ids: seq<string>): (keys: seq<Key>)
    ensures |keys| == |ids| && forall i | 0 <= i < |ids| :: keys[i] == Key(d, ids[i])
  {
    if ids == [] then [] else [Key(d, ids[0])] + KeysFor(d, ids[1..])
  }

  /** The outstanding keys. The map has no order of its own; client requests are reported first. */
  function Outstanding(pending: map<Key, Pending>): (keys: seq<Key>)
    ensures forall k :: k in pending <==> k in keys
  {
    var c, s := Sorted(IdsOf(pending, C2s)), Sorted(IdsOf(pending, S2c));
    var keys := KeysFor(C2s, c) + KeysFor(S2c, s);
    assert forall k :: k in pending <==> k in keys by {
      forall k ensures k in pending <==> k in keys { OutstandingHas(pending, c, s, k); }
    }
    keys
  }

  lemma OutstandingHas(pending: map<Key, Pending>, c: seq<string>, s: seq<string>, k: Key)
    requires c == Sorted(IdsOf(pending, C2s)) && s == Sorted(IdsOf(pending, S2c))
    ensures k in pending <==> k in KeysFor(C2s, c) + KeysFor(S2c, s)
  {
    hide Sorted;
    assert k.id in c <==> k.id in IdsOf(pending, C2s);
    assert k.id in s <==> k.id in IdsOf(pending, S2c);
    assert k in KeysFor(C2s, c) <==> k.origin == C2s && k.id in c;
    assert k in KeysFor(S2c, s) <==> k.origin == S2c && k.id in s;
    assert k == Key(k.origin, k.id);
  }

  function UnansweredIssues(pending: map<Key, Pending>, keys: seq<Key>, file: string): (out: seq<Issue>)
    requires forall i | 0 <= i < |keys| :: keys[i] in pending
    ensures |out| == |keys|
    ensures forall i | 0 <= i < |keys| :: out[i] == Issue(file, pending[keys[i]].line, Unanswered, "/payload/id")
  {
    if keys == [] then []
    else
      [Issue(file, pending[keys[0]].line, Unanswered, "/payload/id")] + UnansweredIssues(pending, keys[1..], file)
  }

  function FinalIssues(pending: map<Key, Pending>, file: string): Issues {
    var keys := Outstanding(pending);
    assert forall i | 0 <= i < |keys| :: keys[i] in keys;
    Ok(UnansweredIssues(pending, keys, file))
  }

  /** The issues of the records still to come, given what is outstanding. */
  function FileIssues(numbers: Numbers, c: Catalog, file: string, records: seq<Record>,
                      pending: map<Key, Pending>): Issues {
    if records == [] then FinalIssues(pending, file)
    else Join(RecordIssues(numbers, c, records[0], pending, file),
              FileIssues(numbers, c, file, records[1..], After(pending, EventOf(c, records[0]))))
  }

  // ------------------------------------------------------------------ the scan

  method ReportErrors(prefix: string, errors: seq<string>, category: Category, file: string, line: nat,
                      issues: seq<Issue>) returns (out: seq<Issue>)
    ensures out == issues + Located(prefix, errors, file, line, category)
  {
    hide Located;
    out := issues;
    assert errors[0..] == errors;
    for k := 0 to |errors|
      invariant issues + Located(prefix, errors, file, line, category) == out
        + Located(prefix, errors[k..], file, line, category)
    {
      LocatedFrom(prefix, errors, k, file, line, category);
      var issue := Issue(file, line, category, prefix + errors[k]);
      assert out + ([issue] + Located(prefix, errors[k + 1..], file, line, category)) == (out + [issue])
        + Located(prefix, errors[k + 1..], file, line, category);
      out := out + [issue];
    }
    LocatedFrom(prefix, errors, |errors|, file, line, category);
    assert out + [] == out;
  }

  lemma LocatedFrom(prefix: string, errors: seq<string>, k: nat, file: string, line: nat, category: Category)
    requires k <= |errors|
    ensures Located(prefix, errors[k..], file, line, category)
      == if k == |errors| then []
         else [Issue(file, line, category, prefix + errors[k])] + Located(prefix, errors[k + 1..], file, line, category)
  {
    if k < |errors| { assert errors[k..][1..] == errors[k + 1..]; }
  }

  method ValidateInstance(numbers: Numbers, schema: Json, instance: Json, prefix: string, category: Category,
                          file: string, line: nat, issues: seq<Issue>)
    returns (r: Issues)
    ensures r == Join(Ok(issues), InstanceIssues(numbers, schema, instance, prefix, category, file, line))
  {
    hide Eval, Located;
    var run := SchemaValidator.ValidateJsonSchema(numbers, schema, schema, instance, "", [], 0);
    SchemaValidator.Alone(Eval(numbers, schema, schema, instance, "", 0));
    if run.Err? {
      return Err(InvalidSchema);
    }
    var out := ReportErrors(prefix, run.value, category, file, line, issues);
    r := Ok(out);
  }

  method TrackRequest(o: map<string, Json>, method_: string, direction: Direction, file: string, line: nat,
                      pending: map<Key, Pending>, issues: seq<Issue>)
    returns (after: map<Key, Pending>, out: seq<Issue>)
    ensures Ok(out) == Join(Ok(issues), TrackIssues(o, IdAt(o, direction), pending, file, line))
    ensures after == if IdAt(o, direction).Some? then pending[IdAt(o, direction).value := Pending(method_, line)]
      else pending
  {
    var key := IdAt(o, direction);
    after, out := pending, issues;
    if key.None? {
      out := out + [Issue(file, line, RequestIdIllegal, "/payload/id")];
      return;
    }
    after := pending[key.value := Pending(method_, line)];
    if key.value in pending {
      out := out + [Issue(file, line, DuplicateOutstanding, "/payload/id")];
    }
    assert issues + [] == issues;
  }

  lemma JoinAssociates(a: Issues, b: Issues, c: Issues)
    ensures Join(Join(a, b), c) == Join(a, Join(b, c))
  {
    if a.Ok? && b.Ok? && c.Ok? { assert (a.value + b.value) + c.value == a.value + (b.value + c.value); }
  }

  lemma JoinNothing(issues: seq<Issue>)
    ensures Join(Ok(issues), Ok([])) == Ok(issues)
  {
    assert issues + [] == issues;
  }

  method VerifyMethod(numbers: Numbers, c: Catalog, r: Record, file: string, pending: map<Key, Pending>,
                      issues: seq<Issue>)
    returns (after: map<Key, Pending>, out: Issues)
    requires r.payload.Object? && "method" in r.payload.members
    ensures out == Join(Ok(issues), MethodIssues(numbers, c, r, pending, file))
    ensures out.Ok? ==> after == After(pending, EventOf(c, r))
  {
    hide InstanceIssues, RequestIdKey;
    after, out := pending, Ok(issues);
    var o := r.payload.members;
    if !o["method"].String? {
      out := Ok(issues + [Issue(file, r.line, MethodNotString, "/payload/method")]);
      return;
    }
    var name := o["method"].text;
    var schemas := Table(c, r.direction, "id" in o);
    if name !in schemas {
      out := Ok(issues + [Issue(file, r.line, UnknownMethod, "/payload/method")]);
      return;
    }
    ghost var validated := InstanceIssues(numbers, schemas[name], r.payload, "/payload", MethodInvalid, file, r.line);
    out := ValidateInstance(numbers, schemas[name], r.payload, "/payload", MethodInvalid, file, r.line, issues);
    if out.Err? {
      return;
    }
    if "id" in o {
      JoinAssociates(Ok(issues), validated, TrackIssues(o, IdAt(o, r.direction), pending, file, r.line));
      var tracked;
      after, tracked := TrackRequest(o, name, r.direction, file, r.line, pending, out.value);
      out := Ok(tracked);
    } else {
      JoinAssociates(Ok(issues), validated, Ok([]));
      JoinNothing(out.value);
    }
  }

  method VerifyAnswer(numbers: Numbers, c: Catalog, r: Record, origin: Direction, method_: string, file: string,
                      issues: seq<Issue>)
    returns (out: Issues)
    requires r.payload.Object?
    ensures out == Join(Ok(issues), AnswerIssues(numbers, c, r, origin, method_, file))
  {
    hide InstanceIssues;
    var o := r.payload.members;
    if "result" in o {
      ghost var envelope := InstanceIssues(numbers, c.successWrapper, r.payload, "/payload", EnvelopeInvalid, file,
        r.line);
      var checked :- ValidateInstance(numbers, c.successWrapper, r.payload, "/payload", EnvelopeInvalid, file, r.line,
        issues);
      if (origin, method_) !in c.responses {
        return Err(InvalidMapping);
      }
      var schema := c.responses[(origin, method_)];
      JoinAssociates(Ok(issues), envelope, InstanceIssues(numbers, schema, o["result"], "/payload/result",
        ResultInvalid, file, r.line));
      out := ValidateInstance(numbers, schema, o["result"], "/payload/result", ResultInvalid, file, r.line, checked);
    } else if "error" in o {
      out := ValidateInstance(numbers, c.errorWrapper, r.payload, "/payload", ErrorInvalid, file, r.line, issues);
    } else {
      out := Ok(issues + [Issue(file, r.line, NeitherResultNorError, "/payload")]);
    }
  }

  method VerifyResponse(numbers: Numbers, c: Catalog, r: Record, file: string, pending: map<Key, Pending>,
                        issues: seq<Issue>)
    returns (after: map<Key, Pending>, out: Issues)
    requires r.payload.Object? && "method" !in r.payload.members
    ensures out == Join(Ok(issues), ResponseIssues(numbers, c, r, pending, file))
    ensures out.Ok? ==> after == After(pending, EventOf(c, r))
  {
    hide AnswerIssues, RequestIdKey;
    after, out := pending, Ok(issues);
    var key := IdAt(r.payload.members, Opposite(r.direction));
    if key.None? {
      out := Ok(issues + [Issue(file, r.line, ResponseIdIllegal, "/payload/id")]);
      return;
    }
    if key.value !in pending {
      out := Ok(issues + [Issue(file, r.line, UnknownResponseId, "/payload/id")]);
      assert pending - {key.value} == pending;
      return;
    }
    after := pending - {key.value};
    out := VerifyAnswer(numbers, c, r, key.value.origin, pending[key.value].method_, file, issues);
  }

  method ReportUnmatched(pending: map<Key, Pending>, file: string, issues: seq<Issue>) returns (out: seq<Issue>)
    ensures Ok(out) == Join(Ok(issues), FinalIssues(pending, file))
  {
    hide Outstanding, UnansweredIssues;
    var keys := Outstanding(pending);
    assert forall i | 0 <= i < |keys| :: keys[i] in keys;
    out := issues;
    assert keys[0..] == keys;
    for k := 0 to |keys|
      invariant issues + UnansweredIssues(pending, keys, file) == out + UnansweredIssues(pending, keys[k..], file)
    {
      UnansweredFrom(pending, keys, k, file);
      var issue := Issue(file, pending[keys[k]].line, Unanswered, "/payload/id");
      assert out + ([issue] + UnansweredIssues(pending, keys[k + 1..], file)) == (out + [issue])
        + UnansweredIssues(pending, keys[k + 1..], file);
      out := out + [issue];
    }
    UnansweredFrom(pending, keys, |keys|, file);
    assert out + [] == out;
  }

  lemma UnansweredFrom(pending: map<Key, Pending>, keys: seq<Key>, k: nat, file: string)
    requires k <= |keys| && forall i | 0 <= i < |keys| :: keys[i] in pending
    ensures UnansweredIssues(pending, keys[k..], file)
      == if k == |keys| then []
         else
           [Issue(file, pending[keys[k]].line, Unanswered, "/payload/id")]
             + UnansweredIssues(pending, keys[k + 1..], file)
  {
    if k < |keys| { assert keys[k..][1..] == keys[k + 1..]; }
  }

  method VerifyCodexFile(numbers: Numbers, c: Catalog, file: string, records: seq<Record>, issues: seq<Issue>)
    returns (out: Issues)
    ensures out == Join(Ok(issues), FileIssues(numbers, c, file, records, map[]))
  {
    hide MethodIssues, ResponseIssues, FinalIssues, EventOf;
    var pending: map<Key, Pending>, found := map[], issues;
    assert records[0..] == records;
    for k := 0 to |records|
      invariant Join(Ok(issues), FileIssues(numbers, c, file, records, map[])) ==
        Join(Ok(found), FileIssues(numbers, c, file, records[k..], pending))
    {
      var r := records[k];
      assert records[k..][1..] == records[k + 1..];
      JoinAssociates(Ok(found), RecordIssues(numbers, c, r, pending, file),
        FileIssues(numbers, c, file, records[k + 1..], After(pending, EventOf(c, r))));
      if !r.payload.Object? {
        return Err(InvalidPayload);
      }
      var step: Issues;
      if "method" in r.payload.members {
        pending, step := VerifyMethod(numbers, c, r, file, pending, found);
      } else {
        pending, step := VerifyResponse(numbers, c, r, file, pending, found);
      }
      found :- step;
    }
    assert records[|records|..] == [];
    var final := ReportUnmatched(pending, file, found);
    out := Ok(final);
  }

  // ------------------------------------------------------------------ matching, event by event

  /** Something happens under the key at `i`. */
  ghost predicate Touches(c: Catalog, records: seq<Record>, i: nat, key: Key)
    requires i < |records|
  {
    var e := EventOf(c, records[i]);
    !e.Quiet? && e.key == key
  }

  ghost predicate EventAsks(c: Catalog, records: seq<Record>, i: nat, key: Key)
    requires i < |records|
  {
    Touches(c, records, i, key) && EventOf(c, records[i]).Ask?
  }

  ghost predicate EventAnswers(c: Catalog, records: seq<Record>, j: nat, key: Key)
    requires j < |records|
  {
    Touches(c, records, j, key) && EventOf(c, records[j]).Answer?
  }

  ghost predicate Untouched(c: Catalog, records: seq<Record>, i: nat, j: nat, key: Key)
    requires j <= |records|
  {
    forall m | i < m < j :: !Touches(c, records, m, key)
  }

  /** The request at `i` is answered by the response at `j`, and its id is not used in between. */
  ghost predicate EventAnsweredBy(c: Catalog, records: seq<Record>, i: nat, j: nat, key: Key)
    requires i < j < |records|
  {
    EventAsks(c, records, i, key) && EventAnswers(c, records, j, key) && Untouched(c, records, i, j, key)
  }

  /** Every request is answered by a later response, and every response answers an earlier request. */
  ghost predicate EventsMatched(c: Catalog, records: seq<Record>) {
    && (forall i, key | 0 <= i < |records| && EventAsks(c, records, i, key) :: exists j | i < j < |records| ::
      EventAnsweredBy(c, records, i, j, key))
    && (forall j, key | 0 <= j < |records| && EventAnswers(c, records, j, key) :: exists i | 0 <= i < j ::
      EventAnsweredBy(c, records, i, j, key))
  }

  // ------------------------------------------------------------------ the outstanding map

  ghost function PendingAt(c: Catalog, records: seq<Record>, k: nat): map<Key, Pending>
    requires k <= |records|
  {
    if k == 0 then map[] else After(PendingAt(c, records, k - 1), EventOf(c, records[k - 1]))
  }

  /** The request at `i` is still waiting just before `k`. */
  ghost predicate OpenAt(c: Catalog, records: seq<Record>, i: nat, k: nat, key: Key)
    requires i < k <= |records|
  {
    EventAsks(c, records, i, key) && Untouched(c, records, i, k, key)
  }

  /** The map holds exactly the requests that are still waiting. */
  lemma {:induction false} PendingIsOpen(c: Catalog, records: seq<Record>, k: nat, key: Key)
    requires k <= |records|
    ensures key in PendingAt(c, records, k) <==> exists i | 0 <= i < k :: OpenAt(c, records, i, k, key)
    ensures forall i | 0 <= i < k && OpenAt(c, records, i, k, key) ::
      key in PendingAt(c, records, k) && PendingAt(c, records, k)[key] == EventOf(c, records[i]).pending
  {
    hide EventOf;
    if k > 0 {
      PendingIsOpen(c, records, k - 1, key);
      if Touches(c, records, k - 1, key) {
        assert EventAsks(c, records, k - 1, key) ==> OpenAt(c, records, k - 1, k, key);
        assert forall i | 0 <= i < k - 1 :: !OpenAt(c, records, i, k, key);
      } else {
        assert key in PendingAt(c, records, k) <==> key in PendingAt(c, records, k - 1);
        if key in PendingAt(c, records, k - 1) {
          var i :| 0 <= i < k - 1 && OpenAt(c, records, i, k - 1, key);
          assert OpenAt(c, records, i, k, key);
        }
        forall i | 0 <= i < k && OpenAt(c, records, i, k, key) ensures i < k - 1 && OpenAt(c, records, i, k - 1, key) {
          assert Touches(c, records, i, key);
        }
      }
    }
  }

  ghost predicate SmoothFrom(c: Catalog, records: seq<Record>, k: nat)
    requires k <= |records|
  {
    && (forall m | k <= m < |records| :: !Clash(PendingAt(c, records, m), EventOf(c, records[m])))
    && PendingAt(c, records, |records|).Keys == {}
  }

  lemma OneIssue(i: Issue)
    ensures Uncorrelated([i]) <==> !Correlation(i)
  {
    assert [i][0] == i;
  }

  lemma InstanceUncorrelated(numbers: Numbers, schema: Json, instance: Json, prefix: string, category: Category,
                             file: string, line: nat)
    requires category !in {DuplicateOutstanding, UnknownResponseId, Unanswered}
    ensures
      var issues := InstanceIssues(numbers, schema, instance, prefix, category, file, line);
      issues.Ok? ==> Uncorrelated(issues.value)
  {
    hide Eval, Located;
  }

  lemma MethodClashes(numbers: Numbers, c: Catalog, r: Record, pending: map<Key, Pending>, file: string)
    requires r.payload.Object? && "method" in r.payload.members
    ensures
      var issues := MethodIssues(numbers, c, r, pending, file);
      issues.Ok? ==> (Uncorrelated(issues.value) <==> !Clash(pending, EventOf(c, r)))
  {
    hide InstanceIssues, RequestIdKey, Uncorrelated;
    OneIssue(Issue(file, r.line, MethodNotString, "/payload/method"));
    OneIssue(Issue(file, r.line, UnknownMethod, "/payload/method"));
    OneIssue(Issue(file, r.line, RequestIdIllegal, "/payload/id"));
    OneIssue(Issue(file, r.line, DuplicateOutstanding, "/payload/id"));
    NoIssue();
    var o := r.payload.members;
    if o["method"].String? && o["method"].text in Table(c, r.direction, "id" in o) {
      var schema := Table(c, r.direction, "id" in o)[o["method"].text];
      var now := InstanceIssues(numbers, schema, r.payload, "/payload", MethodInvalid, file, r.line);
      InstanceUncorrelated(numbers, schema, r.payload, "/payload", MethodInvalid, file, r.line);
      if now.Ok? {
        var track := TrackIssues(o, IdAt(o, r.direction), pending, file, r.line);
        UncorrelatedAppend(now.value, track.value);
        UncorrelatedAppend(now.value, []);
      }
    }
  }

  lemma NoIssue()
    ensures Uncorrelated([])
  {
  }

  lemma AnswerUncorrelated(numbers: Numbers, c: Catalog, r: Record, origin: Direction, method_: string, file: string)
    requires r.payload.Object?
    ensures
      var issues := AnswerIssues(numbers, c, r, origin, method_, file);
      issues.Ok? ==> Uncorrelated(issues.value)
  {
    hide InstanceIssues, Uncorrelated;
    var o := r.payload.members;
    OneIssue(Issue(file, r.line, NeitherResultNorError, "/payload"));
    InstanceUncorrelated(numbers, c.errorWrapper, r.payload, "/payload", ErrorInvalid, file, r.line);
    if "result" in o && (origin, method_) in c.responses {
      var schema := c.responses[(origin, method_)];
      InstanceUncorrelated(numbers, c.successWrapper, r.payload, "/payload", EnvelopeInvalid, file, r.line);
      InstanceUncorrelated(numbers, schema, o["result"], "/payload/result", ResultInvalid, file, r.line);
      var a := InstanceIssues(numbers, c.successWrapper, r.payload, "/payload", EnvelopeInvalid, file, r.line);
      var b := InstanceIssues(numbers, schema, o["result"], "/payload/result", ResultInvalid, file, r.line);
      if a.Ok? && b.Ok? { UncorrelatedAppend(a.value, b.value); }
    }
  }

  lemma ResponseClashes(numbers: Numbers, c: Catalog, r: Record, pending: map<Key, Pending>, file: string)
    requires r.payload.Object? && "method" !in r.payload.members
    ensures
      var issues := ResponseIssues(numbers, c, r, pending, file);
      issues.Ok? ==> (Uncorrelated(issues.value) <==> !Clash(pending, EventOf(c, r)))
  {
    hide AnswerIssues, RequestIdKey, Uncorrelated;
    OneIssue(Issue(file, r.line, ResponseIdIllegal, "/payload/id"));
    OneIssue(Issue(file, r.line, UnknownResponseId, "/payload/id"));
    var key := IdAt(r.payload.members, Opposite(r.direction));
    if key.Some? && key.value in pending {
      AnswerUncorrelated(numbers, c, r, key.value.origin, pending[key.value].method_, file);
    }
  }

  /** A record draws a correlation issue exactly when its event clashes. */
  lemma RecordClashes(numbers: Numbers, c: Catalog, r: Record, pending: map<Key, Pending>, file: string)
    ensures
      var issues := RecordIssues(numbers, c, r, pending, file);
      issues.Ok? ==> (Uncorrelated(issues.value) <==> !Clash(pending, EventOf(c, r)))
  {
    hide MethodIssues, ResponseIssues, Uncorrelated, EventOf, Clash;
    if r.payload.Object? {
      if "method" in r.payload.members {
        MethodClashes(numbers, c, r, pending, file);
      } else {
        ResponseClashes(numbers, c, r, pending, file);
      }
    }
  }

  lemma UncorrelatedAppend(a: seq<Issue>, b: seq<Issue>)
    ensures Uncorrelated(a + b) <==> Uncorrelated(a) && Uncorrelated(b)
  {
    hide Correlation;
    assert forall k | 0 <= k < |a| :: (a + b)[k] == a[k];
    assert forall k | 0 <= k < |b| :: (a + b)[|a| + k] == b[k];
  }

  lemma FinalClashes(pending: map<Key, Pending>, file: string)
    ensures FinalIssues(pending, file).Ok? && (Uncorrelated(FinalIssues(pending, file).value) <==> pending.Keys == {})
  {
    hide Outstanding;
    var keys := Outstanding(pending);
    assert forall i | 0 <= i < |keys| :: keys[i] in keys;
    var issues := UnansweredIssues(pending, keys, file);
    if keys != [] {
      assert Correlation(issues[0]);
      assert keys[0] in pending.Keys;
    } else {
      assert forall k :: k in pending.Keys <==> k in keys;
    }
  }

  lemma {:induction false} IssuesFromHere(numbers: Numbers, c: Catalog, file: string, records: seq<Record>, k: nat)
    requires k <= |records|
    ensures
      var issues := FileIssues(numbers, c, file, records[k..], PendingAt(c, records, k));
      issues.Ok? ==> (Uncorrelated(issues.value) <==> SmoothFrom(c, records, k))
    decreases |records| - k
  {
    hide RecordIssues, EventOf, Uncorrelated, FinalIssues, Clash, After;
    var pending := PendingAt(c, records, k);
    if k == |records| {
      assert records[k..] == [];
      FinalClashes(pending, file);
    } else {
      assert records[k..][1..] == records[k + 1..];
      assert PendingAt(c, records, k + 1) == After(pending, EventOf(c, records[k]));
      IssuesFromHere(numbers, c, file, records, k + 1);
      RecordClashes(numbers, c, records[k], pending, file);
      var now, later := RecordIssues(numbers, c, records[k], pending, file),
        FileIssues(numbers, c, file, records[k + 1..], PendingAt(c, records, k + 1));
      if now.Ok? && later.Ok? { UncorrelatedAppend(now.value, later.value); }
      assert SmoothFrom(c, records, k) <==> !Clash(pending, EventOf(c, records[k])) && SmoothFrom(c, records, k + 1);
    }
  }

  /** The first use of a key after `i`, if there is one. */
  lemma {:induction false} NextTouch(c: Catalog, records: seq<Record>, i: nat, k: nat, key: Key) returns (j: nat)
    requires i < k <= |records| && !Untouched(c, records, i, k, key)
    ensures i < j < k && Touches(c, records, j, key) && Untouched(c, records, i, j, key)
    decreases k
  {
    hide EventOf;
    if Untouched(c, records, i, k - 1, key) {
      j := k - 1;
    } else {
      j := NextTouch(c, records, i, k - 1, key);
    }
  }

  lemma SmoothIsMatched(c: Catalog, records: seq<Record>)
    requires SmoothFrom(c, records, 0)
    ensures EventsMatched(c, records)
  {
    hide EventOf, Untouched, PendingAt;
    var n := |records|;
    forall i, key | 0 <= i < n && EventAsks(c, records, i, key) ensures exists j | i < j < n ::
      EventAnsweredBy(c, records, i, j, key) {
      PendingIsOpen(c, records, n, key);
      assert key !in PendingAt(c, records, n).Keys;
      assert !OpenAt(c, records, i, n, key);
      var j := NextTouch(c, records, i, n, key);
      PendingIsOpen(c, records, j, key);
      assert OpenAt(c, records, i, j, key);
      assert !Clash(PendingAt(c, records, j), EventOf(c, records[j]));
      assert EventAnsweredBy(c, records, i, j, key);
    }
    forall j, key | 0 <= j < n && EventAnswers(c, records, j, key) ensures exists i | 0 <= i < j ::
      EventAnsweredBy(c, records, i, j, key) {
      PendingIsOpen(c, records, j, key);
      assert !Clash(PendingAt(c, records, j), EventOf(c, records[j]));
      var i :| 0 <= i < j && OpenAt(c, records, i, j, key);
      assert EventAnsweredBy(c, records, i, j, key);
    }
  }

  /** While a request waits, its id is not used for another one. */
  lemma OpenExcludesAsking(c: Catalog, records: seq<Record>, m: nat, key: Key)
    requires EventsMatched(c, records) && m < |records|
    ensures forall i | 0 <= i < m && OpenAt(c, records, i, m, key) :: !EventAsks(c, records, m, key)
  {
    hide EventOf;
    forall i | 0 <= i < m && OpenAt(c, records, i, m, key) ensures !EventAsks(c, records, m, key) {
      var j :| i < j < |records| && EventAnsweredBy(c, records, i, j, key);
      assert Touches(c, records, j, key);
      assert m <= j;
    }
  }

  lemma NoClashWhenMatched(c: Catalog, records: seq<Record>, m: nat)
    requires EventsMatched(c, records) && m < |records|
    ensures !Clash(PendingAt(c, records, m), EventOf(c, records[m]))
  {
    hide EventOf, PendingAt, Untouched;
    var e := EventOf(c, records[m]);
    if e.Ask? {
      assert EventAsks(c, records, m, e.key);
      PendingIsOpen(c, records, m, e.key);
      OpenExcludesAsking(c, records, m, e.key);
    }
    if e.Answer? {
      assert EventAnswers(c, records, m, e.key);
      PendingIsOpen(c, records, m, e.key);
      var i :| 0 <= i < m && EventAnsweredBy(c, records, i, m, e.key);
      assert OpenAt(c, records, i, m, e.key);
    }
  }

  lemma MatchedIsSmooth(c: Catalog, records: seq<Record>)
    requires EventsMatched(c, records)
    ensures SmoothFrom(c, records, 0)
  {
    hide EventOf, Clash, PendingAt, Untouched;
    var n := |records|;
    forall m | 0 <= m < n ensures !Clash(PendingAt(c, records, m),
      EventOf(c, records[m])) { NoClashWhenMatched(c, records, m); }
    var p := PendingAt(c, records, n);
    forall key ensures key !in p.Keys { NothingOpenWhenMatched(c, records, key); }
  }

  lemma NothingOpenWhenMatched(c: Catalog, records: seq<Record>, key: Key)
    requires EventsMatched(c, records)
    ensures key !in PendingAt(c, records, |records|)
  {
    hide EventOf, PendingAt;
    var n := |records|;
    PendingIsOpen(c, records, n, key);
    forall i | 0 <= i < n ensures !OpenAt(c, records, i, n, key) {
      if EventAsks(c, records, i, key) {
        var j :| i < j < n && EventAnsweredBy(c, records, i, j, key);
        assert Touches(c, records, j, key);
      }
    }
  }

  // ------------------------------------------------------------------ what matching means

  /** A call: who makes it, and under which id. */
  datatype Call = Call(side: Direction, id: Json)

  /** An id is a string, or an integer that fits 64 bits with a sign or without one. */
  ghost predicate LegalId(id: Json) {
    || id.String?
    || (id.Number? && exists n: int | -0x8000_0000_0000_0000 <= n < 0x1_0000_0000_0000_0000 :: Denotes(id.token, n))
  }

  /** The methods a side may call. */
  ghost function Callable(c: Catalog, side: Direction): set<string> {
    if side == C2s then c.clientRequests.Keys else c.serverRequests.Keys
  }

  /** The record makes the call: it comes from that side, names a method it may call, and carries the id. */
  ghost predicate Requests(c: Catalog, r: Record, call: Call) {
    && LegalId(call.id) && r.direction == call.side && r.payload.Object?
    && var m := r.payload.members;
    && "id" in m && m["id"] == call.id
    && "method" in m && m["method"].String? && m["method"].text in Callable(c, call.side)
  }

  /** The record answers the call: it comes from the other side, names no method, and carries the id. */
  ghost predicate Responds(r: Record, call: Call) {
    && LegalId(call.id) && r.direction != call.side && r.payload.Object?
    && var m := r.payload.members;
    && "id" in m && m["id"] == call.id && "method" !in m
  }

  /** The request at `i` is answered by the response at `j`, and its id is not used by either side in between. */
  ghost predicate AnsweredBy(c: Catalog, records: seq<Record>, i: nat, j: nat, call: Call)
    requires i < j < |records|
  {
    && Requests(c, records[i], call) && Responds(records[j], call)
    && forall m | i < m < j :: !Requests(c, records[m], call) && !Responds(records[m], call)
  }

  /** Every request is answered by a later response, and every response answers an earlier request. */
  ghost predicate WellMatched(c: Catalog, records: seq<Record>) {
    && (forall i, call | 0 <= i < |records| && Requests(c, records[i], call) ::
          exists j | i < j < |records| :: AnsweredBy(c, records, i, j, call))
    && (forall j, call | 0 <= j < |records| && Responds(records[j], call) ::
          exists i | 0 <= i < j :: AnsweredBy(c, records, i, j, call))
  }

  lemma LegalIffKeyed(id: Json)
    ensures LegalId(id) <==> RequestIdKey(id).Some?
  {
    hide DecimalValue;
    if id.Number? {
      var t := id.token;
      if UnsignedUpTo(t, U64_MAX) { assert Denotes(t, DecimalValue(t)); }
      if t != "" && t[0] == '-' && UnsignedUpTo(t[1..], 0x8000_0000_0000_0000) {
        var magnitude: int := DecimalValue(t[1..]);
        assert Denotes(t, -magnitude);
      }
    }
  }

  function KeyFor(call: Call): Key { Key(call.side, if RequestIdKey(call.id).Some? then RequestIdKey(call.id).value
                  else "") }

  /** What the scan makes of a record is what the record does to the call. */
  lemma RecordEvents(c: Catalog, r: Record, call: Call)
    requires LegalId(call.id)
    ensures Requests(c, r, call) <==> EventOf(c, r).Ask? && EventOf(c, r).key == KeyFor(call)
    ensures Responds(r, call) <==> EventOf(c, r).Answer? && EventOf(c, r).key == KeyFor(call)
  {
    hide RequestIdKey, LegalId;
    LegalIffKeyed(call.id);
    if r.payload.Object? && "id" in r.payload.members {
      var id := r.payload.members["id"];
      LegalIffKeyed(id);
      if RequestIdKey(id).Some? && RequestIdKey(id) == RequestIdKey(call.id) { RequestIdKeyInjective(id, call.id); }
    }
  }

  /** Every event belongs to a call. */
  lemma EventHasCall(c: Catalog, r: Record) returns (call: Call)
    requires !EventOf(c, r).Quiet?
    ensures LegalId(call.id) && EventOf(c, r).key == KeyFor(call)
  {
    hide RequestIdKey, LegalId;
    var id := r.payload.members["id"];
    LegalIffKeyed(id);
    call := Call(EventOf(c, r).key.origin, id);
  }

  lemma AnsweredAlike(c: Catalog, records: seq<Record>, i: nat, j: nat, call: Call)
    requires i < j < |records| && LegalId(call.id)
    ensures AnsweredBy(c, records, i, j, call) <==> EventAnsweredBy(c, records, i, j, KeyFor(call))
  {
    hide EventOf, Requests, Responds, LegalId, KeyFor;
    forall m | 0 <= m < |records|
      ensures Requests(c, records[m], call) <==> EventAsks(c, records, m, KeyFor(call))
      ensures Responds(records[m], call) <==> EventAnswers(c, records, m, KeyFor(call))
    {
      RecordEvents(c, records[m], call);
    }
  }

  lemma MatchedAlike(c: Catalog, records: seq<Record>)
    ensures WellMatched(c, records) <==> EventsMatched(c, records)
  {
    hide EventOf, AnsweredBy, EventAnsweredBy, LegalId, KeyFor;
    if WellMatched(c, records) { MatchedEvents(c, records); }
    if EventsMatched(c, records) { EventsMatch(c, records); }
  }

  lemma MatchedEvents(c: Catalog, records: seq<Record>)
    requires WellMatched(c, records)
    ensures EventsMatched(c, records)
  {
    hide EventOf, AnsweredBy, EventAnsweredBy, LegalId, KeyFor, Requests, Responds;
    var n := |records|;
    forall i, key | 0 <= i < n && EventAsks(c, records, i, key)
      ensures exists j | i < j < n :: EventAnsweredBy(c, records, i, j, key)
    {
      var call := EventHasCall(c, records[i]);
      RecordEvents(c, records[i], call);
      var j :| i < j < n && AnsweredBy(c, records, i, j, call);
      AnsweredAlike(c, records, i, j, call);
    }
    forall j, key | 0 <= j < n && EventAnswers(c, records, j, key)
      ensures exists i | 0 <= i < j :: EventAnsweredBy(c, records, i, j, key)
    {
      var call := EventHasCall(c, records[j]);
      RecordEvents(c, records[j], call);
      var i :| 0 <= i < j && AnsweredBy(c, records, i, j, call);
      AnsweredAlike(c, records, i, j, call);
    }
  }

  lemma CallIsLegal(c: Catalog, r: Record, call: Call)
    requires Requests(c, r, call) || Responds(r, call)
    ensures LegalId(call.id)
  {
    hide LegalId;
  }

  lemma EventsMatch(c: Catalog, records: seq<Record>)
    requires EventsMatched(c, records)
    ensures WellMatched(c, records)
  {
    hide EventOf, AnsweredBy, EventAnsweredBy, LegalId, KeyFor, Requests, Responds;
    var n := |records|;
    forall i, call | 0 <= i < n && Requests(c, records[i], call)
      ensures exists j | i < j < n :: AnsweredBy(c, records, i, j, call)
    {
      CallIsLegal(c, records[i], call);
      RecordEvents(c, records[i], call);
      assert EventAsks(c, records, i, KeyFor(call));
      var j :| i < j < n && EventAnsweredBy(c, records, i, j, KeyFor(call));
      AnsweredAlike(c, records, i, j, call);
    }
    forall j, call | 0 <= j < n && Responds(records[j], call)
      ensures exists i | 0 <= i < j :: AnsweredBy(c, records, i, j, call)
    {
      CallIsLegal(c, records[j], call);
      RecordEvents(c, records[j], call);
      assert EventAnswers(c, records, j, KeyFor(call));
      var i :| 0 <= i < j && EventAnsweredBy(c, records, i, j, KeyFor(call));
      AnsweredAlike(c, records, i, j, call);
    }
  }

  /**
   Whenever a file is scanned to the end, it draws no correlation issue exactly when every request is
   answered by a later response in the opposite direction under the same id, every response answers an
   earlier request, and no id is used again in between.
   */
  lemma NoCorrelationIssueIffWellMatched(numbers: Numbers, c: Catalog, file: string, records: seq<Record>)
    ensures
      var issues := FileIssues(numbers, c, file, records, map[]);
      issues.Ok? ==> (Uncorrelated(issues.value) <==> WellMatched(c, records))
  {
    hide FileIssues, Uncorrelated, WellMatched, EventsMatched, SmoothFrom;
    assert records[0..] == records;
    IssuesFromHere(numbers, c, file, records, 0);
    MatchedAlike(c, records);
    if EventsMatched(c, records) { MatchedIsSmooth(c, records); }
    if SmoothFrom(c, records, 0) { SmoothIsMatched(c, records); }
  }

  /** In a trace the pairing is one to one. */
  lemma PairingIsUnique(c: Catalog, records: seq<Record>, i: nat, j: nat, i': nat, j': nat, call: Call)
    requires i < j < |records| && i' < j' < |records|
    requires AnsweredBy(c, records, i, j, call) && AnsweredBy(c, records, i', j', call)
    ensures i == i' <==> j == j'
  {
    hide Requests, Responds;
  }

  /** The request at `i` makes the call and is still waiting just before `k`. */
  ghost predicate Waiting(c: Catalog, records: seq<Record>, i: nat, k: nat, call: Call)
    requires i < k <= |records|
  {
    Requests(c, records[i], call)
    && forall m | i < m < k :: !Requests(c, records[m], call) && !Responds(records[m], call)
  }

  /** The map holds exactly the calls still waiting, each with the method and the line of its request. */
  lemma PendingIsWaiting(c: Catalog, records: seq<Record>, k: nat, call: Call)
    requires k <= |records| && LegalId(call.id)
    ensures KeyFor(call) in PendingAt(c, records, k) <==> exists i | 0 <= i < k :: Waiting(c, records, i, k, call)
    ensures forall i | 0 <= i < k && Waiting(c, records, i, k, call) ::
      && KeyFor(call) in PendingAt(c, records, k)
      && PendingAt(c, records, k)[KeyFor(call)]
         == Pending(records[i].payload.members["method"].text, records[i].line)
  {
    hide EventOf, PendingAt, Requests, Responds, LegalId, KeyFor;
    PendingIsOpen(c, records, k, KeyFor(call));
    forall i | 0 <= i < k
      ensures Waiting(c, records, i, k, call) <==> OpenAt(c, records, i, k, KeyFor(call))
      ensures Requests(c, records[i], call) ==>
        && records[i].payload.Object? && "method" in records[i].payload.members
        && records[i].payload.members["method"].String?
        && EventOf(c, records[i]).Ask?
        && EventOf(c, records[i]).pending == Pending(records[i].payload.members["method"].text, records[i].line)
    {
      forall m | 0 <= m < k
        ensures Requests(c, records[m], call) <==> EventAsks(c, records, m, KeyFor(call))
        ensures Responds(records[m], call) <==> EventAnswers(c, records, m, KeyFor(call))
      {
        RecordEvents(c, records[m], call);
      }
      if Requests(c, records[i], call) { RequestPends(c, records[i], call); }
    }
  }

  lemma RequestPends(c: Catalog, r: Record, call: Call)
    requires Requests(c, r, call)
    ensures r.payload.Object? && "method" in r.payload.members && r.payload.members["method"].String?
    ensures EventOf(c, r).Ask? && EventOf(c, r).pending == Pending(r.payload.members["method"].text, r.line)
  {
    hide RequestIdKey, LegalId;
    LegalIffKeyed(call.id);
  }

  /** A response is validated as an answer to the method that its own request named. */
  lemma ResponseJudgedByItsRequest(numbers: Numbers, c: Catalog, file: string, records: seq<Record>, i: nat, k: nat,
                                   call: Call)
    requires i < k < |records| && Waiting(c, records, i, k, call) && Responds(records[k], call)
    ensures records[i].payload.Object? && "method" in records[i].payload.members
    ensures records[i].payload.members["method"].String? && records[k].payload.Object?
    ensures RecordIssues(numbers, c, records[k], PendingAt(c, records, k), file)
      == AnswerIssues(numbers, c, records[k], call.side, records[i].payload.members["method"].text, file)
  {
    hide AnswerIssues, PendingAt, Requests, RequestIdKey, LegalId;
    CallIsLegal(c, records[i], call);
    RequestPends(c, records[i], call);
    PendingIsWaiting(c, records, k, call);
    LegalIffKeyed(call.id);
    assert records[k].direction != call.side ==> Opposite(records[k].direction) == call.side;
  }
}
