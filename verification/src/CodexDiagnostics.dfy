/**
 Diagnostics over every run of the Codex reducer (crates/kaleido-adapter-codex/src/reduce.rs): the stored record of
 a kind is the last one reported, and counts how many were.
 */
module CodexDiagnostics {
  import opened Prelude
  import opened Canonical
  import opened Capability
  import opened CodexWire
  import opened CodexBindings
  import opened CodexStep
  import opened CodexRun
  import opened CodexJoin
  import opened CodexLedger

  // ------------------------------------------------------------------ reading the stream

  function KindOf(r: DiagnosticRecord): DiagnosticKey { DiagnosticKey(r.code, r.detail.Some?) }

  predicate Reports(e: Effect, key: DiagnosticKey) { e.DiagnosticRecorded? && KindOf(e.diagnostic) == key }

  /** How many records of a kind were reported. */
  function Times(effects: seq<Effect>, key: DiagnosticKey): nat {
    if effects == [] then 0
    else Times(effects[..|effects| - 1], key) + if Reports(effects[|effects| - 1], key) then 1 else 0
  }

  /** The last record of a kind that was reported. */
  function Latest(effects: seq<Effect>, key: DiagnosticKey): Option<DiagnosticRecord> {
    if effects == [] then None
    else if Reports(effects[|effects| - 1], key) then Some(effects[|effects| - 1].diagnostic)
    else Latest(effects[..|effects| - 1], key)
  }

  function Capped(n: nat): nat { if n <= U64_MAX then n else U64_MAX }

  /** The records are those last reported, and count what was reported. */
  ghost predicate Counted(d: Diagnostics, effects: seq<Effect>) {
    forall key ::
      && (key in d <==> Times(effects, key) > 0)
      && (key in d ==>
            && Latest(effects, key) == Some(d[key]) && KindOf(d[key]) == key
            && d[key].count == Capped(Times(effects, key)))
  }

  lemma CountedNothing()
    ensures Counted(map[], [])
  {
  }

  // ------------------------------------------------------------------ one effect after another

  /** Records stand under their kind, and their counts fit. */
  ghost predicate Sane(d: Diagnostics) { forall key | key in d :: KindOf(d[key]) == key && d[key].count <= U64_MAX }

  function After(d: Diagnostics, e: Effect): Diagnostics {
    if e.DiagnosticRecorded? then d[KindOf(e.diagnostic) := e.diagnostic] else d
  }

  /** A record is the first of its kind, or the one before counted on. */
  ghost predicate Fresh(d: Diagnostics, e: Effect) {
    e.DiagnosticRecorded? ==>
      var r := e.diagnostic;
      var key := KindOf(r);
      if key in d then r == d[key].(count := Capped(d[key].count + 1), lastAt := r.lastAt)
      else r.count == 1 && r.firstAt == r.lastAt
  }

  ghost predicate Chained(d: Diagnostics, effects: seq<Effect>, d': Diagnostics)
    decreases |effects|
  {
    if effects == [] then d' == d else Fresh(d, effects[0]) && Chained(After(d, effects[0]), effects[1..], d')
  }

  lemma {:induction false} ChainedAppend(d: Diagnostics, xs: seq<Effect>, m: Diagnostics, ys: seq<Effect>,
                                         d': Diagnostics)
    requires Chained(d, xs, m) && Chained(m, ys, d')
    ensures Chained(d, xs + ys, d')
    decreases |xs|
  {
    hide Fresh, After;
    if xs == [] {
      assert xs + ys == ys;
    } else {
      assert (xs + ys)[1..] == xs[1..] + ys && (xs + ys)[0] == xs[0];
      ChainedAppend(After(d, xs[0]), xs[1..], m, ys, d');
    }
  }

  predicate Quietly(effects: seq<Effect>) { forall i | 0 <= i < |effects| :: !effects[i].DiagnosticRecorded? }

  lemma {:induction false} ChainedQuietly(d: Diagnostics, effects: seq<Effect>)
    requires Quietly(effects)
    ensures Chained(d, effects, d)
    decreases |effects|
  {
    if effects != [] {
      assert forall i | 0 <= i < |effects[1..]| :: effects[1..][i] == effects[i + 1];
      ChainedQuietly(d, effects[1..]);
    }
  }

  lemma {:induction false} ChainedPlace(d: Diagnostics, effects: seq<Effect>, d': Diagnostics, e: Effect)
    requires Chained(d, effects, d') && !e.DiagnosticRecorded?
    ensures Chained(d, Place(effects, e), d')
    decreases |effects|
  {
    hide PromotesControl;
    if effects == [] {
      assert [e][1..] == [];
    } else if PromotesControl(effects[0]) {
      assert ([e] + effects)[1..] == effects;
    } else {
      assert ([effects[0]] + Place(effects[1..], e))[1..] == Place(effects[1..], e);
      ChainedPlace(After(d, effects[0]), effects[1..], d', e);
    }
  }

  /** A record that is made and reported. */
  lemma RecordChains(d: Diagnostics, code: DiagnosticCode, session: Option<SessionId>, detail: Option<ContentRef>,
                     at: int)
    requires Sane(d)
    ensures
      var r := RecordFor(d, code, session, detail, at);
      var d' := d[DiagnosticKey(code, detail.Some?) := r];
      Chained(d, [DiagnosticRecorded(r)], d') && Sane(d')
  {
    var r := RecordFor(d, code, session, detail, at);
    assert [DiagnosticRecorded(r)][1..] == [];
    assert KindOf(r) == DiagnosticKey(code, detail.Some?);
  }

  // ------------------------------------------------------------------ reductions

  ghost predicate Keeps(s: State, o: Outcome) {
    Chained(s.diagnostics, Said(o), o.state.diagnostics) && Sane(o.state.diagnostics)
  }

  ghost predicate Unnoted(s: State, o: Outcome) { o.state.diagnostics == s.diagnostics && Quietly(Said(o)) }

  lemma UnnotedKeeps(s: State, o: Outcome)
    requires Sane(s.diagnostics) && Unnoted(s, o)
    ensures Keeps(s, o)
  {
    ChainedQuietly(s.diagnostics, Said(o));
  }

  lemma DiagnoseKeeps(s: State, code: DiagnosticCode, session: Option<SessionId>, detail: Option<ContentRef>, at: int)
    requires Sane(s.diagnostics)
    ensures Keeps(s, DiagnoseOnly(s, code, session, detail, at))
  {
    hide RecordFor, Chained;
    RecordChains(s.diagnostics, code, session, detail, at);
  }

  lemma {:induction false} ClosingKeeps(attention: Attention, d: Diagnostics, session: Option<SessionId>,
                                        local: set<AttentionId>, ids: seq<AttentionId>)
    requires Sane(d)
    ensures Chained(d, ClosingEffects(attention, d, session, local, ids), ClosedDiagnostics(attention, d, session, ids))
    ensures Sane(ClosedDiagnostics(attention, d, session, ids))
  {
    hide Chained, RecordFor, Closed;
    if ids == [] {
      ChainedQuietly(d, []);
    } else {
      var front, id := ids[..|ids| - 1], ids[|ids| - 1];
      ClosingKeeps(attention, d, session, local, front);
      if id in attention {
        var m, before := ClosedDiagnostics(attention, d, session, front),
          ClosingEffects(attention, d, session, local, front);
        var at := attention[id].createdAt;
        RecordChains(m, JoinFailed, session, None, at);
        var shown := if id in local then [] else [AttentionUpserted(Closed(attention[id]))];
        ChainedQuietly(m, shown);
        var note := [DiagnosticRecorded(RecordFor(m, JoinFailed, session, None, at))];
        var d' := ClosedDiagnostics(attention, d, session, ids);
        ChainedAppend(m, shown, m, note, d');
        ChainedAppend(d, before, m, shown + note, d');
      } else {
        assert ClosingEffects(attention, d, session, local, front) + [] ==
          ClosingEffects(attention, d, session, local, front);
      }
    }
  }

  lemma FinishKeeps(s: State)
    requires Sane(s.diagnostics)
    ensures Chained(s.diagnostics, Finish(s).effects, Finish(s).state.diagnostics) && Sane(Finish(s).state.diagnostics)
  {
    hide Chained, Unresolved, ClosingEffects, ClosedDiagnostics, ClosedAttention;
    ClosingKeeps(s.attention.stored, s.diagnostics, s.live.sessionId, s.approvals.locallyAnswered,
      Unresolved(s.attention.stored));
  }

  lemma NoteTurnKeeps(cfg: Config, s: State, m: TurnNotice, session: SessionId, binding: TurnBinding,
                      status: TurnStatus, at: int)
    requires Sane(s.diagnostics)
    ensures
      var e := NoteTurn(cfg, s, m, session, binding, status, at);
      Chained(s.diagnostics, e.effects, e.state.diagnostics) && Sane(e.state.diagnostics)
  {
    hide Chained, RecordFor;
    var turn := [TurnUpserted(TurnFor(cfg, s.turns, binding, m, session, status, at))];
    ChainedQuietly(s.diagnostics, turn);
    if m.hasError && status != TurnFailed {
      RecordChains(s.diagnostics, MalformedProviderMessage, Some(session), None, at);
      var r := RecordFor(s.diagnostics, MalformedProviderMessage, Some(session), None, at);
      ChainedAppend(s.diagnostics, turn, s.diagnostics, [DiagnosticRecorded(r)],
        s.diagnostics[DiagnosticKey(MalformedProviderMessage, false) := r]);
    }
  }

  lemma OpenTurnKeeps(cfg: Config, s: State, f: Fields, at: int)
    requires Sane(s.diagnostics)
    ensures Keeps(s, ReduceTurnTransition(cfg, s, false, f, at))
  {
    hide DecodeTurnNotice, TurnStatusOf, NoteTurn, Chained, Finish;
    var m := DecodeTurnNotice(f);
    ChainedQuietly(s.diagnostics, []);
    if m.Ok? && m.value.thread in s.bindings.sessions && TurnStatusOf(m.value.status, TurnNotificationStatus).Ok? {
      var session := s.bindings.sessions[m.value.thread].id;
      var b := s.bindings.BindTurn(cfg.runtime, m.value.turn, session);
      NoteTurnKeeps(cfg, s.(bindings := b), m.value, session, b.turns[m.value.turn],
        TurnStatusOf(m.value.status, TurnNotificationStatus).value, at);
    }
  }

  lemma TurnTransitionKeeps(cfg: Config, s: State, completed: bool, f: Fields, at: int)
    requires Sane(s.diagnostics)
    ensures Keeps(s, ReduceTurnTransition(cfg, s, completed, f, at))
  {
    hide ReduceTurnTransition, Finish, Chained;
    var open := ReduceTurnTransition(cfg, s, false, f, at);
    OpenTurnKeeps(cfg, s, f, at);
    TurnCompletedCloses(cfg, s, f, at);
    if completed && open.result.Ok? {
      FinishKeeps(open.state);
      ChainedAppend(s.diagnostics, open.result.value, open.state.diagnostics, Finish(open.state).effects,
        Finish(open.state).state.diagnostics);
    }
  }

  lemma StoreItemUnnoted(cfg: Config, s: State, m: ItemNotice, started: bool, f: Fields)
    requires m.thread in s.bindings.sessions
    ensures Unnoted(s, StoreItem(cfg, s, m, started, f))
  {
    StoreItemShows(cfg, s, m, started, f);
    hide DecodeBody, ItemFor, ItemBindings, UpgradeEffects, UpgradedAttention;
  }

  lemma ItemKeeps(cfg: Config, s: State, started: bool, f: Fields, at: int)
    requires Sane(s.diagnostics)
    ensures Keeps(s, ReduceItem(cfg, s, started, f, at))
  {
    hide DecodeItemNotice, StoreItem, Chained, RecordFor;
    var m := DecodeItemNotice(f, started);
    ChainedQuietly(s.diagnostics, []);
    if m.Ok? && m.value.thread in s.bindings.sessions {
      if Decodable(m.value.kind) {
        StoreItemUnnoted(cfg, s, m.value, started, f);
        UnnotedKeeps(s, StoreItem(cfg, s, m.value, started, f));
      } else {
        var session := s.bindings.sessions[m.value.thread].id;
        RecordChains(s.diagnostics, UnknownUpstreamLabel, Some(session),
          Some(ContentRef(StructuredSummary, m.value.kind)),
          at);
      }
    }
  }

  lemma DeltaKeeps(s: State, f: Fields, at: int)
    requires Sane(s.diagnostics)
    ensures Keeps(s, ReduceDelta(s, f, at))
  {
    hide DecodeDelta, Chained, RecordFor;
    var o := ReduceDelta(s, f, at);
    DiagnoseKeeps(s, MalformedProviderMessage, s.live.sessionId, None, at);
    if o != DiagnoseOnly(s, MalformedProviderMessage, s.live.sessionId, None, at) { UnnotedKeeps(s, o); }
  }

  lemma StatusUnnoted(s: State, f: Fields, at: int)
    ensures Unnoted(s, ReduceStatusChanged(s, f, at)) && Unnoted(s, ReduceThreadStarted(s, f))
  {
    hide SessionStatusOf;
  }

  lemma NotificationKeeps(cfg: Config, s: State, m: string, f: Fields, at: int)
    requires Sane(s.diagnostics)
    ensures Keeps(s, ReduceNotification(cfg, s, m, f, at))
  {
    hide ReduceTurnTransition, ReduceItem, ReduceDelta, ReduceStatusChanged, ReduceThreadStarted, DiagnoseOnly, Keeps;
    TurnTransitionKeeps(cfg, s, m == "turn/completed", f, at);
    ItemKeeps(cfg, s, m == "item/started", f, at);
    DeltaKeeps(s, f, at);
    StatusUnnoted(s, f, at);
    UnnotedKeeps(s, ReduceStatusChanged(s, f, at));
    UnnotedKeeps(s, ReduceThreadStarted(s, f));
    DiagnoseKeeps(s, UnknownUpstreamMessage, s.live.sessionId, None, at);
  }

  lemma FileApprovalKeeps(cfg: Config, s: State, id: int, m: ApprovalNotice, at: int)
    requires Sane(s.diagnostics) && m.thread in s.bindings.sessions
    ensures Keeps(s, FileApproval(cfg, s, id, m, at))
  {
    hide NewApproval, ApprovalBindings, Chained, RecordFor;
    var o := FileApproval(cfg, s, id, m, at);
    var shown := [o.result.value[0]];
    ChainedQuietly(s.diagnostics, shown);
    var session := s.bindings.sessions[m.thread].id;
    RecordChains(s.diagnostics, JoinDeferred, Some(session), None, at);
    var r := RecordFor(s.diagnostics, JoinDeferred, Some(session), None, at);
    ChainedAppend(s.diagnostics, shown, s.diagnostics, [DiagnosticRecorded(r)],
      s.diagnostics[DiagnosticKey(JoinDeferred, false) := r]);
    assert o.result.value == shown || o.result.value == shown + [DiagnosticRecorded(r)];
  }

  lemma ReplyUnnoted(cfg: Config, s: State, id: int, f: Fields, at: int)
    ensures Unnoted(s, ReduceApprovalReply(cfg, s, id, f, at))
  {
    hide DecodeDecision;
  }

  lemma TurnResponseUnnoted(cfg: Config, s: State, id: int, frame: Frame, at: int)
    ensures Unnoted(s, ReduceTurnResponse(cfg, s, id, frame, at))
  {
    hide DecodeTurnCreated;
  }

  lemma ResponseUnnoted(cfg: Config, s: State, id: int, frame: Frame, at: int)
    ensures Unnoted(s, ReduceClientResponse(cfg, s, id, frame, at))
  {
    hide ReduceTurnResponse;
    TurnResponseUnnoted(cfg, s.(calls := s.calls.(client := s.calls.client - {id})), id, frame, at);
  }

  lemma DispatchKeeps(cfg: Config, s: State, frame: Frame, at: int)
    requires Sane(s.diagnostics)
    ensures Keeps(s, Dispatch(cfg, s, frame, at))
  {
    hide ReduceNotification, ReduceClientResponse, FileApproval, ReduceApprovalReply, DecodeApproval, DiagnoseOnly;
    var o := Dispatch(cfg, s, frame, at);
    DiagnoseKeeps(s, MalformedProviderMessage, None, None, at);
    ChainedQuietly(s.diagnostics, []);
    if frame.method_.Some? { NotificationKeeps(cfg, s, frame.method_.value, frame.fields, at); }
    if frame.id.Some? {
      var id := frame.id.value;
      ReplyUnnoted(cfg, s, id, frame.fields, at);
      UnnotedKeeps(s, ReduceApprovalReply(cfg, s, id, frame.fields, at));
      ResponseUnnoted(cfg, s, id, frame, at);
      UnnotedKeeps(s, ReduceClientResponse(cfg, s, id, frame, at));
      var m := DecodeApproval(frame.fields);
      if m.Ok? && m.value.thread in s.bindings.sessions { FileApprovalKeeps(cfg, s, id, m.value, at); }
    }
  }

  lemma IngestKeeps(cfg: Config, s: State, frame: Frame)
    requires Sane(s.diagnostics)
    ensures Keeps(s, IngestFrame(cfg, s, frame))
  {
    hide Dispatch, Chained;
    var at := Saturate(cfg.baseAt + frame.offset);
    var boot := Bootstrap(s.(live := s.live.(probe := s.live.probe.Advance(at))), at);
    DispatchKeeps(cfg, boot.state, frame, at);
    var d := Dispatch(cfg, boot.state, frame, at);
    ChainedQuietly(s.diagnostics, []);
    if d.result.Ok? {
      ChainedPlace(s.diagnostics, d.result.value, d.state.diagnostics,
        CapabilitiesUpdated(d.state.live.probe.ToCapabilities()));
      ChainedQuietly(s.diagnostics, boot.effects);
      ChainedAppend(s.diagnostics, boot.effects, s.diagnostics, Publish(d.state, d.result.value).effects,
        d.state.diagnostics);
    } else {
      assert Said(IngestFrame(cfg, s, frame)) == [];
    }
  }

  lemma StepKeeps(cfg: Config, s: State, input: Input)
    requires Sane(s.diagnostics)
    ensures
      var r := Step(cfg, s, input);
      Chained(s.diagnostics, EffectsOf(r.reply), r.state.diagnostics) && Sane(r.state.diagnostics)
  {
    hide IngestFrame, Finish, Chained;
    ChainedQuietly(s.diagnostics, []);
    match input {
      case Ingest(frame) => IngestKeeps(cfg, s, frame);
      case CloseWindow => FinishKeeps(s);
      case Exit(code, at) => ChainedQuietly(s.diagnostics, ProcessExited(cfg, s, code, at).effects);
      case Disconnect(at) => ChainedQuietly(s.diagnostics, CleanDisconnected(s, at).effects);
      case _ =>
    }
  }

  // ------------------------------------------------------------------ every run

  lemma CountedOne(d: Diagnostics, said: seq<Effect>, e: Effect)
    requires Counted(d, said) && Fresh(d, e)
    ensures Counted(After(d, e), said + [e])
  {
    var all := said + [e];
    assert all[..|all| - 1] == said && all[|all| - 1] == e;
  }

  lemma {:induction false} CountedMore(d: Diagnostics, said: seq<Effect>, effects: seq<Effect>, d': Diagnostics)
    requires Counted(d, said) && Chained(d, effects, d')
    ensures Counted(d', said + effects)
    decreases |effects|
  {
    hide Counted, Fresh, After;
    if effects == [] {
      assert said + effects == said;
    } else {
      CountedOne(d, said, effects[0]);
      CountedMore(After(d, effects[0]), said + [effects[0]], effects[1..], d');
      assert said + [effects[0]] + effects[1..] == said + effects;
    }
  }

  /** On every run, each stored record is the last one reported of its kind, and counts them. */
  lemma {:induction false} DiagnosticsCount(cfg: Config, inputs: seq<Input>)
    ensures
      var run := Execute(cfg, inputs);
      Counted(run.state.diagnostics, run.stream) && Sane(run.state.diagnostics)
  {
    hide Step, Counted, Chained;
    if inputs == [] {
      CountedNothing();
    } else {
      var before, input := Execute(cfg, inputs[..|inputs| - 1]), inputs[|inputs| - 1];
      DiagnosticsCount(cfg, inputs[..|inputs| - 1]);
      StepKeeps(cfg, before.state, input);
      var r := Step(cfg, before.state, input);
      CountedMore(before.state.diagnostics, before.stream, EffectsOf(r.reply), r.state.diagnostics);
    }
  }
}
