/**
 What the notices about turns, threads and sessions show, at every point of every run of the Codex reducer
 (crates/kaleido-adapter-codex/src/reduce.rs), with the labels of the protocol.
 */
module CodexNotices {
  import opened Prelude
  import opened Canonical
  import opened Capability
  import opened CodexWire
  import opened CodexBindings
  import opened CodexStep
  import opened CodexRun
  import opened CodexJoin
  import opened CodexLedger
  import opened CodexHistory
  import opened CodexResponse

  const TURN_LABELS: map<string, TurnStatus> :=
    map["inProgress" := TurnRunning, "completed" := TurnCompleted, "failed" := TurnFailed,
      "interrupted" := TurnCancelled]

  const THREAD_LABELS: map<string, SessionStatus> :=
    map["active" := Running, "idle" := Idle, "notLoaded" := Offline, "systemError" := SessionFailed]

  lemma LabelsAgree(raw: string, p: Purpose)
    ensures TurnStatusOf(raw, p) == if raw in TURN_LABELS then Ok(TURN_LABELS[raw]) else Err(UnmodelledEnumeration(p))
    ensures SessionStatusOf(raw) ==
      if raw in THREAD_LABELS then Ok(THREAD_LABELS[raw]) else Err(UnmodelledEnumeration(ThreadStatusType))
  {
  }

  // ------------------------------------------------------------------ turns

  /** The turn that a notice shows. */
  ghost predicate ShowsNotice(turn: Turn, m: TurnNotice, origin: TurnOrigin, at: int)
    requires m.status in TURN_LABELS
  {
    var status := TURN_LABELS[m.status];
    && turn.id == TurnId(m.turn) && turn.session == SessionId(m.thread) && turn.status == status
      && turn.origin == origin
    && turn.startedAt == (if m.startedAt.Some? then Some(Saturate(1000 * m.startedAt.value)) else None)
    && turn.completedAt == (if m.completedAt.Some? then Some(Saturate(1000 * m.completedAt.value))
                            else if status == TurnRunning then None else Some(at))
    && turn.errorAt == (if status == TurnFailed then Some(at) else None)
  }

  ghost predicate TurnNoted(cfg: Config, s: State, o: Outcome, m: TurnNotice, at: int) {
    && (o.result.Ok? <==> m.thread in s.bindings.sessions && m.status in TURN_LABELS)
    && (o.result.Ok? ==> exists turn ::
          && Spoken(o.result.value) == [TurnUpserted(turn)]
          && ShowsNotice(turn, m, if TurnId(m.turn) in s.turns.origins then s.turns.origins[TurnId(m.turn)]
                                  else cfg.turnOrigin, at)
          && o.state.turns.current == (if turn.status == TurnRunning then Some(turn.id) else None)
          && o.state.turns.origins == s.turns.origins[turn.id := turn.origin])
  }

  predicate Beside(effects: seq<Effect>) { forall i | 0 <= i < |effects| :: !Concerns(effects[i]) }

  lemma {:induction false} NothingConcerns(effects: seq<Effect>)
    requires Beside(effects)
    ensures Spoken(effects) == []
  {
    if effects != [] {
      assert forall i | 0 <= i < |effects[1..]| :: effects[1..][i] == effects[i + 1];
      NothingConcerns(effects[1..]);
    }
  }

  lemma FinishSays(s: State)
    ensures Spoken(Finish(s).effects) == [] && Finish(s).state.turns == s.turns
  {
    hide Spoken;
    FinishShows(s);
    NothingConcerns(Finish(s).effects);
  }

  lemma NoteSays(cfg: Config, s: State, m: TurnNotice, session: SessionId, binding: TurnBinding, status: TurnStatus,
                 at: int)
    ensures
      var e := NoteTurn(cfg, s, m, session, binding, status, at);
      var turn := TurnFor(cfg, s.turns, binding, m, session, status, at);
      && Spoken(e.effects) == [TurnUpserted(turn)]
      && e.state.turns.current == (if status == TurnRunning then Some(turn.id) else None)
      && e.state.turns.origins == s.turns.origins[turn.id := turn.origin]
  {
    hide Spoken, TurnFor, RecordFor;
    var e := NoteTurn(cfg, s, m, session, binding, status, at);
    var turn := TurnUpserted(TurnFor(cfg, s.turns, binding, m, session, status, at));
    SpokenOne(turn);
    if m.hasError && status != TurnFailed {
      SpokenOne(e.effects[1]);
      assert e.effects == [turn] + [e.effects[1]];
      SpokenAppend([turn], [e.effects[1]]);
    }
  }

  lemma OpenTurnNoted(cfg: Config, s: State, f: Fields, m: TurnNotice, at: int)
    requires s.bindings.Minted() && DecodeTurnNotice(f) == Ok(m)
    ensures TurnNoted(cfg, s, ReduceTurnTransition(cfg, s, false, f, at), m, at)
  {
    hide DecodeTurnNotice, NoteTurn, Spoken, Finish, TurnStatusOf;
    LabelsAgree(m.status, TurnNotificationStatus);
    if m.thread in s.bindings.sessions && m.status in TURN_LABELS {
      var session := s.bindings.sessions[m.thread].id;
      var b := s.bindings.BindTurn(cfg.runtime, m.turn, session);
      var status := TURN_LABELS[m.status];
      NoteSays(cfg, s.(bindings := b), m, session, b.turns[m.turn], status, at);
      var turn := TurnFor(cfg, s.turns, b.turns[m.turn], m, session, status, at);
      assert ShowsNotice(turn, m, OriginOf(cfg, s.turns, TurnId(m.turn)), at);
    }
  }

  lemma TransitionNoted(cfg: Config, s: State, completed: bool, f: Fields, m: TurnNotice, at: int)
    requires s.bindings.Minted() && DecodeTurnNotice(f) == Ok(m)
    ensures TurnNoted(cfg, s, ReduceTurnTransition(cfg, s, completed, f, at), m, at)
  {
    hide ReduceTurnTransition, Finish, Spoken, DecodeTurnNotice, ShowsNotice;
    var open := ReduceTurnTransition(cfg, s, false, f, at);
    OpenTurnNoted(cfg, s, f, m, at);
    TurnCompletedCloses(cfg, s, f, at);
    if completed && open.result.Ok? {
      FinishSays(open.state);
      SpokenAppend(open.result.value, Finish(open.state).effects);
      assert Spoken(open.result.value) + [] == Spoken(open.result.value);
    }
  }

  lemma TurnDispatches(cfg: Config, s: State, frame: Frame, completed: bool, at: int)
    requires Notifies(Ingest(frame), if completed then "turn/completed" else "turn/started")
    ensures Dispatch(cfg, s, frame, at) == ReduceTurnTransition(cfg, s, completed, frame.fields, at)
  {
    hide ReduceTurnTransition;
  }

  lemma NoticeStep(cfg: Config, s: State, input: Input, completed: bool, m: TurnNotice)
    requires Kept(s) && Notifies(input, if completed then "turn/completed" else "turn/started")
    requires DecodeTurnNotice(input.frame.fields) == Ok(m)
    ensures
      var r := Step(cfg, s, input);
      r.reply.Reduced? && TurnNoted(cfg, s, Outcome(r.state, r.reply.result), m, TimeOf(cfg, input.frame))
  {
    var frame, at := input.frame, TimeOf(cfg, input.frame);
    var t := IngestSays(cfg, s, frame);
    TurnDispatches(cfg, t, frame, completed, at);
    hide ReduceTurnTransition, Spoken, DecodeTurnNotice, ShowsNotice, Dispatch, Place;
    TransitionNoted(cfg, t, completed, frame.fields, m, at);
  }

  /** At every point of every run, a notice about a turn shows exactly that turn, with its origin, times and status. */
  lemma NoticeShowsTheTurn(cfg: Config, inputs: seq<Input>, n: nat, completed: bool, m: TurnNotice)
    requires n < |inputs| && Notifies(inputs[n], if completed then "turn/completed" else "turn/started")
    requires DecodeTurnNotice(inputs[n].frame.fields) == Ok(m)
    ensures ReplyAt(cfg, inputs, n).Reduced?
    ensures TurnNoted(cfg, At(cfg, inputs, n), Outcome(At(cfg, inputs, n + 1), ReplyAt(cfg, inputs, n).result), m,
      TimeOf(cfg, inputs[n].frame))
  {
    hide Step, Execute, Kept, DecodeTurnNotice, TurnNoted;
    KeptAlways(cfg, inputs, n);
    AtNext(cfg, inputs, n);
    NoticeStep(cfg, At(cfg, inputs, n), inputs[n], completed, m);
  }

  // ------------------------------------------------------------------ sessions

  /** The session that a started thread opens. */
  ghost predicate Opened(cfg: Config, session: Session, thread: string, at: int) {
    && session.id == SessionId(thread) && session.status == Idle && session.createdAt == at
    && session.updatedAt == at && session.lastActivityAt == at
    && session.liveBinding == (if cfg.evidence == ObservedInTraffic
                               then Observing(cfg.runtime, at, Evidence(ObservedInTraffic, at))
                               else NotBound(NeverStarted))
  }

  ghost predicate ThreadAnswered(cfg: Config, s: State, o: Outcome, f: Fields, at: int) {
    var thread, root := ReadText(f, SessionThreadId), ReadText(f, SessionProjectRoot);
    && (o.result.Ok? <==> thread.Ok? && root.Ok?)
    && (o.result.Err? ==> o.state.live.session == s.live.session)
    && (o.result.Ok? ==>
          && o.state.live.rawThread == Some(thread.value) && o.state.live.sessionId == Some(SessionId(thread.value))
          && o.state.live.session.Some? && Opened(cfg, o.state.live.session.value, thread.value, at)
          && ProjectUpserted(ContentRef(FilePath, root.value), at) in o.result.value
          && SessionUpserted(o.state.live.session.value) in o.result.value)
  }

  lemma SessionAnswered(cfg: Config, s: State, f: Fields, at: int)
    requires s.bindings.Minted()
    ensures ThreadAnswered(cfg, s, BootstrapSession(cfg, s, f, at), f, at)
  {
    hide ReadText, ProveSession;
    var o := BootstrapSession(cfg, s, f, at);
    if o.result.Ok? {
      assert o.result.value[1] in o.result.value && o.result.value[2] in o.result.value;
    }
  }

  lemma ThreadStep(cfg: Config, s: State, input: Input, id: int)
    requires Kept(s) && Responds(input, id) && id in s.calls.client && s.calls.client[id].ThreadStart?
    ensures
      var r := Step(cfg, s, input);
      && r.reply.Reduced?
      && ThreadAnswered(cfg, s, Outcome(r.state, r.reply.result), input.frame.fields, TimeOf(cfg, input.frame))
  {
    var frame, at := input.frame, TimeOf(cfg, input.frame);
    var t := Bootstrap(s.(live := s.live.(probe := s.live.probe.Advance(at))), at).state;
    hide BootstrapSession, ReadText, Opened, ReduceTurnResponse;
    var s1 := t.(calls := t.calls.(client := t.calls.client - {id}));
    SessionAnswered(cfg, s1, frame.fields, at);
    var d := Dispatch(cfg, t, frame, at);
    assert d == BootstrapSession(cfg, s1, frame.fields, at);
    if d.result.Ok? {
      var added := CapabilitiesUpdated(d.state.live.probe.ToCapabilities());
      forall e | e in d.result.value ensures e in Place(d.result.value, added) { PlaceKeeps(d.result.value, added, e); }
    }
  }

  lemma {:induction false} PlaceKeeps(effects: seq<Effect>, added: Effect, e: Effect)
    requires e in effects
    ensures e in Place(effects, added)
  {
    if !PromotesControl(effects[0]) && e != effects[0] {
      assert effects == [effects[0]] + effects[1..];
      PlaceKeeps(effects[1..], added, e);
    }
  }

  /** At every point of every run, the response to a started thread opens its session. */
  lemma ThreadOpensASession(cfg: Config, inputs: seq<Input>, n: nat, id: int)
    requires n < |inputs| && Responds(inputs[n], id) && OpenCall(inputs, n, id, "thread/start")
    ensures ReplyAt(cfg, inputs, n).Reduced?
    ensures ThreadAnswered(cfg, At(cfg, inputs, n), Outcome(At(cfg, inputs, n + 1), ReplyAt(cfg, inputs, n).result),
      inputs[n].frame.fields, TimeOf(cfg, inputs[n].frame))
  {
    hide Step, Execute, Kept, ThreadAnswered, OpenCall;
    KeptAlways(cfg, inputs, n);
    AtNext(cfg, inputs, n);
    CallsAreOpen(cfg, inputs, n, id, ThreadStart);
    assert Names("thread/start", ThreadStart);
    ThreadStep(cfg, At(cfg, inputs, n), inputs[n], id);
  }

  /** A status notice gives the session the status its label names. */
  ghost predicate StatusNoted(s: State, o: Outcome, thread: string, status: string) {
    && (o.result.Ok? <==> thread in s.bindings.sessions && status in THREAD_LABELS)
    && (o.result.Ok? ==>
          && SessionStatusChanged(SessionId(thread), THREAD_LABELS[status]) in o.result.value
          && o.state.live.session.Some? == s.live.session.Some?
          && (s.live.session.Some? ==>
                && o.state.live.session.value.status == THREAD_LABELS[status]
                && o.state.live.session.value.id == s.live.session.value.id
                && o.state.live.session.value.liveBinding == s.live.session.value.liveBinding))
  }

  lemma StatusSays(s: State, f: Fields, at: int, thread: string, status: string)
    requires s.bindings.Minted() && ReadText(f, ThreadStatusThreadId) == Ok(thread)
      && ReadText(f, ThreadStatusType) == Ok(status)
    ensures StatusNoted(s, ReduceStatusChanged(s, f, at), thread, status)
  {
    hide ReadText, SessionStatusOf;
    LabelsAgree(status, ThreadStatusType);
    var o := ReduceStatusChanged(s, f, at);
    if o.result.Ok? { assert o.result.value[0] in o.result.value; }
  }

  lemma StatusStep(cfg: Config, s: State, input: Input, thread: string, status: string)
    requires Kept(s) && Notifies(input, "thread/status/changed")
    requires ReadText(input.frame.fields, ThreadStatusThreadId) == Ok(thread)
    requires ReadText(input.frame.fields, ThreadStatusType) == Ok(status)
    ensures
      var r := Step(cfg, s, input);
      r.reply.Reduced? && StatusNoted(s, Outcome(r.state, r.reply.result), thread, status)
  {
    var frame, at := input.frame, TimeOf(cfg, input.frame);
    var t := Bootstrap(s.(live := s.live.(probe := s.live.probe.Advance(at))), at).state;
    hide ReduceStatusChanged, ReadText;
    StatusSays(t, frame.fields, at, thread, status);
    var d := Dispatch(cfg, t, frame, at);
    assert d == ReduceStatusChanged(t, frame.fields, at);
    if d.result.Ok? {
      var added := CapabilitiesUpdated(d.state.live.probe.ToCapabilities());
      forall e | e in d.result.value ensures e in Place(d.result.value, added) { PlaceKeeps(d.result.value, added, e); }
    }
  }

  lemma StatusIsShown(cfg: Config, inputs: seq<Input>, n: nat, thread: string, status: string)
    requires n < |inputs| && Notifies(inputs[n], "thread/status/changed")
    requires ReadText(inputs[n].frame.fields, ThreadStatusThreadId) == Ok(thread)
    requires ReadText(inputs[n].frame.fields, ThreadStatusType) == Ok(status)
    ensures ReplyAt(cfg, inputs, n).Reduced?
    ensures StatusNoted(At(cfg, inputs, n), Outcome(At(cfg, inputs, n + 1), ReplyAt(cfg, inputs, n).result), thread,
      status)
  {
    hide Step, Execute, Kept, StatusNoted, ReadText;
    KeptAlways(cfg, inputs, n);
    AtNext(cfg, inputs, n);
    StatusStep(cfg, At(cfg, inputs, n), inputs[n], thread, status);
  }
}
