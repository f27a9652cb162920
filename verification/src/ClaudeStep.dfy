/**
 The part of the Claude reducer that makes, publishes and revokes live claims
 (crates/kaleido-adapter-claude/src/reduce.rs). Conversation content (turns, items, attention,
 diagnostics) is carried only as far as it decides whether a frame is accepted and what it does to the
 session, the probe and the published capabilities; what such content decides is a field of the frame.
 */
module ClaudeStep {
  import opened Prelude
  import opened Canonical
  import opened Capability

  datatype Status = Asleep | Ready | Working | WaitingApproval | WaitingUser | Stopped | Broken

  datatype LiveSession = LiveSession(
    id: SessionId, binding: LiveBinding, status: Status, title: Option<string>,
    createdAt: int, updatedAt: int, lastActivityAt: int, activeTurn: Option<TurnId>, handle: Option<Handle>)

  /** `Conversation` stands for whatever a frame says about projects, turns, items, attention and diagnostics. */
  datatype Effect =
    | HostUpserted(at: int)
    | RuntimeUpserted(connection: ConnectionState, capabilities: RuntimeCapabilities)
    | CapabilitiesUpdated(capabilities: RuntimeCapabilities)
    | SessionUpserted(session: LiveSession)
    | CommandAcknowledged(command: CommandId, at: int)
    | Conversation

  datatype Rejection = ProtocolViolation | MissingSessionId | MalformedFrame | NotConnected

  type Outcome = Result<seq<Effect>, Rejection>

  datatype Listed = Listed(raw: Option<string>, title: Option<string>, modifiedAt: Option<int>)

  datatype SdkEvent =
    | User(blocksOk: bool)
    | Assistant(authenticationFailed: bool, blocksOk: bool)
    | StreamText(textOk: bool)
    | ToolProgress
    | ToolSummary(ok: bool)
    | TurnResult(status: Status)
    | Init(cwd: Option<string>)
    | Ignored

  datatype Frame =
    | HostCommand
    | ReadyFrame(cwd: Option<string>)
    | SessionBound(resumed: bool, raw: Option<string>, cwd: Option<string>, title: Option<string>)
    | SessionList(cwd: Option<string>, sessions: Option<seq<Listed>>)
    | SessionMessages(cwd: Option<string>, headerOk: bool, pageOk: bool, empty: bool)
    | Prompt(accepted: bool, turn: Option<string>)
    | PermissionRequest(request: Option<string>, isQuestion: bool, inputOk: bool)
    | PermissionResult(request: Option<string>, known: bool, decisionOk: bool)
    | QuestionRequest(wellFormed: bool)
    | QuestionResult(wellFormed: bool)
    | Interrupt(cancelled: bool, turnKnown: bool)
    | Sdk(event: Option<SdkEvent>, raw: Option<string>, turn: Option<string>)
    | Notice

  datatype Config = Config(runtime: RuntimeId, baseAt: int, evidence: EvidenceSource)

  datatype State = State(
    sessionId: Option<SessionId>,
    rawSession: Option<string>,
    boundCwd: Option<string>,
    session: Option<LiveSession>,
    currentTurn: Option<string>,
    queuedTurns: set<string>,
    probe: ProbeState,
    published: seq<Capability>,
    bootstrapped: bool,
    ended: bool)

  datatype Stepped = Stepped(state: State, outcome: Outcome)

  function Initial(cfg: Config): State {
    State(None, None, None, None, None, {}, ProbeState(cfg.runtime, cfg.baseAt, [], map[], cfg.evidence), [], false,
      false)
  }

  // ------------------------------------------------------------------ live binding

  /** What may be claimed about a session, from the evidence alone. */
  function LiveClaim(cfg: Config, probe: ProbeState, at: int): LiveBinding {
    if cfg.evidence != ObservedInTraffic || LiveObserve !in probe.proven then NotBound(NeverStarted)
    else
      var evidence := Evidence(ObservedInTraffic, at);
      if LiveControl in probe.proven then Controlling(cfg.runtime, at, evidence)
        else Observing(cfg.runtime, at, evidence)
  }

  function Publish(s: State): Stepped {
    Stepped(s.(published := s.probe.proven), Ok([CapabilitiesUpdated(s.probe.ToCapabilities())]))
  }

  function Refresh(cfg: Config, s: State, at: int): Stepped {
    if s.session.None? then Stepped(s, Ok([]))
    else
      var claim := LiveClaim(cfg, s.probe, at);
      if s.session.value.binding == claim then Stepped(s, Ok([]))
      else
        var next := s.session.value.(binding := claim, updatedAt := Max(s.session.value.updatedAt, at));
        Stepped(s.(session := Some(next)), Ok([SessionUpserted(next)]))
  }

  function PublishAndRefresh(cfg: Config, s: State, at: int): Stepped {
    var published := Publish(s);
    var refreshed := Refresh(cfg, published.state, at);
    Stepped(refreshed.state, Ok(published.outcome.value + refreshed.outcome.value))
  }

  // ------------------------------------------------------------------ frames

  function Prove(s: State, c: Capability): State { s.(probe := s.probe.Prove(c)) }

  function Reject(s: State, why: Rejection): Stepped { Stepped(s, Err(why)) }

  function BindCwd(s: State, cwd: string): Option<State> {
    if cwd == "" || (s.boundCwd.Some? && s.boundCwd.value != cwd) then None else Some(s.(boundCwd := Some(cwd)))
  }

  /** `update_session_status`: shows the session again under a new status. */
  function ShowStatus(s: State, status: Status, at: int, before: seq<Effect>): Stepped {
    if s.session.None? then Stepped(s, Ok(before))
    else
      var old' := s.session.value;
      var next := old'.(status := status, updatedAt := Max(old'.updatedAt, at),
        lastActivityAt := Max(old'.lastActivityAt, at),
                        activeTurn := if s.currentTurn.Some? then Some(TurnId(s.currentTurn.value)) else None);
      Stepped(s.(session := Some(next)), Ok(before + [SessionUpserted(next)]))
  }

  function ReduceReady(cfg: Config, s: State, cwd: Option<string>, at: int): Stepped {
    if s.sessionId.Some? || cwd.None? then Stepped(s, Ok([]))
    else
      var bound := BindCwd(s, cwd.value);
      if bound.None? then Reject(s, ProtocolViolation)
      else
        var id := SessionId("broker-managed-session");
        var session := LiveSession(id, NotBound(NeverStarted), Ready, None, at, at, at, None, None);
        Stepped(bound.value.(sessionId := Some(id), session := Some(session)),
          Ok([Conversation, SessionUpserted(session)]))
  }

  function ReduceSession(cfg: Config, s: State, f: Frame, at: int): Stepped
    requires f.SessionBound?
  {
    if f.raw.None? then Reject(s, MissingSessionId)
    else if (s.rawSession.Some? && s.rawSession.value != f.raw.value) || f.cwd.None? then Reject(s, ProtocolViolation)
    else
      var bound := BindCwd(s, f.cwd.value);
      if bound.None? then Reject(s, ProtocolViolation) else EstablishSession(cfg, bound.value, f, at)
  }

  function EstablishSession(cfg: Config, s: State, f: Frame, at: int): Stepped
    requires f.SessionBound? && f.raw.Some?
  {
    var id := if s.sessionId.Some? then s.sessionId.value else SessionId(f.raw.value);
    var s1 := s.(rawSession := f.raw, sessionId := Some(id));
    var s2 := if f.resumed then Prove(s1, HistoryResume) else s1;
    var title := if f.title.Some? then f.title else if s.session.Some? then s.session.value.title else None;
    var session := LiveSession(id, LiveClaim(cfg, s2.probe, at), Ready, title,
      if s.session.Some? then s.session.value.createdAt else at, at, at, None,
        Some(Handle(cfg.runtime, SessionHandle, f.raw.value)));
    Stepped(s2.(session := Some(session)), Ok([Conversation, SessionUpserted(session)]))
  }

  /** A session found in the provider's history is shown offline. */
  function ListedSession(cfg: Config, e: Listed): LiveSession
    requires ListedOk(e)
  {
    LiveSession(SessionId(e.raw.value), NotBound(NeverStarted), Asleep, e.title, e.modifiedAt.value, e.modifiedAt.value,
      e.modifiedAt.value, None, Some(Handle(cfg.runtime, SessionHandle, e.raw.value)))
  }

  predicate ListedOk(e: Listed) { e.raw.Some? && e.raw.value != "" && e.modifiedAt.Some? }

  function ListEffects(cfg: Config, entries: seq<Listed>): (effects: seq<Effect>)
    requires forall i | 0 <= i < |entries| :: ListedOk(entries[i])
    ensures |effects| == |entries|
    ensures forall i | 0 <= i < |entries| :: effects[i] == SessionUpserted(ListedSession(cfg, entries[i]))
  {
    seq(|entries|, i requires 0 <= i < |entries| => SessionUpserted(ListedSession(cfg, entries[i])))
  }

  function ReduceSessionList(cfg: Config, s: State, cwd: Option<string>, sessions: Option<seq<Listed>>): Stepped {
    if cwd.None? then Reject(s, ProtocolViolation)
    else
      var bound := BindCwd(s, cwd.value);
      if bound.None? then Reject(s, ProtocolViolation)
      else if sessions.None? then Reject(bound.value, ProtocolViolation)
      else
        var listed := Prove(bound.value, HistoryList);
        if exists i | 0 <= i < |sessions.value| :: !ListedOk(sessions.value[i]) then Reject(listed, ProtocolViolation)
        else Stepped(listed, Ok([Conversation] + ListEffects(cfg, sessions.value)))
  }

  function ReduceSessionMessages(s: State, f: Frame): Stepped
    requires f.SessionMessages?
  {
    if !f.headerOk || f.cwd.None? then Reject(s, ProtocolViolation)
    else
      var bound := BindCwd(s, f.cwd.value);
      if bound.None? then Reject(s, ProtocolViolation)
      else if !f.pageOk then Reject(bound.value, ProtocolViolation)
      else Stepped(if f.empty then bound.value else Prove(bound.value, HistoryRead), Ok([Conversation]))
  }

  function ReducePrompt(s: State, accepted: bool, turn: Option<string>, at: int): Stepped {
    if turn.None? then Reject(s, ProtocolViolation)
    else
      var s1 := Prove(s, TurnPrompt);
      var s2 := if accepted && turn.value in s.queuedTurns then Prove(s1, QueueWrite) else s1;
      var s3 := s2.(currentTurn := turn);
      if s.sessionId.None? then Stepped(s3, Ok([]))
      else if accepted then ShowStatus(s3, Working, at, [Conversation])
      else Stepped(s3, Ok([Conversation]))
  }

  function ReducePermissionRequest(s: State, f: Frame, at: int): Stepped
    requires f.PermissionRequest?
  {
    if f.request.None? then Reject(s, ProtocolViolation)
    else if f.isQuestion || s.sessionId.None? then Stepped(s, Ok([Conversation]))
    else
      var s1 := Prove(s, InteractionApproval);
      if !f.inputOk then Reject(s1, ProtocolViolation) else ShowStatus(s1, WaitingApproval, at, [Conversation])
  }

  function ReducePermissionResult(s: State, f: Frame, at: int): Stepped
    requires f.PermissionResult?
  {
    if f.request.None? then Reject(s, ProtocolViolation)
    else if !f.known then Stepped(s, Ok([]))
    else if !f.decisionOk then Reject(s, ProtocolViolation)
    else ShowStatus(s, Working, at, [Conversation])
  }

  function ReduceQuestionRequest(s: State, wellFormed: bool, at: int): Stepped {
    if !wellFormed || s.sessionId.None? then Reject(s, ProtocolViolation)
    else ShowStatus(Prove(s, InteractionQuestion), WaitingUser, at, [Conversation])
  }

  function ReduceQuestionResult(s: State, wellFormed: bool, at: int): Stepped {
    if !wellFormed then Reject(s, ProtocolViolation) else ShowStatus(s, Working, at, [Conversation])
  }

  function ReduceInterrupt(s: State, cancelled: bool, turnKnown: bool, at: int): Stepped {
    var s1 := Prove(s, TurnInterrupt);
    if cancelled && s.currentTurn.Some? && turnKnown then ShowStatus(s1, Stopped, at, [Conversation])
      else Stepped(s1, Ok([]))
  }

  function ReduceSdk(s: State, f: Frame, at: int): Stepped
    requires f.Sdk?
  {
    if f.event.None? then Reject(s, MalformedFrame)
    else if f.raw.None? || f.raw.value == "" then Reject(s, MissingSessionId)
    else if s.rawSession.Some? && s.rawSession.value != f.raw.value then Reject(s, ProtocolViolation)
    else
      var turn := if f.turn.Some? then f.turn.value else if s.currentTurn.Some? then s.currentTurn.value
        else "sdk-turn";
      ReduceSdkEvent(s, f.event.value, turn, at)
  }

  function ReduceSdkEvent(s: State, e: SdkEvent, turn: string, at: int): Stepped {
    var inTurn := s.(currentTurn := Some(turn));
    match e
    case User(ok) =>
      if s.sessionId.None? then Reject(s, ProtocolViolation)
      else if !ok then Reject(inTurn, ProtocolViolation)
      else Stepped(inTurn, Ok([Conversation]))
    case Assistant(failed, ok) =>
      if s.sessionId.None? then Reject(s, ProtocolViolation)
      else
        var s1 := if failed then inTurn.(probe := s.probe.MarkUnavailable(AuthenticationRequired)) else inTurn;
        if !ok then Reject(s1, ProtocolViolation) else Stepped(s1, Ok([Conversation]))
    case StreamText(ok) =>
      if !ok || s.sessionId.None? then Reject(s, ProtocolViolation) else Stepped(s, Ok([Conversation]))
    case ToolProgress => Stepped(s, Ok([Conversation]))
    case ToolSummary(ok) => if ok then Stepped(s, Ok([Conversation])) else Reject(s, ProtocolViolation)
    case TurnResult(status) =>
      if s.sessionId.None? then Reject(s, ProtocolViolation) else ShowStatus(inTurn, status, at, [Conversation])
    case Init(cwd) =>
      if cwd.None? || cwd.value == "" || s.session.None? || s.boundCwd != cwd then Reject(s, ProtocolViolation)
      else Stepped(Prove(s, LiveObserve), Ok([]))
    case Ignored => Stepped(s, Ok([Conversation]))
  }

  function Dispatch(cfg: Config, s: State, f: Frame, at: int): Stepped {
    match f
    case HostCommand => Reject(s, ProtocolViolation)
    case ReadyFrame(cwd) => ReduceReady(cfg, s, cwd, at)
    case SessionBound(_, _, _, _) => ReduceSession(cfg, s, f, at)
    case SessionList(cwd, sessions) => ReduceSessionList(cfg, s, cwd, sessions)
    case SessionMessages(_, _, _, _) => ReduceSessionMessages(s, f)
    case Prompt(accepted, turn) => ReducePrompt(s, accepted, turn, at)
    case PermissionRequest(_, _, _) => ReducePermissionRequest(s, f, at)
    case PermissionResult(_, _, _) => ReducePermissionResult(s, f, at)
    case QuestionRequest(ok) => ReduceQuestionRequest(s, ok, at)
    case QuestionResult(ok) => ReduceQuestionResult(s, ok, at)
    case Interrupt(cancelled, known) => ReduceInterrupt(s, cancelled, known, at)
    case Sdk(_, _, _) => ReduceSdk(s, f, at)
    case Notice => Stepped(s, Ok([Conversation]))
  }

  /** The host and the runtime are shown once; a rejected first frame loses them. */
  function Bootstrap(s: State, at: int): Stepped {
    if s.bootstrapped then Stepped(s, Ok([]))
    else
      Stepped(s.(bootstrapped := true), Ok([HostUpserted(at),
        RuntimeUpserted(Connected(at), s.probe.ToCapabilities())]))
  }

  function IngestFrame(cfg: Config, s: State, f: Frame, offset: int): Stepped {
    if f.HostCommand? then Reject(s, ProtocolViolation)
    else
      var at := Saturate(cfg.baseAt + offset);
      var started := Bootstrap(s.(probe := s.probe.Advance(at)), at);
      var d := Dispatch(cfg, started.state, f, at);
      if d.outcome.Err? then d
      else Settle(cfg, Stepped(d.state, Ok(started.outcome.value + d.outcome.value)), at)
  }

  /** After an accepted frame: if the evidence differs from what was published, publish and re-derive the claim. */
  function Settle(cfg: Config, d: Stepped, at: int): Stepped
    requires d.outcome.Ok?
  {
    if d.state.probe.proven == d.state.published then d
    else
      var last := PublishAndRefresh(cfg, d.state, at);
      Stepped(last.state, Ok(d.outcome.value + last.outcome.value))
  }

  // ------------------------------------------------------------------ lifecycle

  function TakeOffline(s: State, reason: UnboundReason, at: int): State {
    if s.session.None? then s
    else
      var old' := s.session.value;
      s.(session := Some(old'.(status := Asleep, binding := NotBound(reason), updatedAt := Max(old'.updatedAt, at),
                               lastActivityAt := Max(old'.lastActivityAt, at))))
  }

  function ShowIfAny(s: State): seq<Effect> {
    if s.session.Some? then [SessionUpserted(s.session.value)] else []
  }

  function ProcessExited(s: State, exitCode: Option<int>, at: int): Stepped {
    if s.ended then Stepped(s, Ok([]))
    else
      var s1 := TakeOffline(s.(ended := true, probe := s.probe.MarkUnavailable(RuntimeDisconnected)), RuntimeExited,
        at);
      Stepped(s1, Ok([RuntimeUpserted(Unavailable(exitCode, at), s1.probe.ToCapabilities())] + ShowIfAny(s1)
                     + if s1.session.Some? then [Conversation] else []))
  }

  function CleanDisconnected(s: State, at: int): Stepped {
    if s.ended then Stepped(s, Ok([]))
    else
      var s1 := TakeOffline(s.(ended := true, probe := s.probe.MarkUnavailable(SubscriptionLostReason)),
        SubscriptionLost, at);
      Stepped(s1, Ok([RuntimeUpserted(Disconnected, s1.probe.ToCapabilities())] + ShowIfAny(s1)))
  }

  function MarkConnectionUnavailable(s: State, reason: UnavailableReason, at: int): Stepped {
    var s1 := TakeOffline(s.(probe := s.probe.MarkUnavailable(reason)), SubscriptionLost, at);
    Stepped(s1, Ok([CapabilitiesUpdated(s1.probe.ToCapabilities())] + ShowIfAny(s1)))
  }

  function PrepareResume(s: State, id: SessionId, raw: string): Stepped {
    Stepped(s.(sessionId := Some(id), rawSession := Some(raw), session := None, ended := false,
               probe := s.probe.Reset(s.probe.observedAt)), Ok([]))
  }

  /** A command the runtime accepted: acknowledged, counted as evidence, published, and the claim re-derived. */
  function CommandAccepted(cfg: Config, s: State, command: CommandId, receipt: string, at: int): Stepped {
    if s.sessionId.None? then Reject(s, NotConnected)
    else
      var outcome := AcceptedByRuntime(s.sessionId.value, Handle(cfg.runtime, AcknowledgementHandle, receipt));
      var last := PublishAndRefresh(cfg, s.(probe := s.probe.ObserveAcceptance(outcome)), at);
      Stepped(last.state, Ok([CommandAcknowledged(command, at)] + last.outcome.value))
  }

  // ------------------------------------------------------------------ one step of a run

  datatype Input =
    | Ingest(frame: Frame, offset: int)
    | Exit(exitCode: Option<int>, at: int)
    | Disconnect(at: int)
    | ConnectionLost(reason: UnavailableReason, at: int)
    | Resume(id: SessionId, raw: string)
    | Accept(command: CommandId, receipt: string, at: int)
    | Queue(turn: string)
    | Forget(turn: string)

  function Step(cfg: Config, s: State, input: Input): Stepped {
    match input
    case Ingest(f, offset) => IngestFrame(cfg, s, f, offset)
    case Exit(code, at) => ProcessExited(s, code, at)
    case Disconnect(at) => CleanDisconnected(s, at)
    case ConnectionLost(reason, at) => MarkConnectionUnavailable(s, reason, at)
    case Resume(id, raw) => PrepareResume(s, id, raw)
    case Accept(command, receipt, at) => CommandAccepted(cfg, s, command, receipt, at)
    case Queue(turn) => Stepped(s.(queuedTurns := s.queuedTurns + {turn}), Ok([]))
    case Forget(turn) => Stepped(s.(queuedTurns := s.queuedTurns - {turn}), Ok([]))
  }

  datatype Run = Run(state: State, stream: seq<Effect>, outcomes: seq<Outcome>)

  function EffectsOf(o: Outcome): seq<Effect> { if o.Ok? then o.value else [] }

  function Execute(cfg: Config, inputs: seq<Input>): (run: Run)
    ensures |run.outcomes| == |inputs|
  {
    if inputs == [] then Run(Initial(cfg), [], [])
    else
      var before := Execute(cfg, inputs[..|inputs| - 1]);
      var r := Step(cfg, before.state, inputs[|inputs| - 1]);
      Run(r.state, before.stream + EffectsOf(r.outcome), before.outcomes + [r.outcome])
  }
}
