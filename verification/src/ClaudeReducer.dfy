/**
 The Claude reducer as an object (crates/kaleido-adapter-claude/src/reduce.rs). Each method's new state
 and outcome are those of the step function of `ClaudeStep`.
 */
module ClaudeReducer {
  import opened Prelude
  import opened Canonical
  import opened Capability
  import opened ClaudeStep

  class Reducer {
    const cfg: Config
    const probe: CapabilityProbe
    var sessionId: Option<SessionId>
    var rawSession: Option<string>
    var boundCwd: Option<string>
    var session: Option<LiveSession>
    var currentTurn: Option<string>
    var queuedTurns: set<string>
    var published: seq<Capability>
    var bootstrapped: bool
    var ended: bool

    function View(): State
      reads this, probe
    {
      State(sessionId, rawSession, boundCwd, session, currentTurn, queuedTurns, probe.View(), published, bootstrapped,
        ended)
    }

    constructor (cfg: Config)
      ensures this.cfg == cfg && View() == Initial(cfg) && fresh(probe)
    {
      this.cfg := cfg;
      probe := new CapabilityProbe(cfg.runtime, cfg.baseAt, cfg.evidence);
      sessionId, rawSession, boundCwd, session, currentTurn := None, None, None, None, None;
      queuedTurns, published, bootstrapped, ended := {}, [], false, false;
    }

    // ---------------------------------------------------------------- claims

    method PublishCapabilities() returns (effect: Effect)
      modifies this`published
      ensures Stepped(View(), Ok([effect])) == Publish(old(View()))
    {
      published := probe.proven;
      effect := CapabilitiesUpdated(probe.View().ToCapabilities());
    }

    method RefreshLiveBinding(at: int) returns (effects: seq<Effect>)
      modifies this`session
      ensures Stepped(View(), Ok(effects)) == Refresh(cfg, old(View()), at)
    {
      if session.None? {
        return [];
      }
      var next := LiveClaim(cfg, probe.View(), at);
      if session.value.binding == next {
        return [];
      }
      session := Some(session.value.(binding := next, updatedAt := Max(session.value.updatedAt, at)));
      effects := [SessionUpserted(session.value)];
    }

    method UpdateSessionStatus(status: Status, at: int, before: seq<Effect>) returns (effects: seq<Effect>)
      modifies this`session
      ensures Stepped(View(), Ok(effects)) == ShowStatus(old(View()), status, at, before)
    {
      effects := before;
      if session.Some? {
        var next := session.value.(status := status);
        next := next.(updatedAt := Max(next.updatedAt, at), lastActivityAt := Max(next.lastActivityAt, at));
        next := next.(activeTurn := if currentTurn.Some? then Some(TurnId(currentTurn.value)) else None);
        session := Some(next);
        effects := effects + [SessionUpserted(next)];
      }
    }

    method BindCwdTo(cwd: string) returns (ok: bool)
      modifies this`boundCwd
      ensures ok <==> BindCwd(old(View()), cwd).Some?
      ensures ok ==> View() == BindCwd(old(View()), cwd).value
      ensures !ok ==> View() == old(View())
    {
      if cwd == "" {
        return false;
      }
      if boundCwd.Some? {
        return boundCwd.value == cwd;
      }
      boundCwd := Some(cwd);
      return true;
    }

    // ---------------------------------------------------------------- frames

    method ReadyReceived(cwd: Option<string>, at: int) returns (outcome: Outcome)
      modifies this
      ensures Stepped(View(), outcome) == ReduceReady(cfg, old(View()), cwd, at)
    {
      if sessionId.Some? || cwd.None? {
        return Ok([]);
      }
      var ok := BindCwdTo(cwd.value);
      if !ok {
        return Err(ProtocolViolation);
      }
      sessionId := Some(SessionId("broker-managed-session"));
      session := Some(LiveSession(sessionId.value, NotBound(NeverStarted), Ready, None, at, at, at, None, None));
      outcome := Ok([Conversation, SessionUpserted(session.value)]);
    }

    method SessionReceived(f: Frame, at: int) returns (outcome: Outcome)
      requires f.SessionBound?
      modifies this, probe
      ensures Stepped(View(), outcome) == ReduceSession(cfg, old(View()), f, at)
    {
      if f.raw.None? {
        return Err(MissingSessionId);
      }
      if (rawSession.Some? && rawSession.value != f.raw.value) || f.cwd.None? {
        return Err(ProtocolViolation);
      }
      var ok := BindCwdTo(f.cwd.value);
      if !ok {
        return Err(ProtocolViolation);
      }
      var id := if sessionId.Some? then sessionId.value else SessionId(f.raw.value);
      rawSession, sessionId := f.raw, Some(id);
      if f.resumed {
        probe.Prove(HistoryResume);
      }
      var binding := LiveClaim(cfg, probe.View(), at);
      var title := if f.title.Some? then f.title else if session.Some? then session.value.title else None;
      var createdAt := if session.Some? then session.value.createdAt else at;
      session := Some(LiveSession(id, binding, Ready, title, createdAt, at, at, None,
        Some(Handle(cfg.runtime, SessionHandle, f.raw.value))));
      outcome := Ok([Conversation, SessionUpserted(session.value)]);
    }

    method SessionListReceived(cwd: Option<string>, sessions: Option<seq<Listed>>) returns (outcome: Outcome)
      modifies this`boundCwd, probe
      ensures Stepped(View(), outcome) == ReduceSessionList(cfg, old(View()), cwd, sessions)
    {
      hide ListedOk;
      if cwd.None? {
        return Err(ProtocolViolation);
      }
      var ok := BindCwdTo(cwd.value);
      if !ok || sessions.None? {
        return Err(ProtocolViolation);
      }
      probe.Prove(HistoryList);
      var entries, effects := sessions.value, [];
      for i := 0 to |entries|
        invariant forall k | 0 <= k < i :: ListedOk(entries[k])
        invariant effects == ListEffects(cfg, entries[..i])
        modifies {}
      {
        if !ListedOk(entries[i]) {
          return Err(ProtocolViolation);
        }
        effects := effects + [SessionUpserted(ListedSession(cfg, entries[i]))];
      }
      assert entries[..|entries|] == entries;
      outcome := Ok([Conversation] + effects);
    }

    method SessionMessagesReceived(f: Frame) returns (outcome: Outcome)
      requires f.SessionMessages?
      modifies this`boundCwd, probe
      ensures Stepped(View(), outcome) == ReduceSessionMessages(old(View()), f)
    {
      if !f.headerOk || f.cwd.None? {
        return Err(ProtocolViolation);
      }
      var ok := BindCwdTo(f.cwd.value);
      if !ok || !f.pageOk {
        return Err(ProtocolViolation);
      }
      if !f.empty {
        probe.Prove(HistoryRead);
      }
      outcome := Ok([Conversation]);
    }

    method PromptReceived(accepted: bool, turn: Option<string>, at: int) returns (outcome: Outcome)
      modifies this, probe
      ensures Stepped(View(), outcome) == ReducePrompt(old(View()), accepted, turn, at)
    {
      hide ShowStatus;
      if turn.None? {
        return Err(ProtocolViolation);
      }
      probe.Prove(TurnPrompt);
      if accepted && turn.value in queuedTurns {
        probe.Prove(QueueWrite);
      }
      currentTurn := turn;
      if sessionId.None? {
        return Ok([]);
      }
      var effects := [Conversation];
      if accepted {
        effects := UpdateSessionStatus(Working, at, effects);
      }
      outcome := Ok(effects);
    }

    method InteractionReceived(f: Frame, at: int) returns (outcome: Outcome)
      requires f.PermissionRequest? || f.PermissionResult? || f.QuestionRequest? || f.QuestionResult?
      modifies this`session, probe
      ensures Stepped(View(), outcome) == Dispatch(cfg, old(View()), f, at)
    {
      hide ShowStatus;
      var effects := [Conversation];
      match f {
        case PermissionRequest(request, isQuestion, inputOk) =>
          if request.None? {
            return Err(ProtocolViolation);
          }
          if isQuestion || sessionId.None? {
            return Ok(effects);
          }
          probe.Prove(InteractionApproval);
          if !inputOk {
            return Err(ProtocolViolation);
          }
          effects := UpdateSessionStatus(WaitingApproval, at, effects);
        case PermissionResult(request, known, decisionOk) =>
          if request.None? {
            return Err(ProtocolViolation);
          }
          if !known {
            return Ok([]);
          }
          if !decisionOk {
            return Err(ProtocolViolation);
          }
          effects := UpdateSessionStatus(Working, at, effects);
        case QuestionRequest(wellFormed) =>
          if !wellFormed || sessionId.None? {
            return Err(ProtocolViolation);
          }
          probe.Prove(InteractionQuestion);
          effects := UpdateSessionStatus(WaitingUser, at, effects);
        case QuestionResult(wellFormed) =>
          if !wellFormed {
            return Err(ProtocolViolation);
          }
          effects := UpdateSessionStatus(Working, at, effects);
      }
      outcome := Ok(effects);
    }

    method InterruptReceived(cancelled: bool, turnKnown: bool, at: int) returns (outcome: Outcome)
      modifies this`session, probe
      ensures Stepped(View(), outcome) == ReduceInterrupt(old(View()), cancelled, turnKnown, at)
    {
      hide ShowStatus;
      probe.Prove(TurnInterrupt);
      if cancelled && currentTurn.Some? && turnKnown {
        var effects := UpdateSessionStatus(Stopped, at, [Conversation]);
        return Ok(effects);
      }
      outcome := Ok([]);
    }

    method SdkReceived(f: Frame, at: int) returns (outcome: Outcome)
      requires f.Sdk?
      modifies this, probe
      ensures Stepped(View(), outcome) == ReduceSdk(old(View()), f, at)
    {
      if f.event.None? {
        return Err(MalformedFrame);
      }
      if f.raw.None? || f.raw.value == "" {
        return Err(MissingSessionId);
      }
      if rawSession.Some? && rawSession.value != f.raw.value {
        return Err(ProtocolViolation);
      }
      var turn := if f.turn.Some? then f.turn.value else if currentTurn.Some? then currentTurn.value else "sdk-turn";
      outcome := SdkEventReceived(f.event.value, turn, at);
    }

    method SdkEventReceived(e: SdkEvent, turn: string, at: int) returns (outcome: Outcome)
      modifies this, probe
      ensures Stepped(View(), outcome) == ReduceSdkEvent(old(View()), e, turn, at)
    {
      hide ShowStatus;
      if (e.User? || e.Assistant? || e.TurnResult?) && sessionId.None? {
        return Err(ProtocolViolation);
      }
      if e.User? || e.Assistant? || e.TurnResult? {
        currentTurn := Some(turn);
      }
      outcome := Ok([Conversation]);
      match e
      case User(ok) =>
        if !ok { outcome := Err(ProtocolViolation); }
      case Assistant(failed, ok) =>
        if failed {
          probe.MarkConnectionUnavailable(AuthenticationRequired);
        }
        if !ok { outcome := Err(ProtocolViolation); }
      case StreamText(ok) =>
        if !ok || sessionId.None? { outcome := Err(ProtocolViolation); }
      case ToolSummary(ok) =>
        if !ok { outcome := Err(ProtocolViolation); }
      case TurnResult(status) =>
        var effects := UpdateSessionStatus(status, at, [Conversation]);
        outcome := Ok(effects);
      case Init(cwd) =>
        if cwd.None? || cwd.value == "" || session.None? || boundCwd != cwd {
          return Err(ProtocolViolation);
        }
        probe.Prove(LiveObserve);
        outcome := Ok([]);
      case _ =>
    }

    method DispatchFrame(f: Frame, at: int) returns (outcome: Outcome)
      modifies this, probe
      ensures Stepped(View(), outcome) == Dispatch(cfg, old(View()), f, at)
    {
      hide ReduceReady, ReduceSession, ReduceSessionList, ReduceSessionMessages, ReducePrompt, ReduceInterrupt,
        ReduceSdk;
      match f
      case HostCommand => outcome := Err(ProtocolViolation);
      case ReadyFrame(cwd) => outcome := ReadyReceived(cwd, at);
      case SessionBound(_, _, _, _) => outcome := SessionReceived(f, at);
      case SessionList(cwd, sessions) => outcome := SessionListReceived(cwd, sessions);
      case SessionMessages(_, _, _, _) => outcome := SessionMessagesReceived(f);
      case Prompt(accepted, turn) => outcome := PromptReceived(accepted, turn, at);
      case Interrupt(cancelled, known) => outcome := InterruptReceived(cancelled, known, at);
      case Sdk(_, _, _) => outcome := SdkReceived(f, at);
      case Notice => outcome := Ok([Conversation]);
      case _ => outcome := InteractionReceived(f, at);
    }

    method EnsureBootstrapped(at: int) returns (effects: seq<Effect>)
      modifies this`bootstrapped
      ensures Stepped(View(), Ok(effects)) == Bootstrap(old(View()), at)
    {
      if bootstrapped {
        return [];
      }
      bootstrapped := true;
      effects := [HostUpserted(at), RuntimeUpserted(Connected(at), probe.View().ToCapabilities())];
    }

    method IngestOne(f: Frame, offset: int) returns (outcome: Outcome)
      modifies this, probe
      ensures Stepped(View(), outcome) == IngestFrame(cfg, old(View()), f, offset)
    {
      hide Dispatch, Publish, Refresh, Bootstrap;
      if f.HostCommand? {
        return Err(ProtocolViolation);
      }
      var at := Saturate(cfg.baseAt + offset);
      probe.AdvanceObservation(at);
      var effects := EnsureBootstrapped(at);
      var reduced :- DispatchFrame(f, at);
      effects := effects + reduced;
      if probe.proven != published {
        var effect := PublishCapabilities();
        var refreshed := RefreshLiveBinding(at);
        assert (effects + [effect]) + refreshed == effects + ([effect] + refreshed);
        effects := effects + [effect] + refreshed;
      }
      outcome := Ok(effects);
    }

    // ---------------------------------------------------------------- lifecycle

    method GoOffline(reason: UnboundReason, at: int)
      modifies this`session
      ensures View() == TakeOffline(old(View()), reason, at)
    {
      if session.Some? {
        var offline := session.value.(status := Asleep, binding := NotBound(reason));
        session := Some(offline.(updatedAt := Max(offline.updatedAt, at),
          lastActivityAt := Max(offline.lastActivityAt, at)));
      }
    }

    method ProcessHasExited(exitCode: Option<int>, at: int) returns (effects: seq<Effect>)
      modifies this, probe
      ensures Stepped(View(), Ok(effects)) == ProcessExited(old(View()), exitCode, at)
    {
      if ended {
        return [];
      }
      ended := true;
      probe.MarkConnectionUnavailable(RuntimeDisconnected);
      effects := [RuntimeUpserted(Unavailable(exitCode, at), probe.View().ToCapabilities())];
      GoOffline(RuntimeExited, at);
      if session.Some? {
        effects := effects + [SessionUpserted(session.value)] + [Conversation];
      } else {
        assert effects + [] + [] == effects;
      }
    }

    method HasDisconnected(at: int) returns (effects: seq<Effect>)
      modifies this, probe
      ensures Stepped(View(), Ok(effects)) == CleanDisconnected(old(View()), at)
    {
      if ended {
        return [];
      }
      ended := true;
      probe.MarkConnectionUnavailable(SubscriptionLostReason);
      effects := [RuntimeUpserted(Disconnected, probe.View().ToCapabilities())];
      GoOffline(SubscriptionLost, at);
      if session.Some? {
        effects := effects + [SessionUpserted(session.value)];
      } else {
        assert effects + [] == effects;
      }
    }

    method LoseConnection(reason: UnavailableReason, at: int) returns (effects: seq<Effect>)
      modifies this, probe
      ensures Stepped(View(), Ok(effects)) == MarkConnectionUnavailable(old(View()), reason, at)
    {
      probe.MarkConnectionUnavailable(reason);
      effects := [CapabilitiesUpdated(probe.View().ToCapabilities())];
      GoOffline(SubscriptionLost, at);
      if session.Some? {
        effects := effects + [SessionUpserted(session.value)];
      } else {
        assert effects + [] == effects;
      }
    }

    method ResumeSession(id: SessionId, raw: string)
      modifies this, probe
      ensures Stepped(View(), Ok([])) == PrepareResume(old(View()), id, raw)
    {
      sessionId, rawSession := Some(id), Some(raw);
      session, ended := None, false;
      probe.ResetConnection(probe.observedAt);
    }

    method AcceptCommand(command: CommandId, receipt: string, at: int) returns (outcome: Outcome)
      modifies this, probe
      ensures Stepped(View(), outcome) == CommandAccepted(cfg, old(View()), command, receipt, at)
    {
      hide Publish, Refresh;
      if sessionId.None? {
        return Err(NotConnected);
      }
      var _ := probe.ObserveRuntimeAcceptance(AcceptedByRuntime(sessionId.value,
        Handle(cfg.runtime, AcknowledgementHandle, receipt)));
      var effect := PublishCapabilities();
      var refreshed := RefreshLiveBinding(at);
      outcome := Ok([CommandAcknowledged(command, at)] + ([effect] + refreshed));
    }

    // ---------------------------------------------------------------- runs

    method Receive(input: Input) returns (outcome: Outcome)
      modifies this, probe
      ensures Stepped(View(), outcome) == Step(cfg, old(View()), input)
    {
      hide IngestFrame, ProcessExited, CleanDisconnected, MarkConnectionUnavailable, CommandAccepted;
      match input
      case Ingest(f, offset) => outcome := IngestOne(f, offset);
      case Exit(code, at) => var effects := ProcessHasExited(code, at); outcome := Ok(effects);
      case Disconnect(at) => var effects := HasDisconnected(at); outcome := Ok(effects);
      case ConnectionLost(reason, at) => var effects := LoseConnection(reason, at); outcome := Ok(effects);
      case Resume(id, raw) => ResumeSession(id, raw); outcome := Ok([]);
      case Accept(command, receipt, at) => outcome := AcceptCommand(command, receipt, at);
      case Queue(turn) => queuedTurns := queuedTurns + {turn}; outcome := Ok([]);
      case Forget(turn) => queuedTurns := queuedTurns - {turn}; outcome := Ok([]);
    }
  }

  /** Feeding the object a run leaves it where `Execute` says, with the same outcomes. */
  method Replay(cfg: Config, inputs: seq<Input>) returns (reducer: Reducer, outcomes: seq<Outcome>)
    ensures fresh(reducer) && reducer.cfg == cfg
    ensures reducer.View() == Execute(cfg, inputs).state && outcomes == Execute(cfg, inputs).outcomes
  {
    hide Step;
    reducer := new Reducer(cfg);
    outcomes := [];
    for i := 0 to |inputs|
      invariant fresh(reducer) && fresh(reducer.probe) && reducer.cfg == cfg
      invariant reducer.View() == Execute(cfg, inputs[..i]).state && outcomes == Execute(cfg, inputs[..i]).outcomes
    {
      assert inputs[..i + 1][..i] == inputs[..i];
      var outcome := reducer.Receive(inputs[i]);
      outcomes := outcomes + [outcome];
    }
    assert inputs[..|inputs|] == inputs;
  }
}
