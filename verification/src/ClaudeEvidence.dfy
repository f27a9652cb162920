/**
 What the Claude reducer holds proven, over every run (crates/kaleido-adapter-claude/src/reduce.rs): a capability is
 proven exactly if some input was evidence for it and nothing has revoked the evidence since.
 */
module ClaudeEvidence {
  import opened Prelude
  import opened Canonical
  import opened Capability
  import opened ClaudeStep
  import opened ClaudeExact
  import opened Lasting

  /** What a frame is evidence for, whether or not it is then rejected. */
  predicate FrameEvidences(s: State, f: Frame, c: Capability) {
    match f
    case SessionBound(resumed, raw, cwd, _) => c == HistoryResume && resumed && RawFits(s, raw) && CwdFits(s, cwd)
    case SessionList(cwd, sessions) => c == HistoryList && CwdFits(s, cwd) && sessions.Some?
    case SessionMessages(cwd, headerOk, pageOk, empty) =>
      c == HistoryRead && headerOk && pageOk && !empty && CwdFits(s, cwd)
    case Prompt(accepted, turn) =>
      turn.Some? && (c == TurnPrompt || (c == QueueWrite && accepted && turn.value in s.queuedTurns))
    case PermissionRequest(request, isQuestion, _) =>
      c == InteractionApproval && request.Some? && !isQuestion && s.sessionId.Some?
    case QuestionRequest(ok) => c == InteractionQuestion && ok && s.sessionId.Some?
    case Interrupt(_, _) => c == TurnInterrupt
    case Sdk(event, raw, _) =>
      && c == LiveObserve && event.Some? && event.value.Init? && RawFits(s, raw) && raw.value != ""
      && event.value.cwd.Some? && event.value.cwd.value != "" && s.session.Some? && s.boundCwd == event.value.cwd
    case _ => false
  }

  predicate Evidences(cfg: Config, s: State, input: Input, c: Capability) {
    match input
    case Ingest(f, _) => FrameEvidences(s, f, c)
    case Accept(_, _, _) => c == LiveControl && s.sessionId.Some? && cfg.evidence == ObservedInTraffic
    case _ => false
  }

  /** An authentication failure reported for the bound session. */
  predicate Unauthenticated(s: State, f: Frame) {
    && f.Sdk? && f.event.Some? && f.event.value.Assistant? && f.event.value.authenticationFailed
    && RawFits(s, f.raw) && f.raw.value != "" && s.sessionId.Some?
  }

  /** What takes all evidence away. */
  predicate Withdraws(s: State, input: Input) {
    match input
    case Ingest(f, _) => Unauthenticated(s, f)
    case Exit(_, _) => !s.ended
    case Disconnect(_) => !s.ended
    case ConnectionLost(_, _) => true
    case Resume(_, _) => true
    case _ => false
  }

  // ------------------------------------------------------------------ one step

  /** The probe still speaks for this runtime. */
  predicate OwnProbe(cfg: Config, s: State) { s.probe.runtime == cfg.runtime && s.probe.source == cfg.evidence }

  predicate Has(s: State, c: Capability) { c in s.probe.proven }

  /** What a frame does to the evidence. */
  ghost predicate Told(s: State, s': State, f: Frame, c: Capability) {
    && (Has(s', c) <==> FrameEvidences(s, f, c) || (Has(s, c) && !Unauthenticated(s, f)))
    && s'.probe.runtime == s.probe.runtime && s'.probe.source == s.probe.source
  }

  lemma ProveAdds(s: State, proven: Capability, c: Capability)
    ensures
      var s' := ClaudeStep.Prove(s, proven);
      && (Has(s', c) <==> c == proven || Has(s, c))
      && s'.probe.runtime == s.probe.runtime && s'.probe.source == s.probe.source
  {
  }

  lemma StatusKeepsProbe(s: State, status: Status, at: int, before: seq<Effect>)
    ensures ShowStatus(s, status, at, before).state.probe == s.probe
  {
  }

  lemma EventProves(s: State, e: SdkEvent, turn: string, at: int)
    ensures ReduceSdkEvent(s, e, turn, at).state.probe ==
      if e.Init? && !RejectsEvent(s, e) then s.probe.Prove(LiveObserve)
      else if e.Assistant? && e.authenticationFailed && s.sessionId.Some?
      then s.probe.MarkUnavailable(AuthenticationRequired) else s.probe
  {
    hide ShowStatus;
    StatusKeepsProbe(s.(currentTurn := Some(turn)), if e.TurnResult? then e.status else Ready, at, [Conversation]);
  }

  predicate Initialises(s: State, f: Frame) {
    && f.Sdk? && f.event.Some? && f.event.value.Init? && RawFits(s, f.raw) && f.raw.value != ""
    && !RejectsEvent(s, f.event.value)
  }

  lemma SdkProves(s: State, f: Frame, at: int)
    requires f.Sdk?
    ensures ReduceSdk(s, f, at).state.probe ==
      if Initialises(s, f) then s.probe.Prove(LiveObserve)
      else if Unauthenticated(s, f) then s.probe.MarkUnavailable(AuthenticationRequired) else s.probe
  {
    hide ReduceSdkEvent;
    if f.event.Some? {
      var turn := if f.turn.Some? then f.turn.value else if s.currentTurn.Some? then s.currentTurn.value
        else "sdk-turn";
      EventProves(s, f.event.value, turn, at);
    }
  }

  lemma InitialisingIsEvidence(s: State, f: Frame, c: Capability)
    requires f.Sdk?
    ensures FrameEvidences(s, f, c) <==> c == LiveObserve && Initialises(s, f)
    ensures Initialises(s, f) ==> !Unauthenticated(s, f)
  {
    hide RawFits;
  }

  lemma SdkEvidence(s: State, f: Frame, at: int, c: Capability)
    requires f.Sdk?
    ensures Told(s, ReduceSdk(s, f, at).state, f, c)
  {
    hide ReduceSdk, FrameEvidences, Unauthenticated, Initialises;
    SdkProves(s, f, at);
    InitialisingIsEvidence(s, f, c);
  }

  lemma ReadyEvidence(cfg: Config, s: State, cwd: Option<string>, at: int, c: Capability)
    ensures Told(s, ReduceReady(cfg, s, cwd, at).state, ReadyFrame(cwd), c)
  {
  }

  lemma EstablishProves(cfg: Config, s: State, f: Frame, at: int)
    requires f.SessionBound? && f.raw.Some?
    ensures EstablishSession(cfg, s, f, at).state.probe == if f.resumed then s.probe.Prove(HistoryResume) else s.probe
  {
    hide LiveClaim;
  }

  lemma SessionProves(cfg: Config, s: State, f: Frame, at: int)
    requires f.SessionBound?
    ensures ReduceSession(cfg, s, f, at).state.probe ==
      if f.resumed && RawFits(s, f.raw) && CwdFits(s, f.cwd) then s.probe.Prove(HistoryResume) else s.probe
  {
    hide EstablishSession;
    if f.raw.Some? && f.cwd.Some? {
      var bound := BindCwd(s, f.cwd.value);
      if bound.Some? { EstablishProves(cfg, bound.value, f, at); }
    }
  }

  lemma SessionEvidence(cfg: Config, s: State, f: Frame, at: int, c: Capability)
    requires f.SessionBound?
    ensures Told(s, ReduceSession(cfg, s, f, at).state, f, c)
  {
    hide ReduceSession, RawFits, CwdFits;
    SessionProves(cfg, s, f, at);
  }

  lemma ListEvidence(cfg: Config, s: State, cwd: Option<string>, sessions: Option<seq<Listed>>, c: Capability)
    ensures Told(s, ReduceSessionList(cfg, s, cwd, sessions).state, SessionList(cwd, sessions), c)
  {
    hide ListEffects, ClaudeStep.Prove, ListedOk;
    ProveAdds(s.(boundCwd := cwd), HistoryList, c);
  }

  lemma MessagesEvidence(s: State, f: Frame, c: Capability)
    requires f.SessionMessages?
    ensures Told(s, ReduceSessionMessages(s, f).state, f, c)
  {
    hide ClaudeStep.Prove;
    ProveAdds(s.(boundCwd := f.cwd), HistoryRead, c);
  }

  lemma PromptEvidence(s: State, accepted: bool, turn: Option<string>, at: int, c: Capability)
    ensures Told(s, ReducePrompt(s, accepted, turn, at).state, Prompt(accepted, turn), c)
  {
    hide ShowStatus, ClaudeStep.Prove;
    if turn.Some? {
      var s1 := ClaudeStep.Prove(s, TurnPrompt);
      ProveAdds(s, TurnPrompt, c);
      ProveAdds(s1, QueueWrite, c);
      var s2 := if accepted && turn.value in s.queuedTurns then ClaudeStep.Prove(s1, QueueWrite) else s1;
      StatusKeepsProbe(s2.(currentTurn := turn), Working, at, [Conversation]);
    }
  }

  lemma InterruptEvidence(s: State, cancelled: bool, turnKnown: bool, at: int, c: Capability)
    ensures Told(s, ReduceInterrupt(s, cancelled, turnKnown, at).state, Interrupt(cancelled, turnKnown), c)
  {
    hide ShowStatus, ClaudeStep.Prove;
    ProveAdds(s, TurnInterrupt, c);
    StatusKeepsProbe(ClaudeStep.Prove(s, TurnInterrupt), Stopped, at, [Conversation]);
  }

  lemma PermissionEvidence(s: State, f: Frame, at: int, c: Capability)
    ensures f.PermissionRequest? ==> Told(s, ReducePermissionRequest(s, f, at).state, f, c)
    ensures f.PermissionResult? ==> Told(s, ReducePermissionResult(s, f, at).state, f, c)
  {
    hide ShowStatus, ClaudeStep.Prove;
    ProveAdds(s, InteractionApproval, c);
    StatusKeepsProbe(ClaudeStep.Prove(s, InteractionApproval), WaitingApproval, at, [Conversation]);
    StatusKeepsProbe(s, Working, at, [Conversation]);
  }

  lemma QuestionEvidence(s: State, ok: bool, at: int, c: Capability)
    ensures Told(s, ReduceQuestionRequest(s, ok, at).state, QuestionRequest(ok), c)
    ensures Told(s, ReduceQuestionResult(s, ok, at).state, QuestionResult(ok), c)
  {
    hide ShowStatus, ClaudeStep.Prove;
    ProveAdds(s, InteractionQuestion, c);
    StatusKeepsProbe(ClaudeStep.Prove(s, InteractionQuestion), WaitingUser, at, [Conversation]);
    StatusKeepsProbe(s, Working, at, [Conversation]);
  }

  lemma NoEvidence(s: State, c: Capability)
    ensures Told(s, s, HostCommand, c) && Told(s, s, Notice, c)
  {
  }

  lemma DispatchEvidence(cfg: Config, s: State, f: Frame, at: int, c: Capability)
    ensures Told(s, Dispatch(cfg, s, f, at).state, f, c)
  {
    hide ReduceReady, ReduceSession, ReduceSessionList, ReduceSessionMessages, ReducePrompt, ReduceInterrupt, ReduceSdk;
    hide ReducePermissionRequest, ReducePermissionResult, ReduceQuestionRequest, ReduceQuestionResult, Told;
    NoEvidence(s, c);
    match f
    case ReadyFrame(cwd) => ReadyEvidence(cfg, s, cwd, at, c);
    case SessionBound(_, _, _, _) => SessionEvidence(cfg, s, f, at, c);
    case SessionList(cwd, sessions) => ListEvidence(cfg, s, cwd, sessions, c);
    case SessionMessages(_, _, _, _) => MessagesEvidence(s, f, c);
    case Prompt(accepted, turn) => PromptEvidence(s, accepted, turn, at, c);
    case PermissionRequest(_, _, _) => PermissionEvidence(s, f, at, c);
    case PermissionResult(_, _, _) => PermissionEvidence(s, f, at, c);
    case QuestionRequest(ok) => QuestionEvidence(s, ok, at, c);
    case QuestionResult(ok) => QuestionEvidence(s, ok, at, c);
    case Interrupt(cancelled, known) => InterruptEvidence(s, cancelled, known, at, c);
    case Sdk(_, _, _) => SdkEvidence(s, f, at, c);
    case _ =>
  }

  lemma SameEvidence(s: State, t: State, f: Frame, c: Capability)
    requires t.sessionId == s.sessionId && t.rawSession == s.rawSession && t.boundCwd == s.boundCwd
    requires t.session == s.session && t.queuedTurns == s.queuedTurns
    ensures FrameEvidences(t, f, c) == FrameEvidences(s, f, c) && Unauthenticated(t, f) == Unauthenticated(s, f)
  {
  }

  /** Advancing the clock and greeting the host change nothing that evidence rests on. */
  lemma SameFacts(s: State, t: State, s': State, f: Frame, c: Capability)
    requires t.(probe := s.probe, bootstrapped := s.bootstrapped) == s && t.probe.proven == s.probe.proven
    requires t.probe.runtime == s.probe.runtime && t.probe.source == s.probe.source
    requires Told(t, s', f, c)
    ensures Told(s, s', f, c)
  {
    hide FrameEvidences, Unauthenticated;
    SameEvidence(s, t, f, c);
  }

  lemma SettleEvidence(cfg: Config, d: Stepped, at: int)
    requires d.outcome.Ok?
    ensures Settle(cfg, d, at).state.probe == d.state.probe
  {
  }

  lemma IngestEvidence(cfg: Config, s: State, f: Frame, offset: int, c: Capability)
    requires OwnProbe(cfg, s)
    ensures Told(s, IngestFrame(cfg, s, f, offset).state, f, c) && OwnProbe(cfg, IngestFrame(cfg, s, f, offset).state)
  {
    hide Dispatch, Settle, FrameEvidences, Unauthenticated, Bootstrap;
    NoEvidence(s, c);
    if !f.HostCommand? {
      var at := Saturate(cfg.baseAt + offset);
      var started := Bootstrap(s.(probe := s.probe.Advance(at)), at);
      var d := Dispatch(cfg, started.state, f, at);
      BootKeepsFacts(s, at);
      DispatchEvidence(cfg, started.state, f, at, c);
      SameFacts(s, started.state, d.state, f, c);
      if d.outcome.Ok? {
        SettleEvidence(cfg, Stepped(d.state, Ok(started.outcome.value + d.outcome.value)), at);
      }
    }
  }

  lemma BootKeepsFacts(s: State, at: int)
    ensures
      var t := Bootstrap(s.(probe := s.probe.Advance(at)), at).state;
      && Bootstrap(s.(probe := s.probe.Advance(at)), at).outcome.Ok?
      && t.(probe := s.probe, bootstrapped := s.bootstrapped) == s && t.probe.proven == s.probe.proven
      && t.probe.runtime == s.probe.runtime && t.probe.source == s.probe.source
  {
  }

  lemma EndEvidence(cfg: Config, s: State, input: Input, c: Capability)
    requires OwnProbe(cfg, s) && (input.Exit? || input.Disconnect? || input.ConnectionLost? || input.Resume?)
    ensures
      var s' := Step(cfg, s, input).state;
      (Has(s', c) <==> Has(s, c) && !Withdraws(s, input)) && OwnProbe(cfg, s')
  {
  }

  lemma AcceptEvidence(cfg: Config, s: State, input: Input, c: Capability)
    requires OwnProbe(cfg, s) && input.Accept?
    ensures
      var s' := Step(cfg, s, input).state;
      (Has(s', c) <==> Evidences(cfg, s, input, c) || Has(s, c)) && OwnProbe(cfg, s')
  {
    hide PublishAndRefresh;
    if s.sessionId.Some? {
      var outcome := AcceptedByRuntime(s.sessionId.value, Handle(cfg.runtime, AcknowledgementHandle, input.receipt));
      PublishKeepsProbe(cfg, s.(probe := s.probe.ObserveAcceptance(outcome)), input.at);
    }
  }

  lemma PublishKeepsProbe(cfg: Config, s: State, at: int)
    ensures PublishAndRefresh(cfg, s, at).state.probe == s.probe
  {
    hide LiveClaim;
  }

  lemma StepEvidence(cfg: Config, s: State, input: Input, c: Capability)
    requires OwnProbe(cfg, s)
    ensures
      var s' := Step(cfg, s, input).state;
      && (Has(s', c) <==> Evidences(cfg, s, input, c) || (Has(s, c) && !Withdraws(s, input)))
      && OwnProbe(cfg, s')
  {
    hide IngestFrame, FrameEvidences, Unauthenticated, ProcessExited, CleanDisconnected, MarkConnectionUnavailable;
    hide PrepareResume, CommandAccepted;
    match input
    case Ingest(f, offset) => IngestEvidence(cfg, s, f, offset, c);
    case Accept(_, _, _) => AcceptEvidence(cfg, s, input, c);
    case Queue(_) =>
    case Forget(_) =>
    case _ => EndEvidence(cfg, s, input, c);
  }

  // ------------------------------------------------------------------ every run

  function At(cfg: Config, inputs: seq<Input>, n: nat): State
    requires n <= |inputs|
  {
    Execute(cfg, inputs[..n]).state
  }

  ghost predicate ProvenSince(cfg: Config, inputs: seq<Input>, n: nat, c: Capability) {
    Since(n, (i: nat) => i < |inputs| && Evidences(cfg, At(cfg, inputs, i), inputs[i], c),
          (j: nat) => j < |inputs| && Withdraws(At(cfg, inputs, j), inputs[j]))
  }

  lemma ProvenNext(cfg: Config, inputs: seq<Input>, n: nat, c: Capability)
    requires n < |inputs|
    ensures ProvenSince(cfg, inputs, n + 1, c) <==>
      || Evidences(cfg, At(cfg, inputs, n), inputs[n], c)
      || (ProvenSince(cfg, inputs, n, c) && !Withdraws(At(cfg, inputs, n), inputs[n]))
  {
    hide Evidences, Withdraws, At;
    SinceNext(n, (i: nat) => i < |inputs| && Evidences(cfg, At(cfg, inputs, i), inputs[i], c),
      (j: nat) => j < |inputs| && Withdraws(At(cfg, inputs, j), inputs[j]));
  }

  /** A capability is proven exactly if an input was evidence for it and none has withdrawn the evidence since. */
  lemma {:induction false} ProvenExactly(cfg: Config, inputs: seq<Input>, n: nat, c: Capability)
    requires n <= |inputs|
    ensures Has(At(cfg, inputs, n), c) <==> ProvenSince(cfg, inputs, n, c)
    ensures OwnProbe(cfg, At(cfg, inputs, n))
  {
    hide Step, Evidences, Withdraws;
    if n > 0 {
      hide ProvenSince;
      var k := n - 1;
      ProvenExactly(cfg, inputs, k, c);
      StepEvidence(cfg, At(cfg, inputs, k), inputs[k], c);
      assert inputs[..n][..k] == inputs[..k] && inputs[..n][k] == inputs[k];
      ProvenNext(cfg, inputs, k, c);
    }
  }

}
