/**
 Exactly when a stored live claim and the evidence part, in both directions, over every run of the
 Claude reducer. A claim without evidence: an authentication failure revoked the evidence and its frame
 was then rejected. Evidence without a claim: the session went offline, and the evidence came back as
 the very list that had been published before.
 */
module ClaudeExact {
  import opened Prelude
  import opened Canonical
  import opened Capability
  import opened ClaudeStep
  import opened ClaudeLive

  // ------------------------------------------------------------------ which inputs are rejected

  predicate CwdFits(s: State, cwd: Option<string>) {
    cwd.Some? && cwd.value != "" && (s.boundCwd.Some? ==> s.boundCwd == cwd)
  }

  /** The frame belongs to no other raw session. */
  predicate RawFits(s: State, raw: Option<string>) { raw.Some? && (s.rawSession.Some? ==> s.rawSession == raw) }

  predicate RejectsEvent(s: State, e: SdkEvent) {
    match e
    case User(ok) => !ok || s.sessionId.None?
    case Assistant(_, ok) => !ok || s.sessionId.None?
    case StreamText(ok) => !ok || s.sessionId.None?
    case ToolSummary(ok) => !ok
    case TurnResult(_) => s.sessionId.None?
    case Init(cwd) => cwd.None? || cwd.value == "" || s.session.None? || s.boundCwd != cwd
    case _ => false
  }

  predicate RejectsFrame(s: State, f: Frame) {
    match f
    case HostCommand => true
    case ReadyFrame(cwd) => s.sessionId.None? && cwd.Some? && !CwdFits(s, cwd)
    case SessionBound(_, raw, cwd, _) => !RawFits(s, raw) || !CwdFits(s, cwd)
    case SessionList(cwd, sessions) =>
      !CwdFits(s, cwd) || sessions.None? || exists i | 0 <= i < |sessions.value| :: !ListedOk(sessions.value[i])
    case SessionMessages(cwd, headerOk, pageOk, _) => !headerOk || !CwdFits(s, cwd) || !pageOk
    case Prompt(_, turn) => turn.None?
    case PermissionRequest(request, isQuestion, inputOk) =>
      request.None? || (!isQuestion && s.sessionId.Some? && !inputOk)
    case PermissionResult(request, known, decisionOk) => request.None? || (known && !decisionOk)
    case QuestionRequest(ok) => !ok || s.sessionId.None?
    case QuestionResult(ok) => !ok
    case Sdk(event, raw, _) =>
      event.None? || !RawFits(s, raw) || raw.value == "" || RejectsEvent(s, event.value)
    case _ => false
  }

  predicate Rejects(s: State, input: Input) {
    match input
    case Ingest(f, _) => RejectsFrame(s, f)
    case Accept(_, _, _) => s.sessionId.None?
    case _ => false
  }

  lemma SdkRejects(s: State, f: Frame, at: int)
    requires f.Sdk?
    ensures ReduceSdk(s, f, at).outcome.Err? <==> RejectsFrame(s, f)
  {
  }

  lemma SessionRejects(cfg: Config, s: State, f: Frame, at: int)
    requires f.SessionBound?
    ensures ReduceSession(cfg, s, f, at).outcome.Err? <==> RejectsFrame(s, f)
  {
    hide LiveClaim;
  }

  lemma HistoryRejects(cfg: Config, s: State, f: Frame, at: int)
    requires f.SessionList? || f.SessionMessages?
    ensures Dispatch(cfg, s, f, at).outcome.Err? <==> RejectsFrame(s, f)
  {
    hide ListEffects, ListedOk;
  }

  lemma DispatchRejects(cfg: Config, s: State, f: Frame, at: int)
    ensures Dispatch(cfg, s, f, at).outcome.Err? <==> RejectsFrame(s, f)
  {
    hide ReduceSdk, ReduceSession, ReduceSessionList, ReduceSessionMessages, RejectsEvent, ListedOk;
    match f
    case Sdk(_, _, _) => SdkRejects(s, f, at);
    case SessionBound(_, _, _, _) => SessionRejects(cfg, s, f, at);
    case SessionList(_, _) => HistoryRejects(cfg, s, f, at);
    case SessionMessages(_, _, _, _) => HistoryRejects(cfg, s, f, at);
    case _ =>
  }

  /** Neither rejection nor evidence looks at the clock or at whether the host was shown. */
  ghost predicate SameRecords(s: State, t: State) {
    && t.sessionId == s.sessionId && t.rawSession == s.rawSession && t.boundCwd == s.boundCwd && t.session == s.session
    && t.queuedTurns == s.queuedTurns && t.published == s.published && t.probe.proven == s.probe.proven
  }

  lemma SameRejection(s: State, t: State, f: Frame)
    requires SameRecords(s, t)
    ensures RejectsFrame(t, f) <==> RejectsFrame(s, f)
  {
  }

  lemma IngestRejects(cfg: Config, s: State, f: Frame, offset: int)
    ensures IngestFrame(cfg, s, f, offset).outcome.Err? <==> RejectsFrame(s, f)
  {
    hide Dispatch, PublishAndRefresh, RejectsFrame;
    var at := Saturate(cfg.baseAt + offset);
    var t := Bootstrap(s.(probe := s.probe.Advance(at)), at).state;
    if f.HostCommand? { HostRejected(s, f); }
    SameRejection(s, t, f);
    DispatchRejects(cfg, t, f, at);
  }

  lemma HostRejected(s: State, f: Frame)
    requires f.HostCommand?
    ensures RejectsFrame(s, f)
  {
  }

  /** Whether an input is rejected shows in the state before it. */
  lemma RejectsIff(cfg: Config, s: State, input: Input)
    ensures Step(cfg, s, input).outcome.Err? <==> Rejects(s, input)
  {
    hide IngestFrame, PublishAndRefresh, RejectsFrame;
    if input.Ingest? { IngestRejects(cfg, s, input.frame, input.offset); }
  }

  // ------------------------------------------------------------------ a claim without evidence

  /** An authentication failure of the bound session whose message does not decode. */
  predicate RevokingFrame(s: State, f: Frame) {
    && f.Sdk? && f.event == Some(Assistant(true, false))
    && RawFits(s, f.raw) && f.raw.value != "" && s.sessionId.Some?
  }

  predicate Revokes(s: State, input: Input) { input.Ingest? && RevokingFrame(s, input.frame) }

  predicate StoredLive(s: State) { s.session.Some? && s.session.value.binding.IsLive() }

  /** What a rejected frame does to the claim and the evidence for it. */
  ghost predicate RejectedTo(s: State, f: Frame, d: State) {
    && d.session == s.session
    && (if RevokingFrame(s, f) then d.probe.proven == []
        else forall c | c in [LiveObserve, LiveControl] :: c in d.probe.proven <==> c in s.probe.proven)
  }

  lemma SdkRejectedTo(s: State, f: Frame, at: int)
    requires f.Sdk? && ReduceSdk(s, f, at).outcome.Err?
    ensures RejectedTo(s, f, ReduceSdk(s, f, at).state)
  {
  }

  lemma DispatchRejectedTo(cfg: Config, s: State, f: Frame, at: int)
    requires Dispatch(cfg, s, f, at).outcome.Err?
    ensures RejectedTo(s, f, Dispatch(cfg, s, f, at).state)
  {
    hide ReduceSdk, LiveClaim, ListEffects, ListedOk;
    if f.Sdk? { SdkRejectedTo(s, f, at); }
  }

  /** What a rejected input does to the evidence and the claim. */
  lemma RejectionKeepsBacking(cfg: Config, s: State, input: Input)
    requires Rejects(s, input)
    ensures Backed(cfg, Step(cfg, s, input).state) <==> if Revokes(s, input) then !StoredLive(s) else Backed(cfg, s)
  {
    hide Dispatch, PublishAndRefresh, RejectsFrame;
    RejectsIff(cfg, s, input);
    if input.Ingest? && !input.frame.HostCommand? {
      var at := Saturate(cfg.baseAt + input.offset);
      var t := Bootstrap(s.(probe := s.probe.Advance(at)), at).state;
      DispatchRejectedTo(cfg, t, input.frame, at);
    }
  }

  /** One step, from the state before it alone: is the stored claim backed afterwards? */
  lemma StepBackedIff(cfg: Config, s: State, input: Input)
    requires Covered(cfg, s)
    ensures
      Backed(cfg, Step(cfg, s, input).state) <==>
        if Revokes(s, input) then !StoredLive(s)
        else Rejects(s, input) || DoesNothing(s, input) ==> Backed(cfg, s)
  {
    hide Step, Backed, Covered;
    RejectsIff(cfg, s, input);
    StepCovers(cfg, s, input);
    if Rejects(s, input) { RejectionKeepsBacking(cfg, s, input); }
  }

  /** The same on every run, for whatever input comes next. */
  lemma ClaimsAreBacked(cfg: Config, inputs: seq<Input>, input: Input)
    ensures
      var s := Execute(cfg, inputs).state;
      Backed(cfg, Step(cfg, s, input).state) <==>
        if Revokes(s, input) then !StoredLive(s)
        else Rejects(s, input) || DoesNothing(s, input) ==> Backed(cfg, s)
  {
    hide Step, Backed, Covered, Execute, Revokes, Rejects;
    RunCovers(cfg, inputs);
    StepBackedIff(cfg, Execute(cfg, inputs).state, input);
  }

  /** Input k revokes the evidence under a stored live claim, and nothing after it puts that right. */
  ghost predicate Strands(cfg: Config, inputs: seq<Input>, k: nat)
    requires k < |inputs|
  {
    && Revokes(Execute(cfg, inputs[..k]).state, inputs[k]) && StoredLive(Execute(cfg, inputs[..k]).state)
    && forall j | k < j < |inputs| :: Powerless(Execute(cfg, inputs[..j]).state, inputs[j])
  }

  predicate Powerless(s: State, input: Input) { Rejects(s, input) || DoesNothing(s, input) }

  lemma StrandsSnoc(cfg: Config, inputs: seq<Input>, k: nat)
    requires k < |inputs| - 1
    ensures
      var n := |inputs| - 1;
      Strands(cfg, inputs, k) <==> Strands(cfg, inputs[..n], k) && Powerless(Execute(cfg, inputs[..n]).state, inputs[n])
  {
    hide Revokes, Execute, Powerless, StoredLive;
    var n := |inputs| - 1;
    assert forall j | 0 <= j <= n :: inputs[..n][..j] == inputs[..j];
    assert forall j | 0 <= j < n :: inputs[..n][j] == inputs[j];
  }

  /**
   Every run: a session is stored live without evidence exactly if some input revoked the evidence of a
   live session and every input since was rejected or did nothing.
   */
  lemma {:induction false} UnbackedIff(cfg: Config, inputs: seq<Input>)
    ensures !Backed(cfg, Execute(cfg, inputs).state) <==> exists k | 0 <= k < |inputs| :: Strands(cfg, inputs, k)
  {
    hide Step, Backed, Covered, Strands, Revokes, Rejects, DoesNothing, StoredLive;
    if inputs == [] {
      InitialCovered(cfg);
    } else {
      var n := |inputs| - 1;
      var front := inputs[..n];
      var s := Execute(cfg, front).state;
      UnbackedIff(cfg, front);
      RunCovers(cfg, front);
      StepBackedIff(cfg, s, inputs[n]);
      LastStrands(cfg, inputs);
      forall k: nat | k < n ensures Strands(cfg, inputs, k) <==> Strands(cfg, front, k) && Powerless(s, inputs[n]) {
        StrandsSnoc(cfg, inputs, k);
      }
      RevokingIsRejected(s, inputs[n]);
      NotLiveIsBacked(cfg, s);
    }
  }

  lemma LastStrands(cfg: Config, inputs: seq<Input>)
    requires inputs != []
    ensures
      var n := |inputs| - 1;
      var s := Execute(cfg, inputs[..n]).state;
      Strands(cfg, inputs, n) <==> Revokes(s, inputs[n]) && StoredLive(s)
  {
    hide Revokes, Execute, StoredLive;
  }

  lemma RevokingIsRejected(s: State, input: Input)
    ensures Revokes(s, input) ==> Rejects(s, input)
    ensures DoesNothing(s, input) ==> !Rejects(s, input)
  {
  }

  lemma NotLiveIsBacked(cfg: Config, s: State)
    ensures !StoredLive(s) ==> Backed(cfg, s)
  {
  }

  // ------------------------------------------------------------------ evidence without a claim

  /** The claim says exactly what the evidence supports; only its instant, or why it is unbound, may be older. */
  ghost predicate Standing(cfg: Config, proven: seq<Capability>, claim: LiveBinding) {
    && (claim.IsLive() <==> cfg.evidence == ObservedInTraffic && LiveObserve in proven)
    && (claim.Controlling? <==> cfg.evidence == ObservedInTraffic && LiveObserve in proven && LiveControl in proven)
  }

  lemma DerivedStands(cfg: Config, probe: ProbeState, at: int)
    ensures Standing(cfg, probe.proven, LiveClaim(cfg, probe, at))
  {
  }

  ghost predicate StandsBy(cfg: Config, proven: seq<Capability>, session: Option<LiveSession>) {
    session.Some? ==> Standing(cfg, proven, session.value.binding)
  }

  /** The stored claim is what the evidence supports. */
  ghost predicate Exact(cfg: Config, s: State) { StandsBy(cfg, s.probe.proven, s.session) }

  /** The stored claim is what the published list supports. */
  ghost predicate UpToDate(cfg: Config, s: State) { StandsBy(cfg, s.published, s.session) }

  function With(proven: seq<Capability>, c: Capability): seq<Capability> {
    if c in proven then proven else proven + [c]
  }

  /** The evidence after an accepted frame. */
  function Learns(s: State, f: Frame): seq<Capability> {
    var proven := s.probe.proven;
    match f
    case SessionBound(resumed, _, _, _) => if resumed then With(proven, HistoryResume) else proven
    case SessionList(_, _) => With(proven, HistoryList)
    case SessionMessages(_, _, _, empty) => if empty then proven else With(proven, HistoryRead)
    case Prompt(accepted, turn) =>
      var prompted := With(proven, TurnPrompt);
      if accepted && turn.Some? && turn.value in s.queuedTurns then With(prompted, QueueWrite) else prompted
    case PermissionRequest(_, isQuestion, _) =>
      if isQuestion || s.sessionId.None? then proven else With(proven, InteractionApproval)
    case QuestionRequest(_) => With(proven, InteractionQuestion)
    case Interrupt(_, _) => With(proven, TurnInterrupt)
    case Sdk(event, _, _) =>
      if event == Some(Assistant(true, true)) then []
      else if event.Some? && event.value.Init? then With(proven, LiveObserve)
      else proven
    case _ => proven
  }

  /** Before a session is bound there is nothing to claim and no evidence of one. */
  ghost predicate NothingYet(s: State) {
    s.sessionId.None? ==> s.session.None? && LiveObserve !in s.probe.proven && LiveObserve !in s.published
  }

  /** What dispatching an accepted frame does, as far as the claim is concerned. */
  ghost predicate Dispatched(cfg: Config, s: State, f: Frame, d: State) {
    && d.published == s.published && d.probe.proven == Learns(s, f) && NothingYet(d)
    && (if f.SessionBound? then StandsBy(cfg, d.probe.proven, d.session)
        else if s.session.Some? then d.session.Some? && d.session.value.binding == s.session.value.binding
        else StandsBy(cfg, d.probe.proven, d.session) && StandsBy(cfg, d.published, d.session))
  }

  lemma SdkLearns(cfg: Config, s: State, f: Frame, at: int)
    requires NothingYet(s) && f.Sdk? && ReduceSdk(s, f, at).outcome.Ok?
    ensures Dispatched(cfg, s, f, ReduceSdk(s, f, at).state)
  {
    hide Standing;
  }

  lemma BindingLearns(cfg: Config, s: State, f: Frame, at: int)
    requires NothingYet(s) && f.SessionBound? && ReduceSession(cfg, s, f, at).outcome.Ok?
    ensures Dispatched(cfg, s, f, ReduceSession(cfg, s, f, at).state)
  {
    hide LiveClaim, Standing;
    DerivedStands(cfg, ReduceSession(cfg, s, f, at).state.probe, at);
  }

  lemma ReadyLearns(cfg: Config, s: State, f: Frame, at: int)
    requires NothingYet(s) && f.ReadyFrame? && ReduceReady(cfg, s, f.cwd, at).outcome.Ok?
    ensures Dispatched(cfg, s, f, ReduceReady(cfg, s, f.cwd, at).state)
  {
  }

  lemma HistoryLearns(cfg: Config, s: State, f: Frame, at: int)
    requires NothingYet(s) && (f.SessionList? || f.SessionMessages?) && Dispatch(cfg, s, f, at).outcome.Ok?
    ensures Dispatched(cfg, s, f, Dispatch(cfg, s, f, at).state)
  {
    hide ListEffects, ListedOk, Standing;
  }

  /** Showing a status keeps the claim and the evidence. */
  lemma ShowingKeeps(cfg: Config, s: State, f: Frame, d: State, status: Status, at: int)
    requires Dispatched(cfg, s, f, d) && !f.SessionBound?
    ensures Dispatched(cfg, s, f, ShowStatus(d, status, at, [Conversation]).state)
  {
    hide Standing, Learns;
  }

  lemma PromptLearns(cfg: Config, s: State, f: Frame, at: int)
    requires NothingYet(s) && f.Prompt? && ReducePrompt(s, f.accepted, f.turn, at).outcome.Ok?
    ensures Dispatched(cfg, s, f, ReducePrompt(s, f.accepted, f.turn, at).state)
  {
    hide ShowStatus, Standing;
    var s1 := Prove(s, TurnPrompt);
    var s2 := if f.accepted && f.turn.value in s.queuedTurns then Prove(s1, QueueWrite) else s1;
    var s3 := s2.(currentTurn := f.turn);
    assert Dispatched(cfg, s, f, s3);
    ShowingKeeps(cfg, s, f, s3, Working, at);
  }

  lemma DispatchLearns(cfg: Config, s: State, f: Frame, at: int)
    requires NothingYet(s) && Dispatch(cfg, s, f, at).outcome.Ok?
    ensures Dispatched(cfg, s, f, Dispatch(cfg, s, f, at).state)
  {
    hide ReduceSdk, ReduceSession, ReduceReady, ReduceSessionList, ReduceSessionMessages, ReducePrompt, Standing;
    match f
    case SessionList(_, _) => HistoryLearns(cfg, s, f, at);
    case SessionMessages(_, _, _, _) => HistoryLearns(cfg, s, f, at);
    case Prompt(_, _) => PromptLearns(cfg, s, f, at);
    case Sdk(_, _, _) => SdkLearns(cfg, s, f, at);
    case SessionBound(_, _, _, _) => BindingLearns(cfg, s, f, at);
    case ReadyFrame(_) => ReadyLearns(cfg, s, f, at);
    case _ =>
  }

  lemma RejectedStaysEmpty(cfg: Config, s: State, f: Frame, at: int)
    requires NothingYet(s) && Dispatch(cfg, s, f, at).outcome.Err?
    ensures
      var d := Dispatch(cfg, s, f, at).state;
      NothingYet(d) && d.published == s.published && d.session == s.session
  {
    hide LiveClaim, ListEffects, ListedOk;
  }

  lemma RefreshIsExact(cfg: Config, s: State, at: int)
    requires NothingYet(s)
    ensures
      var r := PublishAndRefresh(cfg, s, at);
      r.outcome.Ok? && Exact(cfg, r.state) && UpToDate(cfg, r.state) && NothingYet(r.state)
        && r.state.probe.proven == s.probe.proven
  {
    hide LiveClaim;
    DerivedStands(cfg, s.probe, at);
  }

  /** An accepted frame leaves the claim as it was: it binds no session and brings back what was published. */
  predicate Unnoticed(s: State, input: Input) {
    input.Ingest? && !input.frame.SessionBound? && Learns(s, input.frame) == s.published
  }

  /** The connection ends or is lost, and takes the session offline. */
  predicate GoesOffline(s: State, input: Input) {
    input.ConnectionLost? || ((input.Exit? || input.Disconnect?) && !s.ended)
  }

  /** What one accepted input makes of the claim. */
  ghost predicate Reached(cfg: Config, s: State, input: Input, next: State) {
    && NothingYet(next)
    && (Exact(cfg, next) <==> (Unnoticed(s, input) ==> UpToDate(cfg, s)))
    && (UpToDate(cfg, next) <==>
          if GoesOffline(s, input) then s.session.None? || cfg.evidence != ObservedInTraffic
            || LiveObserve !in s.published
          else Unnoticed(s, input) ==> UpToDate(cfg, s))
  }

  lemma IngestReaches(cfg: Config, s: State, f: Frame, offset: int)
    requires NothingYet(s) && IngestFrame(cfg, s, f, offset).outcome.Ok?
    ensures Reached(cfg, s, Ingest(f, offset), IngestFrame(cfg, s, f, offset).state)
  {
    hide Dispatch, PublishAndRefresh, Learns, Standing;
    var at := Saturate(cfg.baseAt + offset);
    var t := Bootstrap(s.(probe := s.probe.Advance(at)), at).state;
    assert Learns(t, f) == Learns(s, f) by { SameLearning(s, t, f); }
    DispatchLearns(cfg, t, f, at);
    var d := Dispatch(cfg, t, f, at).state;
    RefreshIsExact(cfg, d, at);
  }

  lemma SameLearning(s: State, t: State, f: Frame)
    requires SameRecords(s, t)
    ensures Learns(t, f) == Learns(s, f)
  {
  }

  lemma AcceptReaches(cfg: Config, s: State, command: CommandId, receipt: string, at: int)
    requires NothingYet(s) && s.sessionId.Some?
    ensures Reached(cfg, s, Accept(command, receipt, at), CommandAccepted(cfg, s, command, receipt, at).state)
  {
    hide PublishAndRefresh, Standing;
    var outcome := AcceptedByRuntime(s.sessionId.value, Handle(cfg.runtime, AcknowledgementHandle, receipt));
    RefreshIsExact(cfg, s.(probe := s.probe.ObserveAcceptance(outcome)), at);
  }

  lemma StepReaches(cfg: Config, s: State, input: Input)
    requires NothingYet(s)
    ensures
      var r := Step(cfg, s, input);
      && NothingYet(r.state)
      && (!Powerless(s, input) ==> Reached(cfg, s, input, r.state))
      && (Powerless(s, input) ==> (UpToDate(cfg, r.state) <==> UpToDate(cfg, s)))
  {
    hide IngestFrame, CommandAccepted, RejectsFrame;
    RejectsIff(cfg, s, input);
    match input
    case Ingest(f, offset) =>
      if Rejects(s, input) { IngestRejected(cfg, s, f, offset); } else { IngestReaches(cfg, s, f, offset); }
    case Accept(command, receipt, at) =>
      if s.sessionId.Some? {
        AcceptReaches(cfg, s, command, receipt, at);
      } else {
        AcceptRefused(cfg, s, command, receipt, at);
      }
    case _ =>
  }

  lemma IngestRejected(cfg: Config, s: State, f: Frame, offset: int)
    requires NothingYet(s) && IngestFrame(cfg, s, f, offset).outcome.Err?
    ensures
      var next := IngestFrame(cfg, s, f, offset).state;
      NothingYet(next) && next.published == s.published && next.session == s.session
  {
    hide Dispatch, PublishAndRefresh;
    if !f.HostCommand? {
      var at := Saturate(cfg.baseAt + offset);
      RejectedStaysEmpty(cfg, Bootstrap(s.(probe := s.probe.Advance(at)), at).state, f, at);
    }
  }

  lemma AcceptRefused(cfg: Config, s: State, command: CommandId, receipt: string, at: int)
    requires s.sessionId.None?
    ensures CommandAccepted(cfg, s, command, receipt, at).state == s
  {
  }

  lemma {:induction false} RunStartsWithNothing(cfg: Config, inputs: seq<Input>)
    ensures NothingYet(Execute(cfg, inputs).state)
  {
    hide Step;
    if inputs != [] {
      var n := |inputs| - 1;
      RunStartsWithNothing(cfg, inputs[..n]);
      StepReaches(cfg, Execute(cfg, inputs[..n]).state, inputs[n]);
    }
  }

  /**
   On every run, after an input that is accepted and does something: the stored claim is exactly what
   the evidence supports, unless the claim was behind the published list and the input went unnoticed.
   The claim falls behind exactly by going offline while the published list says live, and catches up
   with the next input that is noticed.
   */
  lemma ClaimIsExactIff(cfg: Config, inputs: seq<Input>, input: Input)
    ensures
      var s := Execute(cfg, inputs).state;
      var next := Step(cfg, s, input).state;
      && (!Powerless(s, input) ==>
            && (Exact(cfg, next) <==> (Unnoticed(s, input) ==> UpToDate(cfg, s)))
            && (UpToDate(cfg, next) <==>
                  if GoesOffline(s, input) then s.session.None? || cfg.evidence != ObservedInTraffic
                    || LiveObserve !in s.published
                  else Unnoticed(s, input) ==> UpToDate(cfg, s)))
      && (Powerless(s, input) ==> (UpToDate(cfg, next) <==> UpToDate(cfg, s)))
  {
    hide Step, Execute, UpToDate, Exact, Unnoticed, GoesOffline, Powerless;
    RunStartsWithNothing(cfg, inputs);
    StepReaches(cfg, Execute(cfg, inputs).state, input);
  }

  /** A run that ends with the evidence proven again and the session still offline. */
  lemma EvidenceCanGoUnnoticed(cfg: Config, reason: UnavailableReason, at: int)
    requires cfg.evidence == ObservedInTraffic
    ensures
      var lost := Opening() + [ConnectionLost(reason, at)];
      var last := Step(cfg, Execute(cfg, lost).state, Opening()[1]);
      last.outcome.Ok? && !Exact(cfg, last.state)
  {
    hide Step, Execute, Exact, UpToDate;
    OpeningGoesLive(cfg);
    ClaimIsExactIff(cfg, Opening(), ConnectionLost(reason, at));
    var lost := Opening() + [ConnectionLost(reason, at)];
    var s := Execute(cfg, Opening()).state;
    LosingKeeps(cfg, s, reason, at);
    RunSnoc(cfg, Opening(), ConnectionLost(reason, at));
    ClaimIsExactIff(cfg, lost, Opening()[1]);
    RejectsIff(cfg, Execute(cfg, lost).state, Opening()[1]);
  }

  lemma LosingKeeps(cfg: Config, s: State, reason: UnavailableReason, at: int)
    ensures
      var next := Step(cfg, s, ConnectionLost(reason, at)).state;
      && next.rawSession == s.rawSession && next.boundCwd == s.boundCwd && next.session.Some? == s.session.Some?
      && next.published == s.published && next.probe.proven == []
  {
  }

  lemma RunSnoc(cfg: Config, inputs: seq<Input>, input: Input)
    ensures Execute(cfg, inputs + [input]).state == Step(cfg, Execute(cfg, inputs).state, input).state
  {
    hide Step;
    assert (inputs + [input])[..|inputs|] == inputs;
  }
}
