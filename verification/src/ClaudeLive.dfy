/**
 Live claims never outlive their evidence. `Backed` is what has to hold of a claim; `Covered` is the
 invariant that makes it hold again after every accepted step, because the reducer only re-derives the
 claim when the evidence differs from what it last published.
 */
module ClaudeLive {
  import opened Prelude
  import opened Canonical
  import opened Capability
  import opened ClaudeStep

  /** The evidence in `proven` supports the claim. */
  ghost predicate Supports(cfg: Config, proven: seq<Capability>, claim: LiveBinding) {
    && (claim.IsLive() ==> cfg.evidence == ObservedInTraffic && LiveObserve in proven)
    && (claim.Controlling? ==> LiveControl in proven)
  }

  ghost predicate BackedBy(cfg: Config, proven: seq<Capability>, session: Option<LiveSession>) {
    session.Some? ==> Supports(cfg, proven, session.value.binding)
  }

  /** The stored session claims no more than the probe proves. */
  ghost predicate Backed(cfg: Config, s: State) { BackedBy(cfg, s.probe.proven, s.session) }

  /** The stored session claims no more than was last published. */
  ghost predicate Covered(cfg: Config, s: State) { BackedBy(cfg, s.published, s.session) }

  lemma ClaimIsSupported(cfg: Config, probe: ProbeState, at: int)
    ensures Supports(cfg, probe.proven, LiveClaim(cfg, probe, at))
  {
  }

  lemma RefreshBacks(cfg: Config, s: State, at: int)
    ensures var r := PublishAndRefresh(cfg, s, at); Backed(cfg, r.state) && Covered(cfg, r.state)
  {
    ClaimIsSupported(cfg, s.probe, at);
  }

  /** What dispatching a frame may do to the claim: nothing, or derive it afresh. A rejected frame does nothing. */
  ghost predicate ClaimKeptOrDerived(cfg: Config, before: State, d: Stepped) {
    && d.state.published == before.published
    && (d.outcome.Err? ==> d.state.session == before.session)
    && (d.outcome.Ok? ==>
          || (d.state.session.Some? && before.session.Some?
              && d.state.session.value.binding == before.session.value.binding)
          || BackedBy(cfg, d.state.probe.proven, d.state.session))
  }

  lemma DispatchClaims(cfg: Config, s: State, f: Frame, at: int)
    ensures ClaimKeptOrDerived(cfg, s, Dispatch(cfg, s, f, at))
  {
    hide ReduceSession, ReduceSessionList, ReduceSdk, ReducePrompt, ReducePermissionRequest, Supports;
    match f
    case SessionBound(_, _, _, _) => SessionClaims(cfg, s, f, at);
    case SessionList(cwd, sessions) => ListClaims(cfg, s, cwd, sessions);
    case Sdk(_, _, _) => SdkClaims(cfg, s, f, at);
    case ReadyFrame(cwd) => ReadyClaims(cfg, s, cwd, at);
    case Prompt(_, _) => RequestClaims(cfg, s, f, at);
    case PermissionRequest(_, _, _) => RequestClaims(cfg, s, f, at);
    case _ =>
  }

  lemma ReadyClaims(cfg: Config, s: State, cwd: Option<string>, at: int)
    ensures ClaimKeptOrDerived(cfg, s, ReduceReady(cfg, s, cwd, at))
  {
  }

  lemma RequestClaims(cfg: Config, s: State, f: Frame, at: int)
    requires f.Prompt? || f.PermissionRequest?
    ensures ClaimKeptOrDerived(cfg, s, Dispatch(cfg, s, f, at))
  {
    hide Supports;
  }

  lemma SessionClaims(cfg: Config, s: State, f: Frame, at: int)
    requires f.SessionBound?
    ensures ClaimKeptOrDerived(cfg, s, ReduceSession(cfg, s, f, at))
  {
    hide LiveClaim;
    var r := ReduceSession(cfg, s, f, at);
    ClaimIsSupported(cfg, r.state.probe, at);
  }

  lemma ListClaims(cfg: Config, s: State, cwd: Option<string>, sessions: Option<seq<Listed>>)
    ensures ClaimKeptOrDerived(cfg, s, ReduceSessionList(cfg, s, cwd, sessions))
  {
    hide ListedOk;
  }

  lemma SdkClaims(cfg: Config, s: State, f: Frame, at: int)
    requires f.Sdk?
    ensures ClaimKeptOrDerived(cfg, s, ReduceSdk(s, f, at))
  {
  }

  lemma IngestCovers(cfg: Config, s: State, f: Frame, offset: int)
    requires Covered(cfg, s)
    ensures
      var r := IngestFrame(cfg, s, f, offset);
      Covered(cfg, r.state) && (r.outcome.Ok? ==> Backed(cfg, r.state))
  {
    hide Dispatch, PublishAndRefresh, Supports;
    if !f.HostCommand? {
      var at := Saturate(cfg.baseAt + offset);
      var started := Bootstrap(s.(probe := s.probe.Advance(at)), at);
      DispatchClaims(cfg, started.state, f, at);
      var d := Dispatch(cfg, started.state, f, at);
      RefreshBacks(cfg, d.state, at);
    }
  }

  lemma AcceptCovers(cfg: Config, s: State, command: CommandId, receipt: string, at: int)
    requires Covered(cfg, s)
    ensures
      var r := CommandAccepted(cfg, s, command, receipt, at);
      Covered(cfg, r.state) && (r.outcome.Ok? ==> Backed(cfg, r.state))
  {
    hide PublishAndRefresh, Supports;
    if s.sessionId.Some? {
      var outcome := AcceptedByRuntime(s.sessionId.value, Handle(cfg.runtime, AcknowledgementHandle, receipt));
      RefreshBacks(cfg, s.(probe := s.probe.ObserveAcceptance(outcome)), at);
    }
  }

  /** A call that does nothing: ending a connection twice, or touching the prompt queue. */
  predicate DoesNothing(s: State, input: Input) {
    match input
    case Exit(_, _) => s.ended
    case Disconnect(_) => s.ended
    case Queue(_) => true
    case Forget(_) => true
    case _ => false
  }

  /** One step keeps the invariant; an accepted step that does something leaves every claim backed. */
  lemma StepCovers(cfg: Config, s: State, input: Input)
    requires Covered(cfg, s)
    ensures
      var r := Step(cfg, s, input);
      && Covered(cfg, r.state)
      && (r.outcome.Ok? && !DoesNothing(s, input) ==> Backed(cfg, r.state))
      && (DoesNothing(s, input) ==> r.outcome.Ok? && (Backed(cfg, r.state) <==> Backed(cfg, s)))
  {
    hide IngestFrame, CommandAccepted;
    match input
    case Ingest(f, offset) => IngestCovers(cfg, s, f, offset);
    case Accept(command, receipt, at) => AcceptCovers(cfg, s, command, receipt, at);
    case _ =>
  }

  lemma {:induction false} RunCovers(cfg: Config, inputs: seq<Input>)
    ensures Covered(cfg, Execute(cfg, inputs).state)
  {
    hide Step, Covered;
    if inputs == [] {
      assert Covered(cfg, Initial(cfg)) by { InitialCovered(cfg); }
    } else {
      var n := |inputs| - 1;
      RunCovers(cfg, inputs[..n]);
      StepCovers(cfg, Execute(cfg, inputs[..n]).state, inputs[n]);
    }
  }

  lemma InitialCovered(cfg: Config)
    ensures Covered(cfg, Initial(cfg)) && Backed(cfg, Initial(cfg))
  {
  }

  /**
   On every run, whatever was rejected before: after an accepted frame, an accepted command, a lost
   connection, a resume or the end of the connection, the session is Observing or Controlling only if
   live traffic still proves it. A call that does nothing leaves that as it was.
   */
  lemma AcceptedStepBacks(cfg: Config, inputs: seq<Input>, input: Input)
    ensures
      var s := Execute(cfg, inputs).state;
      var r := Step(cfg, s, input);
      && (r.outcome.Ok? && !DoesNothing(s, input) ==> Backed(cfg, r.state))
      && (DoesNothing(s, input) ==> (Backed(cfg, r.state) <==> Backed(cfg, s)))
  {
    hide Step, Backed, Covered, Execute;
    RunCovers(cfg, inputs);
    StepCovers(cfg, Execute(cfg, inputs).state, input);
  }

  /** On a run in which nothing is rejected, every claim is backed after every step. */
  lemma {:induction false} AcceptedRunsAreBacked(cfg: Config, inputs: seq<Input>)
    requires forall i | 0 <= i < |inputs| :: Execute(cfg, inputs).outcomes[i].Ok?
    ensures Backed(cfg, Execute(cfg, inputs).state)
  {
    hide Step, Backed, DoesNothing;
    if inputs == [] {
      InitialCovered(cfg);
    } else {
      var n := |inputs| - 1;
      var before := Execute(cfg, inputs[..n]);
      var run := Execute(cfg, inputs);
      assert forall i | 0 <= i < n :: run.outcomes[i] == before.outcomes[i];
      assert run.outcomes[n].Ok?;
      AcceptedRunsAreBacked(cfg, inputs[..n]);
      RunCovers(cfg, inputs[..n]);
      StepCovers(cfg, before.state, inputs[n]);
    }
  }

  // ------------------------------------------------------------------ what the stream still shows

  /** The binding the stream last showed for a session, if any. */
  ghost function Shown(stream: seq<Effect>, id: SessionId): Option<LiveBinding> {
    if stream == [] then None
    else
      var last := stream[|stream| - 1];
      if last.SessionUpserted? && last.session.id == id then Some(last.session.binding)
        else Shown(stream[..|stream| - 1], id)
  }

  ghost predicate ShownLive(stream: seq<Effect>, id: SessionId) {
    Shown(stream, id).Some? && Shown(stream, id).value.IsLive()
  }

  /** A session shown live is the stored one, with the binding that is stored. */
  ghost predicate Mirrors(stream: seq<Effect>, s: State) {
    forall id | ShownLive(stream, id) :: s.session.Some? && s.session.value.id == id
      && Shown(stream, id) == Some(s.session.value.binding)
  }

  ghost predicate OwnSession(s: State) {
    s.session.Some? ==> s.sessionId == Some(s.session.value.id)
  }

  lemma ShownSnoc(stream: seq<Effect>, e: Effect, id: SessionId)
    ensures Shown(stream + [e], id)
      == if e.SessionUpserted? && e.session.id == id then Some(e.session.binding) else Shown(stream, id)
  {
    assert (stream + [e])[..|stream|] == stream;
  }

  /** Effects other than live sessions never make the stream claim more. */
  ghost predicate ShowsNothingLive(effects: seq<Effect>) {
    forall i | 0 <= i < |effects| :: effects[i].SessionUpserted? ==> !effects[i].session.binding.IsLive()
  }

  lemma {:induction false} QuietEffects(stream: seq<Effect>, effects: seq<Effect>, s: State)
    requires Mirrors(stream, s) && ShowsNothingLive(effects)
    ensures Mirrors(stream + effects, s)
  {
    if effects == [] {
      assert stream + effects == stream;
    } else {
      var n := |effects| - 1;
      QuietEffects(stream, effects[..n], s);
      assert stream + effects == (stream + effects[..n]) + [effects[n]];
      forall id
        ensures ShownLive(stream + effects, id) ==> Shown(stream + effects, id) == Shown(stream + effects[..n], id)
      {
        ShownSnoc(stream + effects[..n], effects[n], id);
      }
    }
  }

  /** Showing the stored session keeps the stream in step with it. */
  lemma ShowStored(stream: seq<Effect>, s: State, next: State)
    requires Mirrors(stream, s) && OwnSession(s) && OwnSession(next)
    requires next.session.Some? && (s.session.Some? ==> s.session.value.id == next.session.value.id)
    ensures Mirrors(stream + [SessionUpserted(next.session.value)], next)
  {
    hide Shown;
    forall id { ShownSnoc(stream, SessionUpserted(next.session.value), id); }
  }

  /** A step's effects keep the stream in step with the stored session. */
  ghost predicate InStep(stream: seq<Effect>, r: Stepped) {
    OwnSession(r.state) && Mirrors(stream + EffectsOf(r.outcome), r.state)
  }

  lemma SameSession(stream: seq<Effect>, s: State, next: State)
    requires next.session == s.session
    ensures Mirrors(stream, s) <==> Mirrors(stream, next)
  {
    hide Shown;
  }

  /** A step that keeps the session and shows nothing live. */
  lemma QuietStep(stream: seq<Effect>, s: State, r: Stepped)
    requires Mirrors(stream, s) && OwnSession(s)
    requires r.state.session == s.session && r.state.sessionId == s.sessionId
    requires ShowsNothingLive(EffectsOf(r.outcome))
    ensures InStep(stream, r)
  {
    hide Mirrors, ShowsNothingLive;
    QuietEffects(stream, EffectsOf(r.outcome), s);
    SameSession(stream + EffectsOf(r.outcome), s, r.state);
  }

  /** A step whose last word is the stored session, possibly followed by quiet effects. */
  lemma ShowingStep(stream: seq<Effect>, s: State, r: Stepped, before: seq<Effect>, after: seq<Effect>)
    requires Mirrors(stream, s) && OwnSession(s) && OwnSession(r.state)
    requires r.state.session.Some? && (s.session.Some? ==> s.session.value.id == r.state.session.value.id)
    requires r.outcome == Ok(before + [SessionUpserted(r.state.session.value)] + after)
    requires ShowsNothingLive(before) && ShowsNothingLive(after)
    ensures InStep(stream, r)
  {
    hide Mirrors, ShowsNothingLive;
    var shown := [SessionUpserted(r.state.session.value)];
    QuietEffects(stream, before, s);
    ShowStored(stream + before, s, r.state);
    QuietEffects(stream + before + shown, after, r.state);
    assert stream + (before + shown + after) == stream + before + shown + after;
  }

  lemma NothingShown(e: Effect)
    requires !e.SessionUpserted?
    ensures ShowsNothingLive([]) && ShowsNothingLive([e])
  {
  }

  lemma StatusInStep(stream: seq<Effect>, s: State, status: Status, at: int)
    requires Mirrors(stream, s) && OwnSession(s)
    ensures InStep(stream, ShowStatus(s, status, at, [Conversation]))
  {
    hide Mirrors, ShowsNothingLive, InStep;
    NothingShown(Conversation);
    var r := ShowStatus(s, status, at, [Conversation]);
    if s.session.None? {
      QuietStep(stream, s, r);
    } else {
      assert r.outcome.value == [Conversation] + [SessionUpserted(r.state.session.value)] + [];
      ShowingStep(stream, s, r, [Conversation], []);
    }
  }

  /** The same session under other bookkeeping: what is in step with one is in step with the other. */
  lemma StatusAfter(stream: seq<Effect>, s: State, s1: State, status: Status, at: int)
    requires Mirrors(stream, s) && OwnSession(s) && s1.session == s.session && s1.sessionId == s.sessionId
    ensures InStep(stream, ShowStatus(s1, status, at, [Conversation]))
  {
    hide Mirrors, InStep;
    SameSession(stream, s, s1);
    StatusInStep(stream, s1, status, at);
  }

  lemma SessionInStep(cfg: Config, stream: seq<Effect>, s: State, f: Frame, at: int)
    requires f.SessionBound? && Mirrors(stream, s) && OwnSession(s)
    ensures InStep(stream, ReduceSession(cfg, s, f, at))
  {
    hide Mirrors, ShowsNothingLive, LiveClaim, InStep;
    NothingShown(Conversation);
    var r := ReduceSession(cfg, s, f, at);
    if r.outcome.Err? {
      QuietStep(stream, s, r);
    } else {
      assert r.outcome.value == [Conversation] + [SessionUpserted(r.state.session.value)] + [];
      ShowingStep(stream, s, r, [Conversation], []);
    }
  }

  lemma ReadyInStep(cfg: Config, stream: seq<Effect>, s: State, cwd: Option<string>, at: int)
    requires Mirrors(stream, s) && OwnSession(s)
    ensures InStep(stream, ReduceReady(cfg, s, cwd, at))
  {
    hide Mirrors, InStep;
    NothingShown(Conversation);
    var r := ReduceReady(cfg, s, cwd, at);
    if s.sessionId.Some? || cwd.None? || r.outcome.Err? {
      QuietStep(stream, s, r);
    } else {
      assert r.outcome.value == [Conversation] + [SessionUpserted(r.state.session.value)] + [];
      ShowingStep(stream, s, r, [Conversation], []);
    }
  }

  lemma ListInStep(cfg: Config, stream: seq<Effect>, s: State, cwd: Option<string>, sessions: Option<seq<Listed>>)
    requires Mirrors(stream, s) && OwnSession(s)
    ensures InStep(stream, ReduceSessionList(cfg, s, cwd, sessions))
  {
    hide Mirrors, InStep, ListedOk;
    var r := ReduceSessionList(cfg, s, cwd, sessions);
    QuietStep(stream, s, r);
  }

  lemma SdkInStep(stream: seq<Effect>, s: State, f: Frame, at: int)
    requires f.Sdk? && Mirrors(stream, s) && OwnSession(s)
    ensures InStep(stream, ReduceSdk(s, f, at))
  {
    hide Mirrors, InStep, ShowsNothingLive;
    NothingShown(Conversation);
    var r := ReduceSdk(s, f, at);
    if r.outcome.Ok? && f.event.value.TurnResult? {
      StatusAfter(stream, s, s.(currentTurn := Some(if f.turn.Some? then f.turn.value
        else if s.currentTurn.Some? then s.currentTurn.value else "sdk-turn")),
        f.event.value.status, at);
    } else {
      QuietStep(stream, s, r);
    }
  }

  lemma RequestInStep(stream: seq<Effect>, s: State, f: Frame, at: int, r: Stepped)
    requires Mirrors(stream, s) && OwnSession(s)
    requires
      || (f.Prompt? && r == ReducePrompt(s, f.accepted, f.turn, at))
      || (f.Interrupt? && r == ReduceInterrupt(s, f.cancelled, f.turnKnown, at))
    ensures InStep(stream, r)
  {
    hide Mirrors, InStep, ShowStatus, ShowsNothingLive;
    NothingShown(Conversation);
    if f.Prompt? && f.turn.Some? {
      var s1 := Prove(s, TurnPrompt);
      var s2 := if f.accepted && f.turn.value in s.queuedTurns then Prove(s1, QueueWrite) else s1;
      if s.sessionId.Some? && f.accepted {
        StatusAfter(stream, s, s2.(currentTurn := f.turn), Working, at);
      } else {
        QuietStep(stream, s, r);
      }
    } else if f.Interrupt? && f.cancelled && s.currentTurn.Some? && f.turnKnown {
      StatusAfter(stream, s, Prove(s, TurnInterrupt), Stopped, at);
    } else {
      QuietStep(stream, s, r);
    }
  }

  lemma InteractionInStep(stream: seq<Effect>, s: State, f: Frame, at: int, r: Stepped)
    requires Mirrors(stream, s) && OwnSession(s)
    requires
      || (f.PermissionRequest? && r == ReducePermissionRequest(s, f, at))
      || (f.PermissionResult? && r == ReducePermissionResult(s, f, at))
      || (f.QuestionRequest? && r == ReduceQuestionRequest(s, f.wellFormed, at))
      || (f.QuestionResult? && r == ReduceQuestionResult(s, f.wellFormed, at))
    ensures InStep(stream, r)
  {
    hide Mirrors, InStep, ShowStatus, ShowsNothingLive;
    NothingShown(Conversation);
    StatusAfter(stream, s, Prove(s, InteractionApproval), WaitingApproval, at);
    StatusAfter(stream, s, Prove(s, InteractionQuestion), WaitingUser, at);
    StatusAfter(stream, s, s, Working, at);
    if r.state.session == s.session && r.state.sessionId == s.sessionId
       && (r.outcome.Err? || r.outcome.value == [] || r.outcome.value == [Conversation])
    {
      QuietStep(stream, s, r);
    }
  }

  lemma DispatchInStep(cfg: Config, stream: seq<Effect>, s: State, f: Frame, at: int)
    requires Mirrors(stream, s) && OwnSession(s)
    ensures InStep(stream, Dispatch(cfg, s, f, at))
  {
    hide Mirrors, InStep, ShowsNothingLive, OwnSession;
    hide ReduceSession, ReduceReady, ReduceSessionList, ReduceSdk, ReducePrompt, ReduceInterrupt;
    hide ReducePermissionRequest, ReducePermissionResult, ReduceQuestionRequest, ReduceQuestionResult;
    NothingShown(Conversation);
    var r := Dispatch(cfg, s, f, at);
    match f
    case SessionBound(_, _, _, _) => SessionInStep(cfg, stream, s, f, at);
    case ReadyFrame(cwd) => ReadyInStep(cfg, stream, s, cwd, at);
    case SessionList(cwd, sessions) => ListInStep(cfg, stream, s, cwd, sessions);
    case Sdk(_, _, _) => SdkInStep(stream, s, f, at);
    case Prompt(_, _) => RequestInStep(stream, s, f, at, r);
    case Interrupt(_, _) => RequestInStep(stream, s, f, at, r);
    case PermissionRequest(_, _, _) => InteractionInStep(stream, s, f, at, r);
    case PermissionResult(_, _, _) => InteractionInStep(stream, s, f, at, r);
    case QuestionRequest(_) => InteractionInStep(stream, s, f, at, r);
    case QuestionResult(_) => InteractionInStep(stream, s, f, at, r);
    case _ => QuietStep(stream, s, r);
  }

  lemma RefreshInStep(cfg: Config, stream: seq<Effect>, s: State, at: int)
    requires Mirrors(stream, s) && OwnSession(s)
    ensures InStep(stream, PublishAndRefresh(cfg, s, at))
  {
    hide Mirrors, InStep, ShowsNothingLive, LiveClaim;
    var r := PublishAndRefresh(cfg, s, at);
    var first := CapabilitiesUpdated(s.probe.ToCapabilities());
    NothingShown(first);
    if s.session.None? || s.session.value.binding == LiveClaim(cfg, s.probe, at) {
      assert r.outcome.value == [first];
      QuietStep(stream, s, r);
    } else {
      assert r.outcome.value == [first] + [SessionUpserted(r.state.session.value)] + [];
      ShowingStep(stream, s, r, [first], []);
    }
  }

  lemma IngestInStep(cfg: Config, stream: seq<Effect>, s: State, f: Frame, offset: int)
    requires Mirrors(stream, s) && OwnSession(s)
    ensures InStep(stream, IngestFrame(cfg, s, f, offset))
  {
    hide Mirrors, Dispatch, PublishAndRefresh;
    if f.HostCommand? {
      assert stream + [] == stream;
    } else {
      var at := Saturate(cfg.baseAt + offset);
      var s0 := s.(probe := s.probe.Advance(at));
      var started := Bootstrap(s0, at);
      assert ShowsNothingLive(started.outcome.value);
      QuietStep(stream, s, started);
      var told := stream + started.outcome.value;
      DispatchClaims(cfg, started.state, f, at);
      DispatchInStep(cfg, told, started.state, f, at);
      var d := Dispatch(cfg, started.state, f, at);
      if d.outcome.Err? {
        SameSession(stream, s, d.state);
        assert stream + [] == stream;
      } else {
        var said := told + d.outcome.value;
        assert said == stream + (started.outcome.value + d.outcome.value);
        RefreshInStep(cfg, said, d.state, at);
        var last := PublishAndRefresh(cfg, d.state, at);
        PublishingSucceeds(cfg, d.state, at);
        assert said + EffectsOf(last.outcome) == stream + ((started.outcome.value + d.outcome.value)
          + EffectsOf(last.outcome));
      }
    }
  }

  lemma OfflineInStep(stream: seq<Effect>, s: State, s1: State, reason: UnboundReason, at: int, first: Effect,
                      after: seq<Effect>)
    requires Mirrors(stream, s) && OwnSession(s) && !first.SessionUpserted? && ShowsNothingLive(after)
    requires s1.session == s.session && s1.sessionId == s.sessionId
    ensures
      var s2 := TakeOffline(s1, reason, at);
      InStep(stream, Stepped(s2, Ok([first] + ShowIfAny(s2) + if s2.session.Some? then after else [])))
  {
    hide Mirrors, InStep, ShowsNothingLive;
    NothingShown(first);
    var s2 := TakeOffline(s1, reason, at);
    var r := Stepped(s2, Ok([first] + ShowIfAny(s2) + if s2.session.Some? then after else []));
    if s2.session.Some? {
      ShowingStep(stream, s, r, [first], after);
    } else {
      assert r.outcome.value == [first];
      QuietStep(stream, s, r);
    }
  }

  lemma AcceptInStep(cfg: Config, stream: seq<Effect>, s: State, command: CommandId, receipt: string, at: int)
    requires Mirrors(stream, s) && OwnSession(s)
    ensures InStep(stream, CommandAccepted(cfg, s, command, receipt, at))
  {
    hide Mirrors, PublishAndRefresh, ShowsNothingLive;
    if s.sessionId.None? {
      assert stream + [] == stream;
    } else {
      var outcome := AcceptedByRuntime(s.sessionId.value, Handle(cfg.runtime, AcknowledgementHandle, receipt));
      var s1 := s.(probe := s.probe.ObserveAcceptance(outcome));
      var ack := CommandAcknowledged(command, at);
      NothingShown(ack);
      QuietEffects(stream, [ack], s);
      SameSession(stream + [ack], s, s1);
      RefreshInStep(cfg, stream + [ack], s1, at);
      var last := PublishAndRefresh(cfg, s1, at);
      assert last.outcome.Ok? by { PublishingSucceeds(cfg, s1, at); }
      assert stream + [ack] + last.outcome.value == stream + ([ack] + last.outcome.value);
    }
  }

  lemma PublishingSucceeds(cfg: Config, s: State, at: int)
    ensures PublishAndRefresh(cfg, s, at).outcome.Ok?
  {
  }

  /** Every step but a resume keeps the stream in step. */
  lemma StepInStep(cfg: Config, stream: seq<Effect>, s: State, input: Input)
    requires Mirrors(stream, s) && OwnSession(s) && !input.Resume?
    ensures InStep(stream, Step(cfg, s, input))
  {
    hide Mirrors, InStep, IngestFrame, CommandAccepted, OwnSession, TakeOffline, ShowIfAny;
    var r := Step(cfg, s, input);
    assert ShowsNothingLive([]) && ShowsNothingLive([Conversation]);
    match input
    case Ingest(f, offset) => IngestInStep(cfg, stream, s, f, offset);
    case Accept(command, receipt, at) => AcceptInStep(cfg, stream, s, command, receipt, at);
    case Exit(code, at) =>
      if s.ended {
        QuietStep(stream, s, r);
      } else {
        var s1 := s.(ended := true, probe := s.probe.MarkUnavailable(RuntimeDisconnected));
        OfflineKeepsProbe(s1, RuntimeExited, at);
        OfflineInStep(stream, s, s1, RuntimeExited, at, RuntimeUpserted(Unavailable(code, at),
          s1.probe.ToCapabilities()), [Conversation]);
      }
    case Disconnect(at) =>
      if s.ended {
        QuietStep(stream, s, r);
      } else {
        var s1 := s.(ended := true, probe := s.probe.MarkUnavailable(SubscriptionLostReason));
        OfflineKeepsProbe(s1, SubscriptionLost, at);
        var first := RuntimeUpserted(Disconnected, s1.probe.ToCapabilities());
        OfflineInStep(stream, s, s1, SubscriptionLost, at, first, []);
        assert [first] + ShowIfAny(r.state) + [] == [first] + ShowIfAny(r.state);
      }
    case ConnectionLost(reason, at) =>
      var s1 := s.(probe := s.probe.MarkUnavailable(reason));
      OfflineKeepsProbe(s1, SubscriptionLost, at);
      var first := CapabilitiesUpdated(s1.probe.ToCapabilities());
      OfflineInStep(stream, s, s1, SubscriptionLost, at, first, []);
      assert [first] + ShowIfAny(r.state) + [] == [first] + ShowIfAny(r.state);
    case _ => QuietStep(stream, s, r);
  }

  lemma OfflineKeepsProbe(s: State, reason: UnboundReason, at: int)
    ensures TakeOffline(s, reason, at).probe == s.probe
  {
  }

  /** Whenever a resume is prepared, the stream shows no session live. */
  ghost predicate ResumesOffline(cfg: Config, inputs: seq<Input>) {
    forall k | 0 <= k < |inputs| && inputs[k].Resume? :: forall id :: !ShownLive(Execute(cfg, inputs[..k]).stream, id)
  }

  /** A resume forgets the session without a word: in step afterwards exactly if nothing was shown live. */
  lemma ResumeInStep(stream: seq<Effect>, s: State, id: SessionId, raw: string)
    ensures InStep(stream, PrepareResume(s, id, raw)) <==> forall x :: !ShownLive(stream, x)
  {
    hide Shown;
    assert stream + [] == stream;
  }

  lemma {:induction false} RunInStep(cfg: Config, inputs: seq<Input>)
    requires ResumesOffline(cfg, inputs)
    ensures var run := Execute(cfg, inputs); Mirrors(run.stream, run.state) && OwnSession(run.state)
  {
    hide Step, Mirrors, ShownLive;
    if inputs == [] {
      assert Mirrors([], Initial(cfg)) by { NothingSaid(cfg); }
    } else {
      var n := |inputs| - 1;
      var front := inputs[..n];
      forall k | 0 <= k < n ensures front[..k] == inputs[..k] { }
      RunInStep(cfg, front);
      var before := Execute(cfg, front);
      if inputs[n].Resume? {
        assert inputs[..n] == front;
        ResumeInStep(before.stream, before.state, inputs[n].id, inputs[n].raw);
        ResumeStep(cfg, before.state, inputs[n]);
      } else {
        StepInStep(cfg, before.stream, before.state, inputs[n]);
      }
    }
  }

  /** After k inputs, a session shown live is the stored one. */
  ghost predicate MirrorsAt(cfg: Config, inputs: seq<Input>, k: nat)
    requires k <= |inputs|
  {
    Mirrors(Execute(cfg, inputs[..k]).stream, Execute(cfg, inputs[..k]).state)
  }

  /** All along a run the stream stays in step exactly if no resume is prepared while it shows a session live. */
  lemma StreamInStepIff(cfg: Config, inputs: seq<Input>)
    ensures (forall k | 0 <= k <= |inputs| :: MirrorsAt(cfg, inputs, k)) <==> ResumesOffline(cfg, inputs)
  {
    hide Step, ShownLive, Execute, Mirrors;
    if ResumesOffline(cfg, inputs) {
      forall k | 0 <= k <= |inputs| ensures MirrorsAt(cfg, inputs, k) {
        forall j | 0 <= j < k ensures inputs[..k][..j] == inputs[..j] && inputs[..k][j] == inputs[j] { }
        RunInStep(cfg, inputs[..k]);
      }
    }
    if forall k | 0 <= k <= |inputs| :: MirrorsAt(cfg, inputs, k) {
      forall k | 0 <= k < |inputs| && inputs[k].Resume?
        ensures forall id :: !ShownLive(Execute(cfg, inputs[..k]).stream, id)
      {
        assert MirrorsAt(cfg, inputs, k + 1);
        assert inputs[..k + 1][..k] == inputs[..k];
        ResumedRun(cfg, inputs[..k + 1]);
        NothingStoredNothingShown(Execute(cfg, inputs[..k + 1]).stream, Execute(cfg, inputs[..k + 1]).state);
      }
    }
  }

  lemma ResumedRun(cfg: Config, inputs: seq<Input>)
    requires inputs != [] && inputs[|inputs| - 1].Resume?
    ensures
      var before, after := Execute(cfg, inputs[..|inputs| - 1]), Execute(cfg, inputs);
      after.stream == before.stream && after.state.session.None?
  {
    hide Step;
    var before := Execute(cfg, inputs[..|inputs| - 1]);
    ResumeStep(cfg, before.state, inputs[|inputs| - 1]);
  }

  lemma NothingStoredNothingShown(stream: seq<Effect>, s: State)
    requires Mirrors(stream, s) && s.session.None?
    ensures forall id :: !ShownLive(stream, id)
  {
    hide ShownLive;
  }

  lemma ResumeStep(cfg: Config, s: State, input: Input)
    requires input.Resume?
    ensures Step(cfg, s, input) == PrepareResume(s, input.id, input.raw)
  {
  }

  lemma NothingSaid(cfg: Config)
    ensures Mirrors([], Initial(cfg))
  {
  }

  /**
   What the stream still shows is backed too: if no resume was prepared while a session was shown live,
   then after every accepted step each session last shown as live is one the probe still proves.
   */
  lemma StreamIsBacked(cfg: Config, inputs: seq<Input>, input: Input, id: SessionId)
    requires ResumesOffline(cfg, inputs + [input])
    ensures
      var before := Execute(cfg, inputs);
      var run := Execute(cfg, inputs + [input]);
      run.outcomes[|inputs|].Ok? && !DoesNothing(before.state, input) && ShownLive(run.stream, id) ==>
        Supports(cfg, run.state.probe.proven, Shown(run.stream, id).value)
  {
    hide Step, Shown, Supports, DoesNothing, ResumesOffline;
    var all := inputs + [input];
    RunInStep(cfg, all);
    assert all[..|inputs|] == inputs;
    AcceptedStepBacks(cfg, inputs, input);
  }

  /** If input k is accepted and does something, the probe then proves every session the stream shows live. */
  ghost predicate ShownBackedAt(cfg: Config, inputs: seq<Input>, k: nat)
    requires k < |inputs|
  {
    var run := Execute(cfg, inputs[..k + 1]);
    run.outcomes[k].Ok? && !DoesNothing(Execute(cfg, inputs[..k]).state, inputs[k]) ==>
      forall id | ShownLive(run.stream, id) :: Supports(cfg, run.state.probe.proven, Shown(run.stream, id).value)
  }

  lemma OfflineUpTo(cfg: Config, inputs: seq<Input>, n: nat)
    requires ResumesOffline(cfg, inputs) && n <= |inputs|
    ensures ResumesOffline(cfg, inputs[..n])
  {
    hide Execute, ShownLive;
    forall j | 0 <= j < n ensures inputs[..n][..j] == inputs[..j] && inputs[..n][j] == inputs[j] { }
  }

  /** After a resume nothing is proven, so what is backed is that nothing is shown live. */
  lemma ResumeUnproves(cfg: Config, inputs: seq<Input>, k: nat)
    requires k < |inputs| && inputs[k].Resume? && ShownBackedAt(cfg, inputs, k)
    ensures forall id :: !ShownLive(Execute(cfg, inputs[..k]).stream, id)
  {
    hide Step, Shown;
    var run, before := Execute(cfg, inputs[..k + 1]), Execute(cfg, inputs[..k]);
    assert inputs[..k + 1][..k] == inputs[..k] && inputs[..k + 1][k] == inputs[k];
    ResumedRun(cfg, inputs[..k + 1]);
    ResumeStep(cfg, before.state, inputs[k]);
    assert run.outcomes[k].Ok? && run.state.probe.proven == [];
  }

  /**
   Every run: what the stream shows live is proven after each accepted input exactly if no resume is
   prepared while the stream shows a session live.
   */
  lemma StreamIsBackedIff(cfg: Config, inputs: seq<Input>)
    ensures (forall k | 0 <= k < |inputs| :: ShownBackedAt(cfg, inputs, k)) <==> ResumesOffline(cfg, inputs)
  {
    hide Execute, Step, Shown, Supports, DoesNothing;
    if ResumesOffline(cfg, inputs) {
      forall k | 0 <= k < |inputs| ensures ShownBackedAt(cfg, inputs, k) {
        var front := inputs[..k];
        assert inputs[..k + 1] == front + [inputs[k]];
        OfflineUpTo(cfg, inputs, k + 1);
        forall id { StreamIsBacked(cfg, front, inputs[k], id); }
      }
    }
    if forall k | 0 <= k < |inputs| :: ShownBackedAt(cfg, inputs, k) {
      forall k | 0 <= k < |inputs| && inputs[k].Resume?
        ensures forall id :: !ShownLive(Execute(cfg, inputs[..k]).stream, id)
      {
        ResumeUnproves(cfg, inputs, k);
      }
    }
  }

  // ------------------------------------------------------------------ where the claim does outlive the evidence

  function Opening(): seq<Input> {
    [Ingest(SessionBound(false, Some("raw"), Some("/work"), None), 0),
     Ingest(Sdk(Some(Init(Some("/work"))), Some("raw"), None), 0)]
  }

  /** Bound to a session, with nothing proven or claimed yet. */
  ghost predicate Bound(s: State) {
    && s.session.Some? && !s.session.value.binding.IsLive() && s.boundCwd == Some("/work")
      && s.rawSession == Some("raw")
    && s.probe.proven == [] && s.published == [] && s.sessionId.Some?
  }

  lemma OpeningBinds(cfg: Config)
    ensures Bound(Step(cfg, Initial(cfg), Opening()[0]).state)
  {
  }

  /** The stored session is live and was the last thing shown. */
  ghost predicate LiveAndShown(s: State, effects: seq<Effect>) {
    && s.session.Some? && s.session.value.binding.IsLive()
    && effects != [] && effects[|effects| - 1] == SessionUpserted(s.session.value)
  }

  lemma RefreshGoesLive(cfg: Config, s: State, at: int)
    requires cfg.evidence == ObservedInTraffic && LiveObserve in s.probe.proven
    requires s.session.Some? && !s.session.value.binding.IsLive()
    ensures
      var r := PublishAndRefresh(cfg, s, at);
      && r.outcome.Ok? && LiveAndShown(r.state, r.outcome.value) && r.state.published == s.probe.proven
      && r.state.rawSession == s.rawSession && r.state.sessionId == s.sessionId && r.state.boundCwd == s.boundCwd
  {
  }

  lemma InitGoesLive(cfg: Config, s: State)
    requires cfg.evidence == ObservedInTraffic && Bound(s)
    ensures
      var r := Step(cfg, s, Opening()[1]);
      && r.outcome.Ok? && LiveAndShown(r.state, r.outcome.value) && r.state.published == [LiveObserve]
      && r.state.rawSession == Some("raw") && r.state.sessionId.Some? && r.state.boundCwd == Some("/work")
  {
    hide PublishAndRefresh;
    var at := Saturate(cfg.baseAt + 0);
    var started := Bootstrap(s.(probe := s.probe.Advance(at)), at);
    var d := Dispatch(cfg, started.state, Opening()[1].frame, at);
    assert d == Stepped(Prove(started.state, LiveObserve), Ok([]));
    RefreshGoesLive(cfg, d.state, at);
  }

  /** With live traffic, two frames lead to a session that is stored and shown as live. */
  lemma OpeningGoesLive(cfg: Config)
    requires cfg.evidence == ObservedInTraffic
    ensures
      var run := Execute(cfg, Opening());
      && run.state.session.Some? && run.state.session.value.binding.IsLive() && run.state.rawSession == Some("raw")
      && run.state.sessionId.Some? && ShownLive(run.stream, run.state.session.value.id)
      && run.state.published == [LiveObserve] && run.state.boundCwd == Some("/work")
  {
    hide Step, Bound;
    var all := Opening();
    var one := all[..1];
    assert one[..0] == [] && one[0] == all[0] && all[..|all| - 1] == one;
    var none, first, run := Execute(cfg, one[..0]), Execute(cfg, one), Execute(cfg, all);
    assert none.state == Initial(cfg);
    assert first.state == Step(cfg, none.state, one[0]).state;
    OpeningBinds(cfg);
    InitGoesLive(cfg, first.state);
    assert run.stream == first.stream + Step(cfg, first.state, all[1]).outcome.value;
    assert run.stream[|run.stream| - 1] == SessionUpserted(run.state.session.value);
  }

  /** A run that resumes any session while the opened one is shown live, which nothing proves any more. */
  lemma ResumeLeavesClaim(cfg: Config, to: SessionId, raw: string)
    requires cfg.evidence == ObservedInTraffic
    ensures
      var before, run := Execute(cfg, Opening()), Execute(cfg, Opening() + [Resume(to, raw)]);
      && before.state.session.Some?
      && var id := before.state.session.value.id;
      && ShownLive(run.stream, id) && !Supports(cfg, run.state.probe.proven, Shown(run.stream, id).value)
  {
    hide Step, Shown;
    OpeningGoesLive(cfg);
    var all := Opening() + [Resume(to, raw)];
    assert all[..2] == Opening() && all[2] == Resume(to, raw);
    ResumedRun(cfg, all);
    ResumeStep(cfg, Execute(cfg, Opening()).state, Resume(to, raw));
    assert Execute(cfg, all).state.probe.proven == [];
  }

  /** An authentication failure in a frame that is then rejected takes the evidence away and leaves the claim. */
  lemma RejectedFailureLeavesClaim(cfg: Config, s: State, raw: string, offset: int)
    requires s.session.Some? && s.session.value.binding.IsLive() && s.sessionId.Some? && s.rawSession == Some(raw)
      && raw != ""
    ensures
      var r := Step(cfg, s, Ingest(Sdk(Some(Assistant(true, false)), Some(raw), None), offset));
      r.outcome.Err? && !Backed(cfg, r.state)
  {
  }

  /** So there is a run after which a session is stored live without evidence. */
  lemma ClaimCanOutliveEvidence(cfg: Config)
    requires cfg.evidence == ObservedInTraffic
    ensures
      var failure := Ingest(Sdk(Some(Assistant(true, false)), Some("raw"), None), 0);
      !Backed(cfg, Execute(cfg, Opening() + [failure]).state)
  {
    hide Step, Backed;
    var failure := Ingest(Sdk(Some(Assistant(true, false)), Some("raw"), None), 0);
    OpeningGoesLive(cfg);
    assert (Opening() + [failure])[..2] == Opening();
    RejectedFailureLeavesClaim(cfg, Execute(cfg, Opening()).state, "raw", 0);
  }
}
