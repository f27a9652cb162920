/**
 Beginning and end of a connection, over every run of the Codex reducer (crates/kaleido-adapter-codex/src/reduce.rs):
 the host and the runtime are introduced by the first frame or never, and the end is reported once.
 */
module CodexLifecycle {
  import opened Prelude
  import opened Canonical
  import opened Capability
  import opened CodexWire
  import opened CodexBindings
  import opened CodexStep
  import opened CodexRun
  import opened CodexJoin
  import opened CodexHistory
  import opened CodexLedger

  /** Effects about the host or the runtime as a whole. */
  predicate Formal(e: Effect) { e.HostUpserted? || e.RuntimeUpserted? }

  predicate Informal(effects: seq<Effect>) { forall i | 0 <= i < |effects| :: !Formal(effects[i]) }

  lemma InformalAppend(xs: seq<Effect>, ys: seq<Effect>)
    requires Informal(xs) && Informal(ys)
    ensures Informal(xs + ys)
  {
  }

  lemma {:induction false} InformalPlace(effects: seq<Effect>, e: Effect)
    requires Informal(effects) && !Formal(e)
    ensures Informal(Place(effects, e))
  {
    if effects != [] && !PromotesControl(effects[0]) {
      assert forall i | 0 <= i < |effects[1..]| :: effects[1..][i] == effects[i + 1];
      InformalPlace(effects[1..], e);
    }
  }

  lemma FinishInformal(s: State)
    ensures Informal(Finish(s).effects) && Finish(s).state.bootstrapped == s.bootstrapped
    ensures Finish(s).state.ended == s.ended
  {
    FinishShows(s);
  }

  /** Says nothing formal, and leaves both marks as they are. */
  ghost predicate Passing(s: State, o: Outcome) {
    Informal(Said(o)) && o.state.bootstrapped == s.bootstrapped && o.state.ended == s.ended
  }

  lemma TurnTransitionPasses(cfg: Config, s: State, completed: bool, f: Fields, at: int)
    ensures Passing(s, ReduceTurnTransition(cfg, s, completed, f, at))
  {
    hide DecodeTurnNotice, TurnStatusOf, Finish;
    var open := ReduceTurnTransition(cfg, s, false, f, at);
    TurnCompletedCloses(cfg, s, f, at);
    if completed && open.result.Ok? {
      FinishInformal(open.state);
      InformalAppend(open.result.value, Finish(open.state).effects);
    }
  }

  lemma StoreItemPasses(cfg: Config, s: State, m: ItemNotice, started: bool, f: Fields)
    requires m.thread in s.bindings.sessions
    ensures Passing(s, StoreItem(cfg, s, m, started, f))
  {
    StoreItemShows(cfg, s, m, started, f);
    hide DecodeBody, ItemFor, ItemBindings, UpgradeEffects, UpgradedAttention;
  }

  lemma ItemPasses(cfg: Config, s: State, started: bool, f: Fields, at: int)
    ensures Passing(s, ReduceItem(cfg, s, started, f, at))
  {
    hide DecodeItemNotice, StoreItem;
    var m := DecodeItemNotice(f, started);
    if m.Ok? && m.value.thread in s.bindings.sessions { StoreItemPasses(cfg, s, m.value, started, f); }
  }

  lemma DeltaPasses(s: State, f: Fields, at: int)
    ensures Passing(s, ReduceDelta(s, f, at)) && Passing(s, ReduceStatusChanged(s, f, at))
    ensures Passing(s, ReduceThreadStarted(s, f))
  {
    hide DecodeDelta, SessionStatusOf;
  }

  lemma NotificationPasses(cfg: Config, s: State, m: string, f: Fields, at: int)
    ensures Passing(s, ReduceNotification(cfg, s, m, f, at))
  {
    hide ReduceTurnTransition, ReduceItem, ReduceDelta, ReduceStatusChanged, ReduceThreadStarted;
    TurnTransitionPasses(cfg, s, m == "turn/completed", f, at);
    ItemPasses(cfg, s, m == "item/started", f, at);
    DeltaPasses(s, f, at);
  }

  lemma ApprovalsPass(cfg: Config, s: State, id: int, f: Fields, at: int)
    ensures Passing(s, ReduceApprovalRequest(cfg, s, id, f, at)) && Passing(s, ReduceApprovalReply(cfg, s, id, f, at))
  {
    hide DecodeApproval, DecodeDecision, NewApproval, ApprovalBindings;
  }

  lemma TurnResponsePasses(cfg: Config, s: State, id: int, frame: Frame, at: int)
    ensures Passing(s, ReduceTurnResponse(cfg, s, id, frame, at))
  {
    hide DecodeTurnCreated;
  }

  lemma SessionPasses(cfg: Config, s: State, f: Fields, at: int)
    ensures Passing(s, BootstrapSession(cfg, s, f, at))
  {
    hide NewSession, ProveSession;
  }

  lemma ResponsePasses(cfg: Config, s: State, id: int, frame: Frame, at: int)
    ensures Passing(s, ReduceClientResponse(cfg, s, id, frame, at))
  {
    hide ReduceTurnResponse, BootstrapSession;
    var s1 := s.(calls := s.calls.(client := s.calls.client - {id}));
    TurnResponsePasses(cfg, s1, id, frame, at);
    SessionPasses(cfg, s1, frame.fields, at);
  }

  lemma DispatchPasses(cfg: Config, s: State, frame: Frame, at: int)
    ensures Passing(s, Dispatch(cfg, s, frame, at))
  {
    hide ReduceNotification, ReduceClientResponse, ReduceApprovalRequest, ReduceApprovalReply;
    if frame.method_.Some? { NotificationPasses(cfg, s, frame.method_.value, frame.fields, at); }
    if frame.id.Some? {
      ApprovalsPass(cfg, s, frame.id.value, frame.fields, at);
      ResponsePasses(cfg, s, frame.id.value, frame, at);
    }
  }

  // ------------------------------------------------------------------ the introduction

  /** A host and a connected runtime, and nothing else of the kind. */
  ghost predicate Introduces(effects: seq<Effect>) {
    && |effects| >= 2 && effects[0].HostUpserted?
    && effects[1].RuntimeUpserted? && effects[1].connection == Connected(effects[0].lastSeenAt)
    && Informal(effects[2..])
  }

  lemma IngestIntroduces(cfg: Config, s: State, frame: Frame)
    ensures
      var o := IngestFrame(cfg, s, frame);
      && o.state.bootstrapped && o.state.ended == s.ended
      && if o.result.Ok? && !s.bootstrapped then Introduces(o.result.value) else Informal(Said(o))
  {
    hide Dispatch;
    var at := Saturate(cfg.baseAt + frame.offset);
    var boot := Bootstrap(s.(live := s.live.(probe := s.live.probe.Advance(at))), at);
    DispatchPasses(cfg, boot.state, frame, at);
    var d := Dispatch(cfg, boot.state, frame, at);
    if d.result.Ok? {
      InformalPlace(d.result.value, CapabilitiesUpdated(d.state.live.probe.ToCapabilities()));
      var published := Publish(d.state, d.result.value).effects;
      assert Informal(published);
      assert (boot.effects + published)[|boot.effects|..] == published;
      if s.bootstrapped { assert boot.effects + published == published; }
    }
  }

  predicate IsEnd(input: Input) { input.Exit? || input.Disconnect? }

  /** What a step says formally, and what it marks. */
  lemma FormalStep(cfg: Config, s: State, input: Input)
    ensures
      var r := Step(cfg, s, input);
      && r.state.bootstrapped == (s.bootstrapped || input.Ingest?)
      && r.state.ended == (s.ended || IsEnd(input))
      && (input.Ingest? && Accepted(r.reply) && !s.bootstrapped ==> Introduces(EffectsOf(r.reply)))
      && (IsEnd(input) && !s.ended ==> ReportsEnd(EffectsOf(r.reply), input))
      && (!(input.Ingest? && Accepted(r.reply) && !s.bootstrapped) && !(IsEnd(input) && !s.ended) ==>
            Informal(EffectsOf(r.reply)))
  {
    hide IngestFrame, Finish;
    match input {
      case Ingest(frame) => IngestIntroduces(cfg, s, frame);
      case CloseWindow => FinishInformal(s);
      case _ =>
    }
  }

  /** The runtime is reported gone, and a session with it. */
  ghost predicate ReportsEnd(effects: seq<Effect>, input: Input)
    requires IsEnd(input)
  {
    && effects != [] && effects[0].RuntimeUpserted? && Informal(effects[1..])
    && effects[0].connection == (if input.Exit? then Unavailable(input.exitCode, input.at) else Disconnected)
    && (|effects| > 1 ==>
          && effects[1].SessionUpserted? && effects[1].session.status == Offline
          && effects[1].session.liveBinding == NotBound(RuntimeExited))
  }

  lemma {:induction false} MarksAre(cfg: Config, inputs: seq<Input>, n: nat)
    requires n <= |inputs|
    ensures At(cfg, inputs, n).bootstrapped <==> exists k | 0 <= k < n :: inputs[k].Ingest?
    ensures At(cfg, inputs, n).ended <==> exists k | 0 <= k < n :: IsEnd(inputs[k])
  {
    hide Step, Execute, IsEnd;
    if n == 0 {
      AtStart(cfg, inputs);
    } else {
      MarksAre(cfg, inputs, n - 1);
      AtNext(cfg, inputs, n - 1);
      FormalStep(cfg, At(cfg, inputs, n - 1), inputs[n - 1]);
    }
  }

  /** The introduction comes with the first frame if that is accepted. No later frame makes up for it. */
  lemma IntroducedIff(cfg: Config, inputs: seq<Input>, n: nat)
    requires n < |inputs|
    ensures (exists e :: e in EffectsOf(ReplyAt(cfg, inputs, n)) && e.HostUpserted?) <==>
      inputs[n].Ingest? && Accepted(ReplyAt(cfg, inputs, n)) && forall k | 0 <= k < n :: !inputs[k].Ingest?
  {
    hide Step, At, Informal;
    var effects := EffectsOf(ReplyAt(cfg, inputs, n));
    MarksAre(cfg, inputs, n);
    FormalStep(cfg, At(cfg, inputs, n), inputs[n]);
    if Introduces(effects) { assert effects[0] in effects; }
    if Informal(effects) { InformalHas(effects); }
    if IsEnd(inputs[n]) && ReportsEnd(effects, inputs[n]) { EndHas(effects, inputs[n]); }
  }

  lemma InformalHas(effects: seq<Effect>)
    requires Informal(effects)
    ensures forall e | e in effects :: !Formal(e)
  {
  }

  lemma EndHas(effects: seq<Effect>, input: Input)
    requires IsEnd(input) && ReportsEnd(effects, input)
    ensures forall e | e in effects :: !e.HostUpserted?
  {
    assert effects == [effects[0]] + effects[1..];
    InformalHas(effects[1..]);
  }

  /** The end is reported by the first call that announces it, and by no other input. */
  lemma EndReportedIff(cfg: Config, inputs: seq<Input>, n: nat)
    requires n < |inputs|
    ensures (exists e :: e in EffectsOf(ReplyAt(cfg, inputs, n)) && e.RuntimeUpserted? && !e.connection.Connected?) <==>
      IsEnd(inputs[n]) && forall k | 0 <= k < n :: !IsEnd(inputs[k])
    ensures IsEnd(inputs[n]) && (forall k | 0 <= k < n :: !IsEnd(inputs[k])) ==>
      ReportsEnd(EffectsOf(ReplyAt(cfg, inputs, n)), inputs[n])
  {
    hide Step, At, Informal;
    var effects := EffectsOf(ReplyAt(cfg, inputs, n));
    MarksAre(cfg, inputs, n);
    FormalStep(cfg, At(cfg, inputs, n), inputs[n]);
    if Informal(effects) { InformalHas(effects); }
    if Introduces(effects) { IntroductionHas(effects); }
    if IsEnd(inputs[n]) && ReportsEnd(effects, inputs[n]) { assert effects[0] in effects; }
  }

  lemma IntroductionHas(effects: seq<Effect>)
    requires Introduces(effects)
    ensures forall e | e in effects :: e.RuntimeUpserted? ==> e.connection.Connected?
  {
    assert effects == [effects[0], effects[1]] + effects[2..];
    InformalHas(effects[2..]);
  }

  const NAMELESS := Ingest(Frame(ServerToClient, 0, Some("thread/started"), None, false, map[]))
  const UNHEARD_OF := Ingest(Frame(ServerToClient, 1, Some("unheard/of"), None, false, map[]))

  /** A first frame that is rejected costs the introduction: what follows is said of a host that was never shown. */
  lemma NeverIntroduced(cfg: Config)
    ensures
      var inputs := [NAMELESS, UNHEARD_OF];
      && !Accepted(ReplyAt(cfg, inputs, 0)) && Accepted(ReplyAt(cfg, inputs, 1))
      && EffectsOf(ReplyAt(cfg, inputs, 1)) != []
      && forall n: nat, e | n < 2 && e in EffectsOf(ReplyAt(cfg, inputs, n)) :: !e.HostUpserted?
  {
    hide Step, Execute;
    var inputs := [NAMELESS, UNHEARD_OF];
    AtStart(cfg, inputs);
    RejectedFirst(cfg, At(cfg, inputs, 0));
    DiagnosedNext(cfg, At(cfg, inputs, 1));
    forall n: nat, e | n < 2 && e in EffectsOf(ReplyAt(cfg, inputs, n)) ensures !e.HostUpserted? {
      IntroducedIff(cfg, inputs, n);
      assert inputs[0].Ingest? && (n == 0 || n == 1);
    }
  }

  lemma RejectedFirst(cfg: Config, s: State)
    ensures Step(cfg, s, NAMELESS).reply.Reduced? && Step(cfg, s, NAMELESS).reply.result.Err?
  {
    hide ReduceItem, ReduceTurnTransition, ReduceDelta;
  }

  lemma DiagnosedNext(cfg: Config, s: State)
    ensures Accepted(Step(cfg, s, UNHEARD_OF).reply) && EffectsOf(Step(cfg, s, UNHEARD_OF).reply) != []
  {
    hide ReduceItem, ReduceTurnTransition, ReduceDelta, RecordFor;
    var frame := UNHEARD_OF.frame;
    var at := Saturate(cfg.baseAt + frame.offset);
    var t := Bootstrap(s.(live := s.live.(probe := s.live.probe.Advance(at))), at).state;
    assert Dispatch(cfg, t, frame, at) == DiagnoseOnly(t, UnknownUpstreamMessage, t.live.sessionId, None, at);
  }
}
