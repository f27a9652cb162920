/**
 What the Codex reducer says when the server answers a client call (crates/kaleido-adapter-codex/src/reduce.rs):
 a command carried by a started turn is acknowledged as rejected if the response is an error, and otherwise
 shown with its turn, acknowledged as accepted and followed by control. Nothing else is ever acknowledged.
 */
module CodexResponse {
  import opened Prelude
  import opened Canonical
  import opened Capability
  import opened CodexWire
  import opened CodexBindings
  import opened CodexStep
  import opened CodexRun
  import opened CodexJoin
  import opened CodexLedger
  import opened CodexHistory
  import CodexControl

  // ------------------------------------------------------------------ what is said about commands

  predicate Concerns(e: Effect) { e.TurnUpserted? || e.CommandAcknowledged? }

  /** The turns shown and the acknowledgements given, in order. */
  function Spoken(effects: seq<Effect>): seq<Effect> {
    if effects == [] then []
    else (if Concerns(effects[0]) then [effects[0]] else []) + Spoken(effects[1..])
  }

  lemma {:induction false} SpokenAppend(xs: seq<Effect>, ys: seq<Effect>)
    ensures Spoken(xs + ys) == Spoken(xs) + Spoken(ys)
  {
    if xs == [] {
      assert xs + ys == ys;
    } else {
      hide Concerns;
      assert (xs + ys)[1..] == xs[1..] + ys && (xs + ys)[0] == xs[0];
      SpokenAppend(xs[1..], ys);
      var first := if Concerns(xs[0]) then [xs[0]] else [];
      assert (first + Spoken(xs[1..])) + Spoken(ys) == first + (Spoken(xs[1..]) + Spoken(ys));
    }
  }

  lemma NothingSpoken()
    ensures Spoken([]) == []
  {
  }

  lemma SpokenOne(e: Effect)
    ensures Spoken([e]) == if Concerns(e) then [e] else []
  {
    assert [e][1..] == [];
  }

  lemma {:induction false} SpokenPlace(effects: seq<Effect>, e: Effect)
    requires !Concerns(e)
    ensures Spoken(Place(effects, e)) == Spoken(effects)
  {
    if effects == [] {
      assert [e][1..] == [];
    } else if PromotesControl(effects[0]) {
      assert ([e] + effects)[1..] == effects;
    } else {
      assert ([effects[0]] + Place(effects[1..], e))[1..] == Place(effects[1..], e);
      SpokenPlace(effects[1..], e);
    }
  }

  lemma {:induction false} SpokenIn(effects: seq<Effect>, e: Effect)
    ensures e in Spoken(effects) <==> e in effects && Concerns(e)
  {
    if effects != [] {
      SpokenIn(effects[1..], e);
      assert effects == [effects[0]] + effects[1..];
    }
  }

  /** Publishing capabilities and greeting the host say nothing about commands. */
  lemma IngestSays(cfg: Config, s: State, frame: Frame) returns (t: State)
    ensures t == Bootstrap(s.(live := s.live.(probe := s.live.probe.Advance(TimeOf(cfg, frame)))),
                           TimeOf(cfg, frame)).state
    ensures SameBooks(s, t) && t.live.session == s.live.session && t.live.sessionId == s.live.sessionId
    ensures t.live.probe.source == s.live.probe.source && t.live.probe.runtime == s.live.probe.runtime
    ensures
      var o, d := IngestFrame(cfg, s, frame), Dispatch(cfg, t, frame, TimeOf(cfg, frame));
      && o.result.Ok? == d.result.Ok? && Spoken(Said(o)) == Spoken(Said(d))
      && o.state.live.session == d.state.live.session
      && (o.result.Err? ==> o == d)
  {
    hide Dispatch, Spoken;
    var at := TimeOf(cfg, frame);
    var boot := Bootstrap(s.(live := s.live.(probe := s.live.probe.Advance(at))), at);
    t := boot.state;
    var d := Dispatch(cfg, t, frame, at);
    if d.result.Ok? {
      var published := Publish(d.state, d.result.value);
      SpokenAppend(boot.effects, published.effects);
      BootSays(s.(live := s.live.(probe := s.live.probe.Advance(at))), at);
      SpokenPlace(d.result.value, CapabilitiesUpdated(d.state.live.probe.ToCapabilities()));
      assert [] + Spoken(published.effects) == Spoken(published.effects);
    }
  }

  lemma BootSays(s: State, at: int)
    ensures Spoken(Bootstrap(s, at).effects) == []
  {
    NothingSpoken();
    if !s.bootstrapped {
      var effects := Bootstrap(s, at).effects;
      assert effects == [effects[0]] + [effects[1]];
      SpokenAppend([effects[0]], [effects[1]]);
      SpokenOne(effects[0]);
      SpokenOne(effects[1]);
    }
  }

  // ------------------------------------------------------------------ responses

  /** The turn a response shows. */
  ghost predicate ShowsTurn(e: Effect, m: TurnCreated, session: SessionId, origin: TurnOrigin) {
    && e.TurnUpserted? && e.turn.id == TurnId(m.turn) && e.turn.session == session
    && e.turn.status == m.status && e.turn.origin == origin
  }

  lemma TurnCreatedSays(cfg: Config, s: State, f: Fields, at: int, origin: TurnOrigin)
    requires s.bindings.Minted()
    ensures
      var o, m := ReduceTurnCreated(cfg, s, f, at, origin), DecodeTurnCreated(f);
      && (o.result.Ok? <==> m.Ok? && s.live.sessionId.Some?)
      && o.state.live == s.live
      && (o.result.Ok? ==>
            |o.result.value| == 1 && ShowsTurn(o.result.value[0], m.value, s.live.sessionId.value, origin))
  {
    hide DecodeTurnCreated;
  }

  function AcceptedBy(cfg: Config, session: SessionId, command: CommandId): CommandOutcome {
    AcceptedByRuntime(session, Handle(cfg.runtime, AcknowledgementHandle, command))
  }

  /** The session is shown live here. */
  predicate LiveHere(s: State) { s.live.session.Some? && s.live.session.value.liveBinding.IsLive() }

  /** What every run keeps of the session and of the probe. */
  ghost predicate Proven(cfg: Config, s: State) {
    && s.live.probe.source == cfg.evidence && s.live.probe.runtime == cfg.runtime
    && CodexControl.BindingProven(cfg, s.live)
  }

  lemma AcceptanceSays(cfg: Config, s: State, command: CommandId, at: int)
    requires Proven(cfg, s)
    ensures
      var o := RuntimeAcceptance(cfg, s, command, at);
      && (o.result.Ok? <==> LiveHere(s))
      && (o.result.Ok? ==>
            && Spoken(o.result.value) == [CommandAcknowledged(command,
              AcceptedBy(cfg, s.live.session.value.id, command), at)]
            && o.state.live.session.Some? && o.state.live.session.value.liveBinding.Controlling?
            && o.state.live.session.value.id == s.live.session.value.id)
      && (o.result.Err? ==> o.state.live.session == s.live.session)
  {
    hide Spoken;
    var o := RuntimeAcceptance(cfg, s, command, at);
    if o.result.Ok? {
      var effects := o.result.value;
      SpokenOne(effects[0]);
      if |effects| == 2 {
        assert effects == [effects[0]] + [effects[1]];
        SpokenAppend([effects[0]], [effects[1]]);
        SpokenOne(effects[1]);
      } else {
        assert effects == [effects[0]];
      }
    }
  }

  /** A response to a started turn: what is said, and what becomes of the session. */
  ghost predicate TurnAnswered(cfg: Config, s: State, o: Outcome, command: Option<CommandId>, frame: Frame, at: int) {
    var m := DecodeTurnCreated(frame.fields);
    var said := Spoken(Said(o));
    if frame.hasError then
      && o.result.Ok? && o.state.live.session == s.live.session
      && said == if command.Some? then [CommandAcknowledged(command.value, Rejected(at), at)] else []
    else
      && (o.result.Ok? <==> m.Ok? && s.live.sessionId.Some? && (command.Some? ==> LiveHere(s)))
      && (o.result.Err? || command.None? ==> o.state.live.session == s.live.session)
      && (o.result.Ok? ==>
            && |said| == (if command.Some? then 2 else 1)
            && ShowsTurn(said[0], m.value, s.live.sessionId.value,
                         if command.Some? then RemoteCommand(command.value) else cfg.turnOrigin)
            && (command.Some? ==>
                  && said[1] == CommandAcknowledged(command.value,
                                                    AcceptedBy(cfg, s.live.session.value.id, command.value), at)
                  && o.state.live.session.Some? && o.state.live.session.value.liveBinding.Controlling?))
  }

  lemma TurnResponseSays(cfg: Config, s: State, id: int, frame: Frame, at: int)
    requires s.bindings.Minted() && Proven(cfg, s)
    ensures TurnAnswered(cfg, s, ReduceTurnResponse(cfg, s, id, frame, at),
                         if id in s.calls.control then Some(s.calls.control[id]) else None, frame, at)
  {
    hide ReduceTurnCreated, RuntimeAcceptance, Spoken, DecodeTurnCreated, ShowsTurn;
    var o, control := ReduceTurnResponse(cfg, s, id, frame, at), s.calls.control;
    NothingSpoken();
    if frame.hasError {
      if id in control { SpokenOne(CommandAcknowledged(control[id], Rejected(at), at)); }
    } else {
      var s1 := s.(calls := s.calls.(control := control - {id}));
      var origin := if id in control then RemoteCommand(control[id]) else cfg.turnOrigin;
      var created := ReduceTurnCreated(cfg, s1, frame.fields, at, origin);
      TurnCreatedSays(cfg, s1, frame.fields, at, origin);
      if created.result.Ok? {
        var turn := created.result.value[0];
        assert created.result.value == [turn];
        TurnIsShown(turn, DecodeTurnCreated(frame.fields).value, s.live.sessionId.value, origin);
        SpokenOne(turn);
        if id in control {
          var accepted := RuntimeAcceptance(cfg, created.state, control[id], at);
          AcceptanceSays(cfg, created.state, control[id], at);
          if accepted.result.Ok? { SpokenAppend([turn], accepted.result.value); }
        }
      }
    }
  }

  lemma TurnIsShown(e: Effect, m: TurnCreated, session: SessionId, origin: TurnOrigin)
    requires ShowsTurn(e, m, session, origin)
    ensures e.TurnUpserted?
  {
  }

  // ------------------------------------------------------------------ every run

  lemma ProvenAlways(cfg: Config, inputs: seq<Input>, n: nat)
    requires n <= |inputs|
    ensures Proven(cfg, At(cfg, inputs, n))
  {
    hide Step, Execute, CodexControl.Watch;
    CodexControl.RunWatched(cfg, inputs[..n]);
  }

  ghost predicate CommandFor(cfg: Config, inputs: seq<Input>, n: nat, id: int, command: Option<CommandId>) {
    if command.Some? then OpenOrder(cfg, inputs, n, id, command.value)
    else forall other :: !OpenOrder(cfg, inputs, n, id, other)
  }

  lemma CommandIsCarried(cfg: Config, inputs: seq<Input>, n: nat, id: int, command: Option<CommandId>)
    requires n <= |inputs| && CommandFor(cfg, inputs, n, id, command)
    ensures
      var control := At(cfg, inputs, n).calls.control;
      command == if id in control then Some(control[id]) else None
  {
    hide At, OpenOrder;
    var control := At(cfg, inputs, n).calls.control;
    if command.Some? {
      OrdersAreOpen(cfg, inputs, n, id, command.value);
    } else if id in control {
      OrdersAreOpen(cfg, inputs, n, id, control[id]);
    }
  }

  /**
   At every point of every run, a response to a started turn acknowledges the command it carries: as rejected,
   with no turn, if it is an error, and otherwise after its turn, as accepted, with the session under control.
   */
  lemma ResponseAnswersTheCommand(cfg: Config, inputs: seq<Input>, n: nat, id: int, command: Option<CommandId>)
    requires n < |inputs| && Responds(inputs[n], id) && OpenCall(inputs, n, id, "turn/start")
    requires CommandFor(cfg, inputs, n, id, command)
    ensures ReplyAt(cfg, inputs, n).Reduced?
    ensures TurnAnswered(cfg, At(cfg, inputs, n), Outcome(At(cfg, inputs, n + 1), ReplyAt(cfg, inputs, n).result),
      command,
      inputs[n].frame, TimeOf(cfg, inputs[n].frame))
  {
    hide Execute, OpenCall, CommandFor, Spoken, DecodeTurnCreated, ShowsTurn, Kept;
    var s, frame := At(cfg, inputs, n), inputs[n].frame;
    AtNext(cfg, inputs, n);
    KeptAlways(cfg, inputs, n);
    ProvenAlways(cfg, inputs, n);
    StartsATurn(cfg, inputs, n, id);
    CommandIsCarried(cfg, inputs, n, id, command);
    assert s.bindings.Minted() by { KeptMints(s); }
    StepAnswers(cfg, s, frame, id);
  }

  lemma KeptMints(s: State)
    requires Kept(s)
    ensures s.bindings.Minted()
  {
  }

  lemma StepAnswers(cfg: Config, s: State, frame: Frame, id: int)
    requires Responds(Ingest(frame), id) && id in s.calls.client && s.calls.client[id].TurnStart?
    requires s.bindings.Minted() && Proven(cfg, s)
    ensures
      var o := IngestFrame(cfg, s, frame);
      TurnAnswered(cfg, s, o, if id in s.calls.control then Some(s.calls.control[id]) else None, frame,
        TimeOf(cfg, frame))
  {
    hide Spoken, DecodeTurnCreated, ShowsTurn, IngestFrame, ReduceTurnResponse;
    var at := TimeOf(cfg, frame);
    var t := IngestSays(cfg, s, frame);
    var s1 := t.(calls := t.calls.(client := t.calls.client - {id}));
    TurnResponseSays(cfg, s1, id, frame, at);
    assert Dispatch(cfg, t, frame, at) == ReduceTurnResponse(cfg, s1, id, frame, at);
  }

  // ------------------------------------------------------------------ nothing else is acknowledged

  predicate Silent(effects: seq<Effect>) { forall i | 0 <= i < |effects| :: !effects[i].CommandAcknowledged? }

  lemma SilentAppend(xs: seq<Effect>, ys: seq<Effect>)
    requires Silent(xs) && Silent(ys)
    ensures Silent(xs + ys)
  {
  }

  lemma FinishSilent(s: State)
    ensures Silent(Finish(s).effects)
  {
    FinishShows(s);
  }

  lemma TurnTransitionSilent(cfg: Config, s: State, completed: bool, f: Fields, at: int)
    ensures Silent(Said(ReduceTurnTransition(cfg, s, completed, f, at)))
  {
    hide DecodeTurnNotice, TurnStatusOf, Finish;
    var open := ReduceTurnTransition(cfg, s, false, f, at);
    TurnCompletedCloses(cfg, s, f, at);
    if completed && open.result.Ok? {
      FinishSilent(open.state);
      SilentAppend(open.result.value, Finish(open.state).effects);
    }
  }

  lemma ItemSilent(cfg: Config, s: State, started: bool, f: Fields, at: int)
    ensures Silent(Said(ReduceItem(cfg, s, started, f, at)))
  {
    hide DecodeItemNotice, StoreItem;
    var m := DecodeItemNotice(f, started);
    if m.Ok? && m.value.thread in s.bindings.sessions { StoreItemShows(cfg, s, m.value, started, f); }
  }

  lemma NotificationSilent(cfg: Config, s: State, m: string, f: Fields, at: int)
    ensures Silent(Said(ReduceNotification(cfg, s, m, f, at)))
  {
    hide ReduceTurnTransition, ReduceItem, DecodeDelta, SessionStatusOf;
    if m == "turn/started" || m == "turn/completed" {
      TurnTransitionSilent(cfg, s, m == "turn/completed", f, at);
    } else if m == "item/started" || m == "item/completed" {
      ItemSilent(cfg, s, m == "item/started", f, at);
    }
  }

  lemma ApprovalsSilent(cfg: Config, s: State, id: int, f: Fields, at: int)
    ensures Silent(Said(ReduceApprovalRequest(cfg, s, id, f, at)))
    ensures Silent(Said(ReduceApprovalReply(cfg, s, id, f, at)))
  {
    hide DecodeApproval, DecodeDecision, NewApproval, ApprovalBindings;
  }

  /** A frame that acknowledges is a response to a started turn that carries a command. */
  lemma DispatchAcknowledges(cfg: Config, s: State, frame: Frame, at: int, e: Effect)
    requires e in Said(Dispatch(cfg, s, frame, at)) && e.CommandAcknowledged?
    ensures frame.direction == ServerToClient && frame.method_.None? && frame.id.Some?
    ensures frame.id.value in s.calls.client && s.calls.client[frame.id.value].TurnStart?
    ensures frame.id.value in s.calls.control && s.calls.control[frame.id.value] == e.command
  {
    hide ReduceNotification, ReduceApprovalReply, ReduceApprovalRequest, ReduceTurnCreated, BootstrapSession;
    if frame.method_.Some? { NotificationSilent(cfg, s, frame.method_.value, frame.fields, at); }
    if frame.id.Some? {
      ApprovalsSilent(cfg, s, frame.id.value, frame.fields, at);
      var s1 := s.(calls := s.calls.(client := s.calls.client - {frame.id.value}));
      SessionSilent(cfg, s1, frame.fields, at);
      TurnCreatedSilent(cfg, s1.(calls := s1.calls.(control := s.calls.control - {frame.id.value})), frame.fields, at);
    }
  }

  lemma SessionSilent(cfg: Config, s: State, f: Fields, at: int)
    ensures Silent(Said(BootstrapSession(cfg, s, f, at)))
  {
  }

  lemma TurnCreatedSilent(cfg: Config, s: State, f: Fields, at: int)
    ensures forall origin :: Silent(Said(ReduceTurnCreated(cfg, s, f, at, origin)))
  {
    hide DecodeTurnCreated;
  }

  lemma StepAcknowledges(cfg: Config, s: State, input: Input, e: Effect)
    requires e in EffectsOf(Step(cfg, s, input).reply) && e.CommandAcknowledged?
    ensures exists id ::
      && Responds(input, id) && id in s.calls.client && s.calls.client[id].TurnStart?
      && id in s.calls.control && s.calls.control[id] == e.command
  {
    hide IngestFrame, Finish, Dispatch;
    match input {
      case Ingest(frame) =>
        var t := IngestSays(cfg, s, frame);
        SpokenIn(Said(IngestFrame(cfg, s, frame)), e);
        SpokenIn(Said(Dispatch(cfg, t, frame, TimeOf(cfg, frame))), e);
        DispatchAcknowledges(cfg, t, frame, TimeOf(cfg, frame), e);
        assert Responds(input, frame.id.value);
      case CloseWindow => FinishSilent(s);
      case _ =>
    }
  }

  /** Whatever is acknowledged in a run is a command that was registered for the call being answered. */
  lemma AcknowledgedIsAnswered(cfg: Config, inputs: seq<Input>, n: nat, e: Effect)
    requires n < |inputs| && e in EffectsOf(ReplyAt(cfg, inputs, n)) && e.CommandAcknowledged?
    ensures exists id ::
      Responds(inputs[n], id) && OpenCall(inputs, n, id, "turn/start") && OpenOrder(cfg, inputs, n, id, e.command)
  {
    hide Step, At, OpenCall, OpenOrder, FrameOf;
    var s := At(cfg, inputs, n);
    StepAcknowledges(cfg, s, inputs[n], e);
    var id :| Responds(inputs[n], id) && id in s.calls.client && s.calls.client[id].TurnStart? &&
      id in s.calls.control && s.calls.control[id] == e.command;
    StartsATurn(cfg, inputs, n, id);
    OrdersAreOpen(cfg, inputs, n, id, e.command);
  }
}
