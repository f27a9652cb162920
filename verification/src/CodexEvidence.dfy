/**
 What the Codex reducer holds proven, over every run (crates/kaleido-adapter-codex/src/reduce.rs): a capability is
 proven exactly if an accepted input was evidence for it.
 */
module CodexEvidence {
  import opened Prelude
  import opened Canonical
  import opened Capability
  import opened CodexWire
  import opened CodexBindings
  import opened CodexStep
  import opened CodexRun
  import opened CodexLedger
  import opened CodexHistory
  import opened CodexResponse
  import CodexControl

  predicate Has(s: State, c: Capability) { c in s.live.probe.proven }

  // ------------------------------------------------------------------ one step

  lemma SessionProves(cfg: Config, s: State, f: Fields, at: int, c: Capability)
    ensures
      var o := BootstrapSession(cfg, s, f, at);
      Has(o.state, c) <==>
        || Has(s, c)
        || (&& o.result.Ok?
            && (c == TurnPrompt || c == StateToolLifecycle || (c == LiveObserve && cfg.evidence == ObservedInTraffic)))
  {
    hide BootstrapSession;
    CodexControl.BootstrapSessionShape(cfg, s, f, at);
  }

  lemma AcceptanceProves(cfg: Config, s: State, command: CommandId, at: int, c: Capability)
    requires Proven(cfg, s)
    ensures
      var o := RuntimeAcceptance(cfg, s, command, at);
      Has(o.state, c) <==> Has(s, c) || (o.result.Ok? && c == LiveControl)
  {
  }

  lemma TurnResponseProves(cfg: Config, s: State, id: int, frame: Frame, at: int, c: Capability)
    requires Proven(cfg, s) && s.bindings.Minted()
    ensures
      var o := ReduceTurnResponse(cfg, s, id, frame, at);
      Has(o.state, c) <==> Has(s, c) || (o.result.Ok? && c == LiveControl && id in s.calls.control && !frame.hasError)
  {
    hide ReduceTurnCreated, RuntimeAcceptance, DecodeTurnCreated, ShowsTurn;
    if !frame.hasError {
      var control := s.calls.control;
      var s1 := s.(calls := s.calls.(control := control - {id}));
      var origin := if id in control then RemoteCommand(control[id]) else cfg.turnOrigin;
      TurnCreatedSays(cfg, s1, frame.fields, at, origin);
      var created := ReduceTurnCreated(cfg, s1, frame.fields, at, origin);
      if created.result.Ok? && id in control { AcceptanceProves(cfg, created.state, control[id], at, c); }
    }
  }

  /** What a response is evidence for, once accepted. */
  predicate ResponseEvidences(cfg: Config, call: ClientCall, carries: bool, hasError: bool, c: Capability) {
    match call
    case ThreadStart =>
      c == TurnPrompt || c == StateToolLifecycle || (c == LiveObserve && cfg.evidence == ObservedInTraffic)
    case TurnStart => c == LiveControl && carries && !hasError
    case Unmodelled => false
  }

  lemma ResponseProves(cfg: Config, s: State, id: int, frame: Frame, at: int, c: Capability)
    requires Proven(cfg, s) && s.bindings.Minted()
    ensures
      var o := ReduceClientResponse(cfg, s, id, frame, at);
      Has(o.state, c) <==>
        || Has(s, c)
        || (&& o.result.Ok? && id in s.calls.client
            && ResponseEvidences(cfg, s.calls.client[id], id in s.calls.control, frame.hasError, c))
  {
    hide ReduceTurnResponse, BootstrapSession;
    var s1 := s.(calls := s.calls.(client := s.calls.client - {id}));
    TurnResponseProves(cfg, s1, id, frame, at, c);
    SessionProves(cfg, s1, frame.fields, at, c);
  }

  /** What a frame is evidence for, once accepted. */
  ghost predicate FrameEvidences(cfg: Config, s: State, frame: Frame, c: Capability) {
    var input := Ingest(frame);
    || (c == InteractionApproval && exists id, m :: Asks(input, id, m))
    || (exists id :: Responds(input, id) && id in s.calls.client &&
                     ResponseEvidences(cfg, s.calls.client[id], id in s.calls.control, frame.hasError, c))
  }

  lemma AskProves(cfg: Config, s: State, id: int, f: Fields, at: int, c: Capability)
    ensures
      var o := ReduceApprovalRequest(cfg, s, id, f, at);
      Has(o.state, c) <==> Has(s, c) || (o.result.Ok? && c == InteractionApproval)
    ensures ReduceApprovalRequest(cfg, s, id, f, at).result.Ok? ==> DecodeApproval(f).Ok?
  {
    hide FileApproval, DecodeApproval;
    var m := DecodeApproval(f);
    if m.Ok? && m.value.thread in s.bindings.sessions { CodexControl.FileApprovalShape(cfg, s, id, m.value, at); }
  }

  /** Which of the three a frame can be. */
  lemma FrameKinds(cfg: Config, s: State, frame: Frame, c: Capability)
    ensures frame.direction == ClientToServer ==> !FrameEvidences(cfg, s, frame, c)
    ensures frame.direction == ServerToClient && frame.method_.Some? ==>
      (FrameEvidences(cfg, s, frame, c) <==>
         && c == InteractionApproval && frame.method_.value == APPROVAL_METHOD && frame.id.Some?
         && DecodeApproval(frame.fields).Ok?)
    ensures frame.direction == ServerToClient && frame.method_.None? ==>
      (FrameEvidences(cfg, s, frame, c) <==>
         && frame.id.Some? && frame.id.value in s.calls.client
         && ResponseEvidences(cfg, s.calls.client[frame.id.value], frame.id.value in s.calls.control, frame.hasError,
           c))
  {
    hide ResponseEvidences, DecodeApproval;
    var input, m := Ingest(frame), DecodeApproval(frame.fields);
    if frame.id.Some? && frame.direction == ServerToClient {
      if frame.method_ == Some(APPROVAL_METHOD) && m.Ok? { assert Asks(input, frame.id.value, m.value); }
      if frame.method_.None? { assert Responds(input, frame.id.value); }
    }
  }

  lemma DispatchProves(cfg: Config, s: State, frame: Frame, at: int, c: Capability)
    requires Proven(cfg, s) && s.bindings.Minted()
    ensures
      var o := Dispatch(cfg, s, frame, at);
      Has(o.state, c) <==> Has(s, c) || (o.result.Ok? && FrameEvidences(cfg, s, frame, c))
  {
    hide ReduceNotification, ReduceClientResponse, ReduceApprovalRequest, ReduceApprovalReply, ResponseEvidences;
    hide DecodeApproval, FrameEvidences, Proven;
    FrameKinds(cfg, s, frame, c);
    if frame.direction == ClientToServer {
      if frame.id.Some? { CodexControl.ApprovalReplyCalm(cfg, s, frame.id.value, frame.fields, at); }
    } else if frame.method_.Some? {
      if frame.id.Some? { AskProves(cfg, s, frame.id.value, frame.fields, at, c); }
      CodexControl.NotificationCalm(cfg, s, frame.method_.value, frame.fields, at);
    } else if frame.id.Some? {
      ResponseProves(cfg, s, frame.id.value, frame, at, c);
    }
  }

  ghost predicate Evidences(cfg: Config, s: State, input: Input, c: Capability) {
    input.Ingest? && Accepted(Step(cfg, s, input).reply) && FrameEvidences(cfg, s, input.frame, c)
  }

  lemma IngestProves(cfg: Config, s: State, frame: Frame, c: Capability)
    requires Proven(cfg, s) && s.bindings.Minted()
    ensures
      var o := IngestFrame(cfg, s, frame);
      Has(o.state, c) <==> Has(s, c) || (o.result.Ok? && FrameEvidences(cfg, s, frame, c))
  {
    hide Dispatch, ResponseEvidences, DecodeApproval;
    var at := TimeOf(cfg, frame);
    var t := Bootstrap(s.(live := s.live.(probe := s.live.probe.Advance(at))), at).state;
    DispatchProves(cfg, t, frame, at, c);
    assert FrameEvidences(cfg, t, frame, c) == FrameEvidences(cfg, s, frame, c);
  }

  lemma StepProves(cfg: Config, s: State, input: Input, c: Capability)
    requires Proven(cfg, s) && s.bindings.Minted()
    ensures Has(Step(cfg, s, input).state, c) <==> Has(s, c) || Evidences(cfg, s, input, c)
  {
    hide IngestFrame, Finish, FrameEvidences, ProcessExited, CleanDisconnected, Proven, CodexControl.AllTame;
    match input {
      case Ingest(frame) => IngestProves(cfg, s, frame, c);
      case CloseWindow => CodexControl.FinishCalm(s);
      case Exit(code, at) => CodexControl.LifecycleCalm(cfg, s, code, at);
      case Disconnect(at) => CodexControl.LifecycleCalm(cfg, s, None, at);
      case _ =>
    }
  }

  // ------------------------------------------------------------------ every run

  /** The input shows, together with those before it, what the capability needs. */
  ghost predicate EvidencedAt(cfg: Config, inputs: seq<Input>, k: nat, c: Capability) {
    && k < |inputs| && Accepted(ReplyAt(cfg, inputs, k))
    && match c {
      case InteractionApproval => exists id, m :: Asks(inputs[k], id, m)
      case TurnPrompt => exists id :: Responds(inputs[k], id) && OpenCall(inputs, k, id, "thread/start")
      case StateToolLifecycle => exists id :: Responds(inputs[k], id) && OpenCall(inputs, k, id, "thread/start")
      case LiveObserve =>
        && cfg.evidence == ObservedInTraffic
        && exists id :: Responds(inputs[k], id) && OpenCall(inputs, k, id, "thread/start")
      case LiveControl =>
        exists id, command ::
          && Responds(inputs[k], id) && !inputs[k].frame.hasError && OpenCall(inputs, k, id, "turn/start")
          && OpenOrder(cfg, inputs, k, id, command)
      case _ => false
    }
  }

  lemma EvidencedNow(cfg: Config, inputs: seq<Input>, k: nat, c: Capability)
    requires k < |inputs|
    ensures EvidencedAt(cfg, inputs, k, c) <==> Evidences(cfg, At(cfg, inputs, k), inputs[k], c)
  {
    hide Step, Execute, OpenCall, OpenOrder, DecodeApproval;
    var s := At(cfg, inputs, k);
    forall id
      ensures (id in s.calls.client && s.calls.client[id].ThreadStart?) <==> OpenCall(inputs, k, id, "thread/start")
      ensures (id in s.calls.client && s.calls.client[id].TurnStart?) <==> OpenCall(inputs, k, id, "turn/start")
      ensures id in s.calls.control <==> exists command :: OpenOrder(cfg, inputs, k, id, command)
    {
      StartsATurn(cfg, inputs, k, id);
      CallsAreOpen(cfg, inputs, k, id, ThreadStart);
      assert forall m :: Names(m, ThreadStart) <==> m == "thread/start";
      forall command
        ensures (id in s.calls.control && s.calls.control[id] == command) <==> OpenOrder(cfg, inputs, k, id, command)
      {
        OrdersAreOpen(cfg, inputs, k, id, command);
      }
      if id in s.calls.control { assert OpenOrder(cfg, inputs, k, id, s.calls.control[id]); }
    }
  }

  /** A capability is proven exactly if an accepted input so far was evidence for it. */
  lemma {:induction false} ProvenExactly(cfg: Config, inputs: seq<Input>, n: nat, c: Capability)
    requires n <= |inputs|
    ensures Has(At(cfg, inputs, n), c) <==> exists k | 0 <= k < n :: EvidencedAt(cfg, inputs, k, c)
  {
    hide Step, Execute, EvidencedAt, Evidences, Kept;
    if n == 0 {
      AtStart(cfg, inputs);
    } else {
      var k := n - 1;
      ProvenExactly(cfg, inputs, k, c);
      AtNext(cfg, inputs, k);
      ProvenAlways(cfg, inputs, k);
      KeptAlways(cfg, inputs, k);
      KeptMints(At(cfg, inputs, k));
      StepProves(cfg, At(cfg, inputs, k), inputs[k], c);
      EvidencedNow(cfg, inputs, k, c);
    }
  }
}
