/**
 The client's and the server's request identifiers are two independent name spaces: renaming each by
 its own injective map leaves every reply of the Codex reducer unchanged, however they overlap.
 */
module CodexRename {
  import opened Prelude
  import opened StringOrder
  import opened Canonical
  import opened Capability
  import opened CodexWire
  import opened CodexBindings
  import opened CodexStep
  import opened CodexRun
  import CodexJoin

  ghost predicate Injective(f: int -> int) {
    forall a, b :: f(a) == f(b) ==> a == b
  }

  // ------------------------------------------------------------------ renaming

  /** Renames the keys of a map. */
  ghost function Rekey<V>(f: int -> int, m: map<int, V>): map<int, V>
    requires Injective(f)
  {
    map k | k in m :: f(k) := m[k]
  }

  ghost function RenameState(f: int -> int, g: int -> int, s: State): State
    requires Injective(f) && Injective(g)
  {
    Swap(s, Calls(Rekey(f, s.calls.client), Rekey(f, s.calls.control)), Rekey(g, s.approvals.pending))
  }

  /** A frame's identifier is the client's when the client calls or is answered, else the server's. */
  predicate ClientOwned(frame: Frame) {
    (frame.direction == ClientToServer) == frame.method_.Some?
  }

  function RenameFrame(f: int -> int, g: int -> int, frame: Frame): Frame {
    if frame.id.None? then frame
    else frame.(id := Some(if ClientOwned(frame) then f(frame.id.value) else g(frame.id.value)))
  }

  function RenameInput(f: int -> int, g: int -> int, input: Input): Input {
    match input
    case Ingest(frame) => Ingest(RenameFrame(f, g, frame))
    case RegisterTurnStart(id, command) => RegisterTurnStart(f(id), command)
    case CancelTurnStart(id) => CancelTurnStart(f(id))
    case _ => input
  }

  function RenameInputs(f: int -> int, g: int -> int, inputs: seq<Input>): (renamed: seq<Input>)
    ensures |renamed| == |inputs|
  {
    seq(|inputs|, i requires 0 <= i < |inputs| => RenameInput(f, g, inputs[i]))
  }

  lemma RekeyLooksUp<V>(f: int -> int, m: map<int, V>, k: int)
    requires Injective(f)
    ensures k in m <==> f(k) in Rekey(f, m)
    ensures k in m ==> Rekey(f, m)[f(k)] == m[k]
  {
  }

  lemma RekeyRemoves<V>(f: int -> int, m: map<int, V>, k: int)
    requires Injective(f)
    ensures Rekey(f, m - {k}) == Rekey(f, m) - {f(k)}
  {
  }

  lemma RekeyUpdates<V>(f: int -> int, m: map<int, V>, k: int, v: V)
    requires Injective(f)
    ensures Rekey(f, m[k := v]) == Rekey(f, m)[f(k) := v]
  {
    var lhs, rhs := Rekey(f, m[k := v]), Rekey(f, m)[f(k) := v];
    forall x ensures x in lhs <==> x in rhs {
      if x in rhs && x != f(k) {
        var y :| y in m && f(y) == x;
        assert y in m[k := v];
      }
      if x in lhs {
        var y :| y in m[k := v] && f(y) == x;
        assert y == k || y in m;
      }
      assert k in m[k := v];
    }
  }

  lemma RekeyHolds<V>(f: int -> int, m: map<int, V>, v: V)
    requires Injective(f)
    ensures (exists k :: k in m && m[k] == v) <==> (exists x :: x in Rekey(f, m) && Rekey(f, m)[x] == v)
  {
    if k :| k in m && m[k] == v {
      RekeyLooksUp(f, m, k);
    }
  }

  lemma RekeyHoldsApproval(g: int -> int, m: map<int, PendingApproval>, id: AttentionId)
    requires Injective(g)
    ensures
      (exists k :: k in m && m[k].attention == id) <==> (exists x :: x in Rekey(g, m) && Rekey(g, m)[x].attention == id)
  {
    if k :| k in m && m[k].attention == id {
      RekeyLooksUp(g, m, k);
    }
  }

  // ------------------------------------------------------------------ reducers that read no identifiers

  /** The state with other identifier tables. */
  function Swap(s: State, calls: Calls, pending: map<int, PendingApproval>): State {
    s.(calls := calls, approvals := s.approvals.(pending := pending))
  }

  function SwapOutcome(o: Outcome, calls: Calls, pending: map<int, PendingApproval>): Outcome {
    Outcome(Swap(o.state, calls, pending), o.result)
  }

  function SwapEmission(e: Emission, calls: Calls, pending: map<int, PendingApproval>): Emission {
    Emission(Swap(e.state, calls, pending), e.effects)
  }

  lemma FinishIgnores(s: State, c: Calls, p: map<int, PendingApproval>)
    ensures Finish(Swap(s, c, p)) == SwapEmission(Finish(s), c, p)
  {
  }

  lemma OpenTurnIgnores(cfg: Config, s: State, f: Fields, at: int, c: Calls, p: map<int, PendingApproval>)
    ensures ReduceTurnTransition(cfg, Swap(s, c, p), false, f, at)
         == SwapOutcome(ReduceTurnTransition(cfg, s, false, f, at), c, p)
  {
    hide Finish, DecodeTurnNotice, TurnStatusOf, NoteTurn;
    var m := DecodeTurnNotice(f);
    if m.Ok? && m.value.thread in s.bindings.sessions && TurnStatusOf(m.value.status, TurnNotificationStatus).Ok? {
      var session := s.bindings.sessions[m.value.thread].id;
      var b := s.bindings.BindTurn(cfg.runtime, m.value.turn, session);
      NoteTurnIgnores(cfg, s.(bindings := b), m.value, session, b.turns[m.value.turn],
                      TurnStatusOf(m.value.status, TurnNotificationStatus).value, at, c, p);
    }
  }

  lemma NoteTurnIgnores(cfg: Config, s: State, m: TurnNotice, session: SessionId, binding: TurnBinding,
                        status: TurnStatus, at: int, c: Calls, p: map<int, PendingApproval>)
    ensures NoteTurn(cfg, Swap(s, c, p), m, session, binding, status, at)
         == SwapEmission(NoteTurn(cfg, s, m, session, binding, status, at), c, p)
  {
    hide RecordFor, TurnFor;
  }

  lemma TurnTransitionIgnores(cfg: Config, s: State, completed: bool, f: Fields, at: int, c: Calls,
                              p: map<int, PendingApproval>)
    ensures ReduceTurnTransition(cfg, Swap(s, c, p), completed, f, at)
         == SwapOutcome(ReduceTurnTransition(cfg, s, completed, f, at), c, p)
  {
    hide ReduceTurnTransition, Finish;
    OpenTurnIgnores(cfg, s, f, at, c, p);
    if completed {
      CodexJoin.TurnCompletedCloses(cfg, s, f, at);
      CodexJoin.TurnCompletedCloses(cfg, Swap(s, c, p), f, at);
      FinishIgnores(ReduceTurnTransition(cfg, s, false, f, at).state, c, p);
    }
  }

  lemma StoreDecodedIgnores(cfg: Config, s: State, m: ItemNotice, decoded: DecodedBody, c: Calls,
                            p: map<int, PendingApproval>)
    requires m.thread in s.bindings.sessions
    ensures StoreDecoded(cfg, Swap(s, c, p), m, decoded) == SwapEmission(StoreDecoded(cfg, s, m, decoded), c, p)
  {
  }

  lemma StoreItemIgnores(cfg: Config, s: State, m: ItemNotice, started: bool, f: Fields, c: Calls,
                         p: map<int, PendingApproval>)
    requires m.thread in s.bindings.sessions
    ensures StoreItem(cfg, Swap(s, c, p), m, started, f) == SwapOutcome(StoreItem(cfg, s, m, started, f), c, p)
  {
    hide StoreDecoded, DecodeBody, ItemBindings, SequenceAfter;
    var b := ItemBindings(cfg.runtime, s.bindings, m);
    var decoded := DecodeBody(f, m.kind, b.items[m.item].id, started, s.items.agentText);
    if decoded.Ok? {
      StoreDecodedIgnores(cfg, s, m, decoded.value, c, p);
    }
  }

  lemma ItemIgnores(cfg: Config, s: State, started: bool, f: Fields, at: int, c: Calls, p: map<int, PendingApproval>)
    ensures ReduceItem(cfg, Swap(s, c, p), started, f, at) == SwapOutcome(ReduceItem(cfg, s, started, f, at), c, p)
  {
    hide StoreItem, DecodeItemNotice, Decodable;
    var m := DecodeItemNotice(f, started);
    if m.Ok? && m.value.thread in s.bindings.sessions {
      StoreItemIgnores(cfg, s, m.value, started, f, c, p);
    }
  }

  lemma DeltaIgnores(s: State, f: Fields, at: int, c: Calls, p: map<int, PendingApproval>)
    ensures ReduceDelta(Swap(s, c, p), f, at) == SwapOutcome(ReduceDelta(s, f, at), c, p)
  {
    hide DecodeDelta;
  }

  lemma StatusIgnores(s: State, f: Fields, at: int, c: Calls, p: map<int, PendingApproval>)
    ensures ReduceStatusChanged(Swap(s, c, p), f, at) == SwapOutcome(ReduceStatusChanged(s, f, at), c, p)
    ensures ReduceThreadStarted(Swap(s, c, p), f) == SwapOutcome(ReduceThreadStarted(s, f), c, p)
  {
    hide ReduceStatusChanged, ReduceThreadStarted, Swap;
    StatusSwaps(s, f, at, c, p);
    ThreadStartedSwaps(s, f, c, p);
  }

  lemma StatusSwaps(s: State, f: Fields, at: int, c: Calls, p: map<int, PendingApproval>)
    ensures ReduceStatusChanged(Swap(s, c, p), f, at) == SwapOutcome(ReduceStatusChanged(s, f, at), c, p)
  {
    hide ReadText, SessionStatusOf, Touch;
  }

  lemma ThreadStartedSwaps(s: State, f: Fields, c: Calls, p: map<int, PendingApproval>)
    ensures ReduceThreadStarted(Swap(s, c, p), f) == SwapOutcome(ReduceThreadStarted(s, f), c, p)
  {
    hide ReadText;
  }

  lemma NotificationIgnores(cfg: Config, s: State, m: string, f: Fields, at: int, c: Calls,
                            p: map<int, PendingApproval>)
    ensures ReduceNotification(cfg, Swap(s, c, p), m, f, at) == SwapOutcome(ReduceNotification(cfg, s, m, f, at), c, p)
  {
    hide ReduceTurnTransition, ReduceItem, ReduceDelta, ReduceStatusChanged, ReduceThreadStarted;
    if m == "turn/started" || m == "turn/completed" {
      TurnTransitionIgnores(cfg, s, m == "turn/completed", f, at, c, p);
    } else if m == "item/started" || m == "item/completed" {
      ItemIgnores(cfg, s, m == "item/started", f, at, c, p);
    } else if m == "item/agentMessage/delta" {
      DeltaIgnores(s, f, at, c, p);
    } else {
      StatusIgnores(s, f, at, c, p);
    }
  }

  lemma BootstrapSessionIgnores(cfg: Config, s: State, f: Fields, at: int, c: Calls, p: map<int, PendingApproval>)
    ensures BootstrapSession(cfg, Swap(s, c, p), f, at) == SwapOutcome(BootstrapSession(cfg, s, f, at), c, p)
  {
    hide ReadText, ProveSession;
  }

  lemma TurnCreatedIgnores(cfg: Config, s: State, f: Fields, at: int, origin: TurnOrigin, c: Calls,
                           p: map<int, PendingApproval>)
    ensures ReduceTurnCreated(cfg, Swap(s, c, p), f, at, origin) ==
      SwapOutcome(ReduceTurnCreated(cfg, s, f, at, origin), c, p)
  {
    hide DecodeTurnCreated;
  }

  lemma AcceptanceIgnores(cfg: Config, s: State, command: CommandId, at: int, c: Calls, p: map<int, PendingApproval>)
    ensures RuntimeAcceptance(cfg, Swap(s, c, p), command, at) ==
      SwapOutcome(RuntimeAcceptance(cfg, s, command, at), c, p)
  {
  }

  // ------------------------------------------------------------------ reducers that read identifiers

  ghost function RenameOutcome(f: int -> int, g: int -> int, o: Outcome): Outcome
    requires Injective(f) && Injective(g)
  {
    Outcome(RenameState(f, g, o.state), o.result)
  }

  /** The renamed identifier tables of a state. */
  ghost function RenameCalls(f: int -> int, calls: Calls): Calls
    requires Injective(f)
  {
    Calls(Rekey(f, calls.client), Rekey(f, calls.control))
  }

  lemma TurnCreatedKeepsTables(cfg: Config, s: State, f: Fields, at: int, origin: TurnOrigin)
    ensures
      var s' := ReduceTurnCreated(cfg, s, f, at, origin).state;
      s'.calls == s.calls && s'.approvals == s.approvals
  {
    hide DecodeTurnCreated;
  }

  lemma AcceptanceKeepsTables(cfg: Config, s: State, command: CommandId, at: int)
    ensures
      var s' := RuntimeAcceptance(cfg, s, command, at).state;
      s'.calls == s.calls && s'.approvals == s.approvals
  {
  }

  lemma BootstrapSessionKeepsTables(cfg: Config, s: State, f: Fields, at: int)
    ensures
      var s' := BootstrapSession(cfg, s, f, at).state;
      s'.calls == s.calls && s'.approvals == s.approvals
  {
    hide ReadText, ProveSession;
  }

  lemma TurnResponseRenames(cfg: Config, s: State, id: int, frame: Frame, frame': Frame, at: int, f: int -> int,
                            g: int -> int)
    requires Injective(f) && Injective(g)
    requires frame'.hasError == frame.hasError && frame'.fields == frame.fields
    ensures ReduceTurnResponse(cfg, RenameState(f, g, s), f(id), frame', at)
         == RenameOutcome(f, g, ReduceTurnResponse(cfg, s, id, frame, at))
  {
    hide ReduceTurnCreated, RuntimeAcceptance, Rekey;
    var control := s.calls.control;
    var s1 := s.(calls := s.calls.(control := control - {id}));
    RekeyLooksUp(f, control, id);
    RekeyRemoves(f, control, id);
    var origin := if id in control then RemoteCommand(control[id]) else cfg.turnOrigin;
    var created := ReduceTurnCreated(cfg, s1, frame.fields, at, origin);
    var c, p := RenameCalls(f, s1.calls), Rekey(g, s.approvals.pending);
    TurnCreatedKeepsTables(cfg, s1, frame.fields, at, origin);
    TurnCreatedIgnores(cfg, s1, frame.fields, at, origin, c, p);
    if id in control {
      AcceptanceKeepsTables(cfg, created.state, control[id], at);
      AcceptanceIgnores(cfg, created.state, control[id], at, c, p);
    }
  }

  lemma ClientResponseRenames(cfg: Config, s: State, id: int, frame: Frame, frame': Frame, at: int, f: int -> int,
                              g: int -> int)
    requires Injective(f) && Injective(g)
    requires frame'.hasError == frame.hasError && frame'.fields == frame.fields
    ensures ReduceClientResponse(cfg, RenameState(f, g, s), f(id), frame', at)
         == RenameOutcome(f, g, ReduceClientResponse(cfg, s, id, frame, at))
  {
    hide BootstrapSession, ReduceTurnResponse, Rekey;
    var s1 := s.(calls := s.calls.(client := s.calls.client - {id}));
    RekeyLooksUp(f, s.calls.client, id);
    RekeyRemoves(f, s.calls.client, id);
    BootstrapSessionKeepsTables(cfg, s1, frame.fields, at);
    BootstrapSessionIgnores(cfg, s1, frame.fields, at, RenameCalls(f, s1.calls), Rekey(g, s.approvals.pending));
    TurnResponseRenames(cfg, s1, id, frame, frame', at, f, g);
  }

  lemma FileApprovalRenames(cfg: Config, s: State, id: int, m: ApprovalNotice, at: int, f: int -> int, g: int -> int)
    requires Injective(f) && Injective(g)
    requires m.thread in s.bindings.sessions
    ensures FileApproval(cfg, RenameState(f, g, s), g(id), m, at) ==
      RenameOutcome(f, g, FileApproval(cfg, s, id, m, at))
  {
    hide Rekey, NewApproval, ApprovalBindings, RecordFor;
    var b := ApprovalBindings(cfg.runtime, s.bindings, m);
    var interaction := b.interactions[Correlation(m.thread, m.turn, m.item, m.startedAt)];
    RekeyUpdates(g, s.approvals.pending, id, PendingApproval(interaction.id, m.item));
  }

  lemma ApprovalReplyRenames(cfg: Config, s: State, id: int, fields: Fields, at: int, f: int -> int, g: int -> int)
    requires Injective(f) && Injective(g)
    ensures ReduceApprovalReply(cfg, RenameState(f, g, s), g(id), fields, at)
         == RenameOutcome(f, g, ReduceApprovalReply(cfg, s, id, fields, at))
  {
    hide Rekey, DecodeDecision, RecordAnswer;
    RekeyLooksUp(g, s.approvals.pending, id);
    RekeyRemoves(g, s.approvals.pending, id);
    if id in s.approvals.pending && DecodeDecision(fields).Ok? {
      var s1 := s.(approvals := s.approvals.(pending := s.approvals.pending - {id}));
      RecordAnswerIgnores(cfg, s1, s.approvals.pending[id].attention, DecodeDecision(fields).value, at,
                          RenameCalls(f, s.calls), Rekey(g, s1.approvals.pending));
    }
  }

  lemma RecordAnswerIgnores(cfg: Config, s: State, id: AttentionId, decision: string, at: int, c: Calls,
                            p: map<int, PendingApproval>)
    ensures RecordAnswer(cfg, Swap(s, c, p), id, decision, at) ==
      SwapOutcome(RecordAnswer(cfg, s, id, decision, at), c, p)
    ensures RecordAnswer(cfg, s, id, decision, at).state.calls == s.calls
    ensures RecordAnswer(cfg, s, id, decision, at).state.approvals.pending == s.approvals.pending
  {
    RecordAnswerSwaps(cfg, s, id, decision, at, c, p);
    RecordAnswerKeepsTables(cfg, s, id, decision, at);
  }

  lemma RecordAnswerSwaps(cfg: Config, s: State, id: AttentionId, decision: string, at: int, c: Calls,
                          p: map<int, PendingApproval>)
    ensures RecordAnswer(cfg, Swap(s, c, p), id, decision, at) ==
      SwapOutcome(RecordAnswer(cfg, s, id, decision, at), c, p)
  {
    hide RecordAnswer, Swap;
    if id in s.approvals.answers {
      LocalAnswerSwaps(cfg, s, id, decision, at, c, p);
    } else {
      OtherAnswerSwaps(cfg, s, id, decision, at, c, p);
    }
  }

  lemma LocalAnswerSwaps(cfg: Config, s: State, id: AttentionId, decision: string, at: int, c: Calls,
                         p: map<int, PendingApproval>)
    requires id in s.approvals.answers
    ensures RecordAnswer(cfg, Swap(s, c, p), id, decision, at) ==
      SwapOutcome(RecordAnswer(cfg, s, id, decision, at), c, p)
  {
    hide ExternalEvidence;
  }

  lemma OtherAnswerSwaps(cfg: Config, s: State, id: AttentionId, decision: string, at: int, c: Calls,
                         p: map<int, PendingApproval>)
    requires id !in s.approvals.answers
    ensures RecordAnswer(cfg, Swap(s, c, p), id, decision, at) ==
      SwapOutcome(RecordAnswer(cfg, s, id, decision, at), c, p)
  {
    hide ExternalEvidence;
  }

  lemma RecordAnswerKeepsTables(cfg: Config, s: State, id: AttentionId, decision: string, at: int)
    ensures RecordAnswer(cfg, s, id, decision, at).state.calls == s.calls
    ensures RecordAnswer(cfg, s, id, decision, at).state.approvals.pending == s.approvals.pending
  {
    hide ExternalEvidence;
  }

  lemma NotificationKeepsTables(cfg: Config, s: State, m: string, f: Fields, at: int)
    ensures
      var s' := ReduceNotification(cfg, s, m, f, at).state;
      s'.calls == s.calls && s'.approvals.pending == s.approvals.pending
  {
    hide ReduceNotification;
    assert Swap(s, s.calls, s.approvals.pending) == s;
    NotificationIgnores(cfg, s, m, f, at, s.calls, s.approvals.pending);
  }

  // ------------------------------------------------------------------ frames, inputs and runs

  lemma DispatchRenames(cfg: Config, s: State, frame: Frame, at: int, f: int -> int, g: int -> int)
    requires Injective(f) && Injective(g)
    ensures Dispatch(cfg, RenameState(f, g, s), RenameFrame(f, g, frame), at)
         == RenameOutcome(f, g, Dispatch(cfg, s, frame, at))
  {
    hide ReduceNotification, ReduceClientResponse, FileApproval, ReduceApprovalReply, Rekey, DecodeApproval;
    var frame' := RenameFrame(f, g, frame);
    if frame.direction == ClientToServer {
      if frame.id.Some? {
        if frame.method_.Some? {
          RekeyUpdates(f, s.calls.client, frame.id.value, ClientCallOf(frame.method_.value));
        } else {
          ApprovalReplyRenames(cfg, s, frame.id.value, frame.fields, at, f, g);
        }
      }
    } else if frame.method_.Some? {
      if frame.id.Some? && frame.method_.value == APPROVAL_METHOD {
        var m := DecodeApproval(frame.fields);
        if m.Ok? && m.value.thread in s.bindings.sessions {
          FileApprovalRenames(cfg, s, frame.id.value, m.value, at, f, g);
        }
      } else {
        NotificationKeepsTables(cfg, s, frame.method_.value, frame.fields, at);
        NotificationIgnores(cfg, s, frame.method_.value, frame.fields, at, RenameCalls(f, s.calls),
          Rekey(g, s.approvals.pending));
      }
    } else if frame.id.Some? {
      ClientResponseRenames(cfg, s, frame.id.value, frame, frame', at, f, g);
    }
  }

  lemma IngestRenames(cfg: Config, s: State, frame: Frame, f: int -> int, g: int -> int)
    requires Injective(f) && Injective(g)
    ensures IngestFrame(cfg, RenameState(f, g, s), RenameFrame(f, g, frame))
         == RenameOutcome(f, g, IngestFrame(cfg, s, frame))
  {
    hide Dispatch, Rekey, Publish, Bootstrap;
    var at := Saturate(cfg.baseAt + frame.offset);
    var s1 := s.(live := s.live.(probe := s.live.probe.Advance(at)));
    BootstrapRenames(s1, at, f, g);
    var t := Bootstrap(s1, at).state;
    DispatchRenames(cfg, t, frame, at, f, g);
    var reduced := Dispatch(cfg, t, frame, at);
    if reduced.result.Ok? { PublishRenames(reduced.state, reduced.result.value, f, g); }
  }

  lemma BootstrapRenames(s: State, at: int, f: int -> int, g: int -> int)
    requires Injective(f) && Injective(g)
    ensures
      var e := Bootstrap(s, at);
      Bootstrap(RenameState(f, g, s), at) == Emission(RenameState(f, g, e.state), e.effects)
  {
    hide Rekey;
  }

  lemma PublishRenames(s: State, effects: seq<Effect>, f: int -> int, g: int -> int)
    requires Injective(f) && Injective(g)
    ensures
      var e := Publish(s, effects);
      Publish(RenameState(f, g, s), effects) == Emission(RenameState(f, g, e.state), e.effects)
  {
    hide Rekey, Place;
  }

  lemma StepRenames(cfg: Config, s: State, input: Input, f: int -> int, g: int -> int)
    requires Injective(f) && Injective(g)
    ensures
      var r := Step(cfg, s, input);
      Step(cfg, RenameState(f, g, s), RenameInput(f, g, input)) == StepResult(RenameState(f, g, r.state), r.reply)
  {
    hide IngestFrame, Finish, Rekey;
    match input
    case Ingest(frame) => IngestRenames(cfg, s, frame, f, g);
    case RegisterTurnStart(id, command) =>
      RekeyLooksUp(f, s.calls.control, id);
      RekeyUpdates(f, s.calls.control, id, command);
      RekeyHolds(f, s.calls.control, command);
    case CancelTurnStart(id) => RekeyRemoves(f, s.calls.control, id);
    case RegisterAnswer(id, command, option) => RekeyHoldsApproval(g, s.approvals.pending, id);
    case CloseWindow =>
      FinishIgnores(s, RenameCalls(f, s.calls), Rekey(g, s.approvals.pending));
      FinishKeepsTables(s);
    case _ =>
  }

  lemma FinishKeepsTables(s: State)
    ensures Finish(s).state.calls == s.calls && Finish(s).state.approvals == s.approvals
  {
  }

  /** Every reply of a run, effects and errors alike, is independent of how the two spaces are named. */
  lemma {:induction false} RenamingIsInvisible(cfg: Config, inputs: seq<Input>, f: int -> int, g: int -> int)
    requires Injective(f) && Injective(g)
    ensures Execute(cfg, RenameInputs(f, g, inputs)).replies == Execute(cfg, inputs).replies
    ensures Execute(cfg, RenameInputs(f, g, inputs)).stream == Execute(cfg, inputs).stream
    ensures Execute(cfg, RenameInputs(f, g, inputs)).state == RenameState(f, g, Execute(cfg, inputs).state)
  {
    hide Step;
    var renamed := RenameInputs(f, g, inputs);
    if inputs == [] {
      assert renamed == [];
    } else {
      var front, last := inputs[..|inputs| - 1], inputs[|inputs| - 1];
      assert renamed[..|renamed| - 1] == RenameInputs(f, g, front);
      RenamingIsInvisible(cfg, front, f, g);
      StepRenames(cfg, Execute(cfg, front).state, last, f, g);
    }
  }
}
