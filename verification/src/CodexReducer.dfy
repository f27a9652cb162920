/**
 The Codex reducer as an object (crates/kaleido-adapter-codex/src/reduce.rs): its fields are updated
 in place, frame by frame. Each method's new state and reply are those of the step function, so
 everything proved of runs of the step function holds of this object.
 */
module CodexReducer {
  import opened Prelude
  import opened StringOrder
  import opened Canonical
  import opened Capability
  import opened CodexWire
  import opened CodexBindings
  import opened CodexStep
  import opened CodexRun

  class Reducer {
    const cfg: Config
    const bindings: BindingStore
    const probe: CapabilityProbe
    var clientCalls: map<int, ClientCall>
    var localControl: map<int, CommandId>
    var pendingApprovals: map<int, PendingApproval>
    var localAnswers: map<AttentionId, PendingAnswer>
    var locallyAnswered: set<AttentionId>
    var rawThread: Option<string>
    var sessionId: Option<SessionId>
    var session: Option<Session>
    var published: seq<Capability>
    var currentTurn: Option<TurnId>
    var turnOrigins: map<TurnId, TurnOrigin>
    var nextSequence: nat
    var agentText: map<ItemId, string>
    var items: map<ItemId, Item>
    var attention: Attention
    var attentionByRawItem: Index
    var diagnostics: Diagnostics
    var bootstrapped: bool
    var ended: bool

    /** The object's state as a value. */
    function View(): State
      reads this, bindings, probe
    {
      State(bindings.View(), Calls(clientCalls, localControl),
            Approvals(pendingApprovals, localAnswers, locallyAnswered),
            Live(rawThread, sessionId, session, probe.View(), published), Turns(currentTurn, turnOrigins),
            Items(nextSequence, agentText, items), Entries(attention, attentionByRawItem), diagnostics, bootstrapped,
            ended)
    }

    constructor (cfg: Config)
      ensures this.cfg == cfg && View() == Initial(cfg)
      ensures fresh(bindings) && fresh(probe)
    {
      this.cfg := cfg;
      bindings := new BindingStore();
      probe := new CapabilityProbe(cfg.runtime, cfg.baseAt, cfg.evidence);
      clientCalls, localControl, pendingApprovals := map[], map[], map[];
      localAnswers, locallyAnswered := map[], {};
      rawThread, sessionId, session, published := None, None, None, [];
      currentTurn, turnOrigins := None, map[];
      nextSequence, agentText, items := 0, map[], map[];
      attention, attentionByRawItem, diagnostics := map[], map[], map[];
      bootstrapped, ended := false, false;
    }

    // ---------------------------------------------------------------- local calls

    /** The least open request identifier of an approval. */
    method ApprovalRequestId(id: AttentionId) returns (found: Option<int>)
      ensures found.None? <==> !exists r :: r in pendingApprovals && pendingApprovals[r].attention == id
      ensures found.Some? ==>
        && found.value in pendingApprovals && pendingApprovals[found.value].attention == id
        && forall r | r in pendingApprovals && pendingApprovals[r].attention == id :: found.value <= r
    {
      var remaining := pendingApprovals.Keys;
      while remaining != {}
        invariant remaining <= pendingApprovals.Keys
        invariant forall r | r in pendingApprovals && r !in remaining :: pendingApprovals[r].attention != id
        decreases remaining
      {
        var r := LeastInt(remaining);
        if pendingApprovals[r].attention == id {
          return Some(r);
        }
        remaining := remaining - {r};
      }
      return None;
    }

    method RegisterLocalAttentionAnswer(id: AttentionId, command: CommandId, option: string) returns (accepted: bool)
      modifies this`localAnswers
      ensures StepResult(View(), Registered(accepted)) == Step(cfg, old(View()), RegisterAnswer(id, command, option))
    {
      var request := ApprovalRequestId(id);
      if command == "" || option == "" || request.None? || id in localAnswers {
        return false;
      }
      localAnswers := localAnswers[id := PendingAnswer(command, option)];
      return true;
    }

    method ForgetLocalAttentionAnswer(id: AttentionId)
      modifies this`localAnswers
      ensures View() == Step(cfg, old(View()), ForgetAnswer(id)).state
    {
      localAnswers := localAnswers - {id};
    }

    method RegisterLocalTurnStart(requestId: int, command: CommandId) returns (accepted: bool)
      modifies this`localControl
      ensures StepResult(View(), Registered(accepted)) == Step(cfg, old(View()), RegisterTurnStart(requestId, command))
    {
      if cfg.evidence != ObservedInTraffic || command == "" || requestId in localControl
         || (exists r :: r in localControl && localControl[r] == command)
      {
        return false;
      }
      localControl := localControl[requestId := command];
      return true;
    }

    method CancelLocalTurnStart(requestId: int)
      modifies this`localControl
      ensures View() == Step(cfg, old(View()), CancelTurnStart(requestId)).state
    {
      localControl := localControl - {requestId};
    }

    // ---------------------------------------------------------------- lifecycle

    method RuntimeEndedSession(at: int) returns (ended: Option<Session>)
      ensures ended == if session.Some? then Some(EndedSession(session.value, at)) else None
    {
      ended := session;
      if ended.Some? {
        var s := ended.value;
        s := s.(status := Offline, liveBinding := NotBound(RuntimeExited));
        s := s.(updatedAt := Max(s.updatedAt, at), lastActivityAt := Max(s.lastActivityAt, at));
        ended := Some(s);
      }
    }

    /** Records an unexpected child-process exit, once. */
    method ProcessExit(exitCode: Option<int>, at: int) returns (effects: seq<Effect>)
      modifies this
      ensures Emission(View(), effects) == ProcessExited(cfg, old(View()), exitCode, at)
    {
      if ended {
        return [];
      }
      effects := [RuntimeUpserted(Unavailable(exitCode, at), probe.View().ToCapabilities())];
      var over := RuntimeEndedSession(at);
      if over.Some? {
        effects := effects + [SessionUpserted(over.value)];
        effects := effects + [AttentionUpserted(AttentionItem(
          FaultAttention(cfg.runtime, over.value.id), Some(over.value.id), None,
          ConnectionFault(cfg.runtime, exitCode), Open, at))];
      }
      session := over;
      ended := true;
    }

    /** Records an intentional transport shutdown, once. */
    method Disconnected(at: int) returns (effects: seq<Effect>)
      modifies this
      ensures Emission(View(), effects) == CleanDisconnected(old(View()), at)
    {
      if ended {
        return [];
      }
      effects := [RuntimeUpserted(ConnectionState.Disconnected, probe.View().ToCapabilities())];
      var over := RuntimeEndedSession(at);
      if over.Some? {
        effects := effects + [SessionUpserted(over.value)];
      }
      session := over;
      ended := true;
    }

    // ---------------------------------------------------------------- diagnostics

    method AggregateDiagnostic(code: DiagnosticCode, scope: Option<SessionId>, detail: Option<ContentRef>, at: int)
      returns (effect: Effect)
      modifies this`diagnostics
      ensures Emission(View(), [effect]) == Diagnose(old(View()), code, scope, detail, at)
    {
      var key := DiagnosticKey(code, detail.Some?);
      if key in diagnostics {
        var record := diagnostics[key];
        record := record.(lastAt := at, count := if record.count < U64_MAX then record.count + 1 else record.count);
        diagnostics := diagnostics[key := record];
      } else {
        diagnostics := diagnostics[key := DiagnosticRecord(scope, code, 1, at, at, detail)];
      }
      effect := DiagnosticRecorded(diagnostics[key]);
    }
  
    // ---------------------------------------------------------------- client responses

    method ProveSessionCapabilities()
      modifies probe
      ensures probe.View() == ProveSession(cfg, old(probe.View()))
    {
      probe.Prove(TurnPrompt);
      probe.Prove(StateToolLifecycle);
      if cfg.evidence == ObservedInTraffic {
        probe.Prove(LiveObserve);
      }
    }

    method EstablishSessionFor(thread: string, root: string, at: int) returns (effects: seq<Effect>)
      modifies this, bindings, probe
      ensures Emission(View(), effects) == EstablishSession(cfg, old(View()), thread, root, at)
    {
      hide ProveSession, NewSession;
      var binding := bindings.BindSession(cfg.runtime, thread);
      rawThread := Some(thread);
      sessionId := Some(binding.id);
      ProveSessionCapabilities();
      published := probe.proven;
      var created := NewSession(cfg, binding, at);
      session := Some(created);
      effects := [CapabilitiesUpdated(probe.View().ToCapabilities()),
                  ProjectUpserted(ContentRef(FilePath, root), at),
                  SessionUpserted(created)];
    }

    method BootstrapSessionFrom(f: Fields, at: int) returns (result: Result<seq<Effect>, CodexError>)
      modifies this, bindings, probe
      ensures Outcome(View(), result) == BootstrapSession(cfg, old(View()), f, at)
    {
      hide ReadText, EstablishSession;
      var thread := ReadText(f, SessionThreadId);
      if thread.Err? {
        return Err(thread.error);
      }
      var root := ReadText(f, SessionProjectRoot);
      if root.Err? {
        return Err(root.error);
      }
      var effects := EstablishSessionFor(thread.value, root.value, at);
      return Ok(effects);
    }

    method TurnCreatedFrom(f: Fields, at: int, origin: TurnOrigin) returns (result: Result<seq<Effect>, CodexError>)
      modifies this, bindings
      ensures Outcome(View(), result) == ReduceTurnCreated(cfg, old(View()), f, at, origin)
    {
      hide DecodeTurnCreated;
      var m := DecodeTurnCreated(f);
      if m.Err? {
        return Err(m.error);
      }
      if sessionId.None? {
        return Err(UnknownSession);
      }
      var binding := bindings.BindTurn(cfg.runtime, m.value.turn, sessionId.value);
      currentTurn := Some(binding.id);
      turnOrigins := turnOrigins[binding.id := origin];
      return Ok([TurnUpserted(Turn(binding.id, sessionId.value, m.value.status, origin, None,
                                   TerminalTimestamp(m.value.status, at), None, binding.handle))]);
    }

    method RuntimeAcceptanceEffects(command: CommandId, at: int) returns (result: Result<seq<Effect>, CodexError>)
      modifies this, probe
      ensures Outcome(View(), result) == RuntimeAcceptance(cfg, old(View()), command, at)
    {
      if session.None? || !session.value.liveBinding.IsLive() || session.value.liveBinding.runtime != cfg.runtime {
        return Err(ControlEvidenceUnavailable);
      }
      var controlling := session.value;
      var since := controlling.liveBinding.since;
      var outcome := Acknowledgement(cfg, controlling.id, command);
      var accepted := probe.ObserveRuntimeAcceptance(outcome);
      if !accepted {
        return Err(ControlEvidenceUnavailable);
      }
      var ack := CommandAcknowledged(command, outcome, at);
      if controlling.liveBinding.Controlling? {
        return Ok([ack]);
      }
      controlling := controlling.(liveBinding := Controlling(cfg.runtime, since, Evidence(ObservedInTraffic, at)));
      controlling := controlling.(updatedAt := Max(controlling.updatedAt, at),
                                  lastActivityAt := Max(controlling.lastActivityAt, at));
      session := Some(controlling);
      return Ok([ack, SessionUpserted(controlling)]);
    }

    method TurnResponse(id: int, frame: Frame, at: int) returns (result: Result<seq<Effect>, CodexError>)
      modifies this, bindings, probe
      ensures Outcome(View(), result) == ReduceTurnResponse(cfg, old(View()), id, frame, at)
    {
      hide ReduceTurnCreated, RuntimeAcceptance;
      var command := if id in localControl then Some(localControl[id]) else None;
      localControl := localControl - {id};
      if frame.hasError {
        return Ok(if command.Some? then [CommandAcknowledged(command.value, Rejected(at), at)] else []);
      }
      var origin := if command.Some? then RemoteCommand(command.value) else cfg.turnOrigin;
      result := TurnCreatedFrom(frame.fields, at, origin);
      if result.Ok? && command.Some? {
        var accepted := RuntimeAcceptanceEffects(command.value, at);
        result := if accepted.Ok? then Ok(result.value + accepted.value) else accepted;
      }
    }

    method ClientResponse(id: int, frame: Frame, at: int) returns (result: Result<seq<Effect>, CodexError>)
      modifies this, bindings, probe
      ensures Outcome(View(), result) == ReduceClientResponse(cfg, old(View()), id, frame, at)
    {
      hide BootstrapSession, ReduceTurnResponse;
      var call := if id in clientCalls then Some(clientCalls[id]) else None;
      clientCalls := clientCalls - {id};
      if call == Some(ThreadStart) {
        result := BootstrapSessionFrom(frame.fields, at);
      } else if call == Some(TurnStart) {
        result := TurnResponse(id, frame, at);
      } else {
        result := Ok([]);
      }
    }

    // ---------------------------------------------------------------- notifications

    method ThreadStarted(f: Fields) returns (result: Result<seq<Effect>, CodexError>)
      ensures Outcome(View(), result) == ReduceThreadStarted(View(), f)
    {
      var thread := ReadText(f, SessionStartedThreadId);
      if thread.Err? {
        return Err(thread.error);
      }
      if thread.value !in bindings.sessions {
        return Err(UnknownSession);
      }
      return Ok([]);
    }

    method StatusChanged(f: Fields, at: int) returns (result: Result<seq<Effect>, CodexError>)
      modifies this`session
      ensures Outcome(View(), result) == ReduceStatusChanged(old(View()), f, at)
    {
      hide ReadText, SessionStatusOf;
      var thread := ReadText(f, ThreadStatusThreadId);
      if thread.Err? {
        return Err(thread.error);
      }
      var raw := ReadText(f, ThreadStatusType);
      if raw.Err? {
        return Err(raw.error);
      }
      if thread.value !in bindings.sessions {
        return Err(UnknownSession);
      }
      var status := SessionStatusOf(raw.value);
      if status.Err? {
        return Err(status.error);
      }
      if session.Some? {
        var touched := session.value.(status := status.value);
        touched := touched.(updatedAt := Max(touched.updatedAt, at), lastActivityAt := Max(touched.lastActivityAt, at));
        session := Some(touched);
      }
      return Ok([SessionStatusChanged(bindings.sessions[thread.value].id, status.value)]);
    }
  
    /** One approval still waiting becomes a structured failure, unless it is gone. */
    method CloseOne(id: AttentionId) returns (effects: seq<Effect>)
      modifies this`attention, this`diagnostics
      ensures id !in old(attention) ==> effects == [] && attention == old(attention) && diagnostics == old(diagnostics)
      ensures id in old(attention) ==>
        var entry := old(attention)[id];
        var record := RecordFor(old(diagnostics), JoinFailed, sessionId, None, entry.createdAt);
        && attention == old(attention)[id := Closed(entry)]
        && diagnostics == old(diagnostics)[DiagnosticKey(JoinFailed, false) := record]
        && effects == (if id in locallyAnswered then [] else [AttentionUpserted(Closed(entry))])
          + [DiagnosticRecorded(record)]
    {
      effects := [];
      if id in attention {
        var entry := attention[id];
        var updated := if entry.subject.Approval? then WithJoin(entry, Unjoined(ItemUnknown)) else entry;
        attention := attention[id := updated];
        if id !in locallyAnswered {
          effects := [AttentionUpserted(updated)];
        }
        var note := AggregateDiagnostic(JoinFailed, sessionId, None, entry.createdAt);
        effects := effects + [note];
      }
    }

    /** Closes the observation window: every approval still waiting becomes a structured failure. */
    method CloseWindow() returns (effects: seq<Effect>)
      modifies this`attention, this`diagnostics
      ensures Emission(View(), effects) == Finish(old(View()))
    {
      hide Unresolved;
      effects := [];
      var unresolved := Unresolved(attention);
      ghost var entries, notes := attention, diagnostics;
      for i := 0 to |unresolved|
        invariant attention == ClosedAttention(entries, unresolved[..i])
        invariant diagnostics == ClosedDiagnostics(entries, notes, sessionId, unresolved[..i])
        invariant effects == ClosingEffects(entries, notes, sessionId, locallyAnswered, unresolved[..i])
      {
        var id := unresolved[i];
        assert unresolved[..i + 1][..i] == unresolved[..i];
        ClosedAgain(entries, unresolved[..i], id);
        var more := CloseOne(id);
        effects := effects + more;
      }
      assert unresolved[..|unresolved|] == unresolved;
    }

    method NoteTurnFrom(m: TurnNotice, scope: SessionId, binding: TurnBinding, status: TurnStatus, at: int)
      returns (effects: seq<Effect>)
      modifies this
      ensures Emission(View(), effects) == NoteTurn(cfg, old(View()), m, scope, binding, status, at)
    {
      var origin := if binding.id in turnOrigins then turnOrigins[binding.id] else cfg.turnOrigin;
      turnOrigins := turnOrigins[binding.id := origin];
      currentTurn := if status.IsTerminal() then None else Some(binding.id);
      effects := [TurnUpserted(Turn(
        binding.id, scope, status, origin,
        if m.startedAt.Some? then Some(SecondsToMillis(m.startedAt.value)) else None,
        if m.completedAt.Some? then Some(SecondsToMillis(m.completedAt.value)) else TerminalTimestamp(status, at),
        if status == TurnFailed then Some(at) else None,
        binding.handle))];
      if m.hasError && status != TurnFailed {
        var note := AggregateDiagnostic(MalformedProviderMessage, Some(scope), None, at);
        effects := effects + [note];
      }
    }

    method TurnTransition(completed: bool, f: Fields, at: int) returns (result: Result<seq<Effect>, CodexError>)
      modifies this, bindings
      ensures Outcome(View(), result) == ReduceTurnTransition(cfg, old(View()), completed, f, at)
    {
      hide DecodeTurnNotice, TurnStatusOf, NoteTurn, Finish;
      var m := DecodeTurnNotice(f);
      if m.Err? {
        return Err(m.error);
      }
      if m.value.thread !in bindings.sessions {
        return Err(UnknownSession);
      }
      var scope := bindings.sessions[m.value.thread].id;
      var binding := bindings.BindTurn(cfg.runtime, m.value.turn, scope);
      var status := TurnStatusOf(m.value.status, TurnNotificationStatus);
      if status.Err? {
        return Err(status.error);
      }
      var effects := NoteTurnFrom(m.value, scope, binding, status.value, at);
      if completed {
        var closing := CloseWindow();
        effects := effects + closing;
      }
      return Ok(effects);
    }

    // ---------------------------------------------------------------- items

    /** Re-examines the approvals filed under an item that has just been stored. */
    method UpgradeJoinsOf(raw: string) returns (effects: seq<Effect>)
      modifies this`attention
      ensures Emission(View(), effects) == UpgradeJoins(old(View()), raw)
    {
      effects := [];
      var ids := FiledUnder(attentionByRawItem, raw);
      ghost var entries := attention;
      for i := 0 to |ids|
        invariant attention == UpgradedAttention(bindings.View(), items, raw, entries, ids[..i])
        invariant effects == UpgradeEffects(bindings.View(), items, raw, entries, locallyAnswered, ids[..i])
      {
        var id := ids[i];
        assert ids[..i + 1][..i] == ids[..i];
        if id !in attention || !JoinDeferredIn(attention[id]) || attention[id].session.None?
          || attention[id].turn.None? {
          continue;
        }
        var entry := attention[id];
        var target := entry.subject.request.target;
        var join := JoinFor(bindings.View(), raw, entry.session.value, entry.turn.value, target);
        var summary := ContentRef(StructuredSummary, Summarise(items, target, join));
        var updated := entry.(subject := Approval(entry.subject.request.(join := join, summary := summary)));
        attention := attention[id := updated];
        if id !in locallyAnswered {
          effects := effects + [AttentionUpserted(updated)];
        }
      }
      assert ids[..|ids|] == ids;
    }
  
    /** A known item keeps its number and creation time; a new one takes the next number. */
    method NumberAndStore(m: ItemNotice, binding: ItemBinding, scope: SessionId, turn: TurnId, decoded: DecodedBody)
      returns (item: Item)
      requires m.turn in bindings.turns && bindings.turns[m.turn].id == turn
      requires m.item in bindings.items && bindings.items[m.item] == binding
      modifies this`items, this`agentText, this`nextSequence
      ensures item == ItemFor(old(View()).items, bindings.View(), m, scope, decoded)
      ensures View() == old(View()).(items :=
        Items(SequenceAfter(old(View()).items, item.id), decoded.agentText, old(items)[item.id := item]))
    {
      var known := binding.id in items;
      var sequence := nextSequence;
      if known {
        sequence := items[binding.id].sequence;
      } else if nextSequence < U64_MAX {
        nextSequence := nextSequence + 1;
      }
      var createdAt := if known then items[binding.id].createdAt else m.observedAt;
      item := Item(binding.id, scope, turn, sequence, decoded.status, decoded.body, createdAt, m.observedAt,
        binding.handle);
      agentText := decoded.agentText;
      items := items[binding.id := item];
    }

    method StoreBoundItem(m: ItemNotice, binding: ItemBinding, scope: SessionId, turn: TurnId, decoded: DecodedBody)
      returns (effects: seq<Effect>)
      requires m.turn in bindings.turns && bindings.turns[m.turn].id == turn
      requires m.item in bindings.items && bindings.items[m.item] == binding
      modifies this`items, this`agentText, this`nextSequence, this`attention
      ensures Emission(View(), effects) == StoreBound(old(View()), m, scope, decoded)
    {
      hide UpgradeJoins, ItemFor, SequenceAfter;
      var item := NumberAndStore(m, binding, scope, turn, decoded);
      effects := UpgradeJoinsOf(m.item);
      effects := [ItemUpserted(item)] + effects;
    }

    /** An item is bound in its turn, both for the session of its thread. */
    method BindItemScope(m: ItemNotice) returns (turn: TurnBinding, binding: ItemBinding)
      requires m.thread in bindings.sessions
      modifies bindings
      ensures bindings.View() == ItemBindings(cfg.runtime, old(bindings.View()), m)
      ensures m.turn in bindings.turns && turn == bindings.turns[m.turn]
      ensures m.item in bindings.items && binding == bindings.items[m.item]
    {
      hide Bindings.Extends, Bindings.Minted;
      var scope := bindings.sessions[m.thread].id;
      turn := bindings.BindTurn(cfg.runtime, m.turn, scope);
      binding := bindings.BindItem(cfg.runtime, m.item, scope, turn.id);
    }

    /** The item is bound and numbered before its body is decoded. */
    method StoreItemFrom(m: ItemNotice, started: bool, f: Fields) returns (result: Result<seq<Effect>, CodexError>)
      requires m.thread in bindings.sessions
      modifies this, bindings
      ensures Outcome(View(), result) == StoreItem(cfg, old(View()), m, started, f)
    {
      hide DecodeBody, StoreBound, ItemBindings;
      var scope := bindings.sessions[m.thread].id;
      var turn, binding := BindItemScope(m);
      var decoded := DecodeBody(f, m.kind, binding.id, started, agentText);
      if decoded.Err? {
        if binding.id !in items && nextSequence < U64_MAX {
          nextSequence := nextSequence + 1;
        }
        return Err(decoded.error);
      }
      var effects := StoreBoundItem(m, binding, scope, turn.id, decoded.value);
      return Ok(effects);
    }

    method ItemTransition(started: bool, f: Fields, at: int) returns (result: Result<seq<Effect>, CodexError>)
      modifies this, bindings
      ensures Outcome(View(), result) == ReduceItem(cfg, old(View()), started, f, at)
    {
      hide DecodeItemNotice, StoreItem, Decodable;
      var m := DecodeItemNotice(f, started);
      if m.Err? {
        return Err(m.error);
      }
      if m.value.thread !in bindings.sessions {
        return Err(UnknownSession);
      }
      if !Decodable(m.value.kind) {
        var scope := bindings.sessions[m.value.thread].id;
        var _ := bindings.BindTurn(cfg.runtime, m.value.turn, scope);
        var note := AggregateDiagnostic(UnknownUpstreamLabel, Some(scope),
          Some(ContentRef(StructuredSummary, m.value.kind)), at);
        return Ok([note]);
      }
      result := StoreItemFrom(m.value, started, f);
    }

    method DeltaReceived(f: Fields, at: int) returns (result: Result<seq<Effect>, CodexError>)
      modifies this
      ensures Outcome(View(), result) == ReduceDelta(old(View()), f, at)
    {
      hide DecodeDelta, RecordFor;
      var m := DecodeDelta(f);
      if m.Err? {
        return Err(m.error);
      }
      if m.value.thread !in bindings.sessions {
        return Err(UnknownSession);
      }
      if m.value.item !in bindings.items || bindings.items[m.value.item].id !in items
         || !items[bindings.items[m.value.item].id].body.AgentMessage?
      {
        var note := AggregateDiagnostic(MalformedProviderMessage, sessionId, None, at);
        return Ok([note]);
      }
      var id := bindings.items[m.value.item].id;
      var existing := items[id];
      var accumulated := if id in agentText then agentText[id] else "";
      accumulated := accumulated + m.value.fragment;
      agentText := agentText[id := accumulated];
      var updated := existing.(body := AgentMessage(ContentRef(Markdown, accumulated), existing.body.phase),
        updatedAt := at);
      items := items[id := updated];
      return Ok([ItemUpserted(updated)]);
    }

    // ---------------------------------------------------------------- approvals

    method IndexEntry(raw: string, entry: AttentionItem)
      modifies this`attention, this`attentionByRawItem
      ensures View() == old(View()).(attention :=
        Entries(old(attention)[entry.id := entry], IndexWith(old(attentionByRawItem), raw, entry.id)))
    {
      attention := attention[entry.id := entry];
      var filed := if raw in attentionByRawItem then attentionByRawItem[raw] else [];
      attentionByRawItem := attentionByRawItem[raw := filed + [entry.id]];
    }

    method FileNewEntry(requestId: int, raw: string, entry: AttentionItem)
      modifies this`attention, this`attentionByRawItem, this`pendingApprovals, probe
      ensures View() == FileEntry(old(View()), requestId, raw, entry)
    {
      hide IndexWith;
      IndexEntry(raw, entry);
      pendingApprovals := pendingApprovals[requestId := PendingApproval(entry.id, raw)];
      probe.Prove(InteractionApproval);
    }

    method FileApprovalRequest(requestId: int, m: ApprovalNotice, at: int)
      returns (result: Result<seq<Effect>, CodexError>)
      requires m.thread in bindings.sessions
      modifies this, bindings, probe
      ensures Outcome(View(), result) == FileApproval(cfg, old(View()), requestId, m, at)
    {
      hide NewApproval, RecordFor, Correlation, FileEntry;
      var scope := bindings.sessions[m.thread].id;
      var turn := bindings.BindTurn(cfg.runtime, m.turn, scope);
      var correlation := Correlation(m.thread, m.turn, m.item, m.startedAt);
      var interaction := bindings.BindInteraction(cfg.runtime, correlation);
      assert bindings.View() == ApprovalBindings(cfg.runtime, old(bindings.View()), m);
      var entry := NewApproval(cfg, bindings.View(), items, m, scope, turn.id, interaction);
      FileNewEntry(requestId, m.item, entry);
      var effects := [AttentionUpserted(entry)];
      if entry.subject.request.join.Unjoined? {
        var note := AggregateDiagnostic(JoinDeferred, Some(scope), None, at);
        effects := effects + [note];
      }
      return Ok(effects);
    }

    method RecordAnswerOf(id: AttentionId, decision: string, at: int) returns (result: Result<seq<Effect>, CodexError>)
      modifies this
      ensures Outcome(View(), result) == RecordAnswer(cfg, old(View()), id, decision, at)
    {
      hide ExternalEvidence;
      var answer := if id in localAnswers then Some(localAnswers[id]) else None;
      localAnswers := localAnswers - {id};
      if answer.Some? && answer.value.option != decision {
        return Err(LocalAttentionAnswerMismatch);
      }
      var source;
      if answer.Some? {
        source := LocalCommand(answer.value.command);
      } else {
        var evidence := ExternalEvidence(cfg);
        if evidence.Err? {
          return Err(evidence.error);
        }
        source := ObservedExternal(at, evidence.value);
      }
      if id !in attention {
        return Ok([]);
      }
      var updated := attention[id].(state := Answered(decision, at, source));
      attention := attention[id := updated];
      if answer.Some? {
        locallyAnswered := locallyAnswered + {id};
      }
      return Ok([AttentionUpserted(updated)]);
    }

    method ApprovalReply(requestId: int, f: Fields, at: int) returns (result: Result<seq<Effect>, CodexError>)
      modifies this
      ensures Outcome(View(), result) == ReduceApprovalReply(cfg, old(View()), requestId, f, at)
    {
      hide DecodeDecision, RecordAnswer;
      if requestId !in pendingApprovals {
        return Ok([]);
      }
      var pending := pendingApprovals[requestId];
      pendingApprovals := pendingApprovals - {requestId};
      var decision := DecodeDecision(f);
      if decision.Err? {
        return Err(decision.error);
      }
      result := RecordAnswerOf(pending.attention, decision.value, at);
    }

    // ---------------------------------------------------------------- frames

    method Notification(m: string, f: Fields, at: int) returns (result: Result<seq<Effect>, CodexError>)
      modifies this, bindings
      ensures Outcome(View(), result) == ReduceNotification(cfg, old(View()), m, f, at)
    {
      hide ReduceThreadStarted, ReduceStatusChanged, ReduceTurnTransition, ReduceItem, ReduceDelta, RecordFor;
      if m == "thread/started" {
        result := ThreadStarted(f);
      } else if m == "thread/status/changed" {
        result := StatusChanged(f, at);
      } else if m == "turn/started" || m == "turn/completed" {
        result := TurnTransition(m == "turn/completed", f, at);
      } else if m == "item/started" || m == "item/completed" {
        result := ItemTransition(m == "item/started", f, at);
      } else if m == "item/agentMessage/delta" {
        result := DeltaReceived(f, at);
      } else {
        var note := AggregateDiagnostic(UnknownUpstreamMessage, sessionId, None, at);
        result := Ok([note]);
      }
    }

    method DispatchFrame(frame: Frame, at: int) returns (result: Result<seq<Effect>, CodexError>)
      modifies this, bindings, probe
      ensures Outcome(View(), result) == Dispatch(cfg, old(View()), frame, at)
    {
      hide ReduceApprovalReply, FileApproval, ReduceNotification, ReduceClientResponse, DecodeApproval, RecordFor;
      match frame.direction
      case ClientToServer =>
        if frame.method_.Some? {
          if frame.id.Some? {
            clientCalls := clientCalls[frame.id.value := ClientCallOf(frame.method_.value)];
          }
          return Ok([]);
        }
        if frame.id.Some? {
          result := ApprovalReply(frame.id.value, frame.fields, at);
        } else {
          result := Ok([]);
        }
      case ServerToClient =>
        if frame.method_.Some? {
          if frame.id.Some? && frame.method_.value == APPROVAL_METHOD {
            var m := DecodeApproval(frame.fields);
            if m.Err? {
              return Err(m.error);
            }
            if m.value.thread !in bindings.sessions {
              return Err(UnknownSession);
            }
            result := FileApprovalRequest(frame.id.value, m.value, at);
          } else {
            result := Notification(frame.method_.value, frame.fields, at);
          }
        } else if frame.id.Some? {
          result := ClientResponse(frame.id.value, frame, at);
        } else {
          var note := AggregateDiagnostic(MalformedProviderMessage, None, None, at);
          result := Ok([note]);
        }
    }

    method EnsureBootstrapped(at: int) returns (effects: seq<Effect>)
      modifies this`bootstrapped
      ensures Emission(View(), effects) == Bootstrap(old(View()), at)
    {
      if bootstrapped {
        return [];
      }
      bootstrapped := true;
      return [HostUpserted(at), RuntimeUpserted(Connected(at), probe.View().ToCapabilities())];
    }

    /** Inserts the capability update before the first effect that promotes a session to controlling. */
    static method InsertCapabilities(effects: seq<Effect>, update: Effect) returns (placed: seq<Effect>)
      ensures placed == Place(effects, update)
    {
      var k := 0;
      while k < |effects| && !PromotesControl(effects[k])
        invariant k <= |effects|
        invariant Place(effects, update) == effects[..k] + Place(effects[k..], update)
      {
        k := k + 1;
      }
      placed := effects[..k] + [update] + effects[k..];
    }

    /** Reduces one frame. */
    method Ingest(frame: Frame) returns (result: Result<seq<Effect>, CodexError>)
      modifies this, bindings, probe
      ensures Outcome(View(), result) == IngestFrame(cfg, old(View()), frame)
    {
      hide Dispatch, Place;
      var at := Saturate(cfg.baseAt + frame.offset);
      probe.AdvanceObservation(at);
      var effects := EnsureBootstrapped(at);
      result := DispatchFrame(frame, at);
      if result.Err? {
        return;
      }
      var frameEffects := result.value;
      if probe.proven != published {
        published := probe.proven;
        frameEffects := InsertCapabilities(frameEffects, CapabilitiesUpdated(probe.View().ToCapabilities()));
      }
      result := Ok(effects + frameEffects);
    }
  
    /** Any one call on the reducer. */
    method Handle(input: Input) returns (reply: Reply)
      modifies this, bindings, probe
      ensures StepResult(View(), reply) == Step(cfg, old(View()), input)
    {
      hide IngestFrame, Finish, ProcessExited, CleanDisconnected, AnswerRegistrable, TurnRegistrable;
      match input
      case Ingest(frame) =>
        var result := Ingest(frame);
        reply := Reduced(result);
      case RegisterTurnStart(id, command) =>
        var accepted := RegisterLocalTurnStart(id, command);
        reply := Registered(accepted);
      case CancelTurnStart(id) =>
        CancelLocalTurnStart(id);
        reply := Registered(true);
      case RegisterAnswer(id, command, option) =>
        var accepted := RegisterLocalAttentionAnswer(id, command, option);
        reply := Registered(accepted);
      case ForgetAnswer(id) =>
        ForgetLocalAttentionAnswer(id);
        reply := Registered(true);
      case CloseWindow =>
        var effects := CloseWindow();
        reply := Reduced(Ok(effects));
      case Exit(code, at) =>
        var effects := ProcessExit(code, at);
        reply := Reduced(Ok(effects));
      case Disconnect(at) =>
        var effects := Disconnected(at);
        reply := Reduced(Ok(effects));
    }
  }

  /** Drives a fresh reducer through any inputs: its state and replies are those of the run. */
  method Replay(cfg: Config, inputs: seq<Input>) returns (reducer: Reducer, replies: seq<Reply>)
    ensures fresh(reducer) && reducer.cfg == cfg
    ensures reducer.View() == Execute(cfg, inputs).state && replies == Execute(cfg, inputs).replies
  {
    hide Step;
    reducer := new Reducer(cfg);
    replies := [];
    for i := 0 to |inputs|
      invariant fresh(reducer) && fresh(reducer.bindings) && fresh(reducer.probe) && reducer.cfg == cfg
      invariant reducer.View() == Execute(cfg, inputs[..i]).state && replies == Execute(cfg, inputs[..i]).replies
    {
      assert inputs[..i + 1][..i] == inputs[..i];
      var reply := reducer.Handle(inputs[i]);
      replies := replies + [reply];
    }
    assert inputs[..|inputs|] == inputs;
  }

  /** Within the closing loop an entry that is met again has already been closed. */
  lemma {:induction false} ClosedAgain(entries: Attention, ids: seq<AttentionId>, id: AttentionId)
    ensures id in ClosedAttention(entries, ids) <==> id in entries
    ensures id in entries ==>
      Closed(ClosedAttention(entries, ids)[id]) == Closed(entries[id])
        && ClosedAttention(entries, ids)[id].createdAt == entries[id].createdAt
  {
    if ids != [] {
      ClosedAgain(entries, ids[..|ids| - 1], id);
    }
  }
}
