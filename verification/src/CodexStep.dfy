/**
 One step of the Codex reducer as a function from state and input to state and outcome
 (crates/kaleido-adapter-codex/src/reduce.rs). A rejected frame keeps whatever it had already
 changed when it was rejected, and its effects are lost. `CodexReducer` is the object that works
 this way in place.
 */
module CodexStep {
  import opened Prelude
  import opened StringOrder
  import opened Canonical
  import opened Capability
  import opened CodexWire
  import opened CodexBindings

  datatype Config = Config(runtime: RuntimeId, evidence: EvidenceSource, turnOrigin: TurnOrigin, baseAt: int)

  datatype Effect =
    | HostUpserted(lastSeenAt: int)
    | RuntimeUpserted(connection: ConnectionState, runtimeCapabilities: RuntimeCapabilities)
    | CapabilitiesUpdated(capabilities: RuntimeCapabilities)
    | ProjectUpserted(root: ContentRef, at: int)
    | SessionUpserted(session: Session)
    | SessionStatusChanged(sessionId: SessionId, status: SessionStatus)
    | TurnUpserted(turn: Turn)
    | ItemUpserted(item: Item)
    | AttentionUpserted(attention: AttentionItem)
    | CommandAcknowledged(command: CommandId, outcome: CommandOutcome, ackedAt: int)
    | DiagnosticRecorded(diagnostic: DiagnosticRecord)

  datatype ClientCall = ThreadStart | TurnStart | Unmodelled

  datatype PendingApproval = PendingApproval(attention: AttentionId, rawItem: string)

  datatype PendingAnswer = PendingAnswer(command: CommandId, option: string)

  datatype DiagnosticKey = DiagnosticKey(code: DiagnosticCode, detailed: bool)

  type Attention = map<AttentionId, AttentionItem>
  type Index = map<string, seq<AttentionId>>
  type Diagnostics = map<DiagnosticKey, DiagnosticRecord>

  /** Client request identifiers: what was called, and which calls carry a broker command. */
  datatype Calls = Calls(client: map<int, ClientCall>, control: map<int, CommandId>)

  /** Server request identifiers of open approvals, and the broker answers registered for them. */
  datatype Approvals = Approvals(
    pending: map<int, PendingApproval>, answers: map<AttentionId, PendingAnswer>, locallyAnswered: set<AttentionId>)

  datatype Live = Live(
    rawThread: Option<string>, sessionId: Option<SessionId>, session: Option<Session>,
    probe: ProbeState, published: seq<Capability>)

  datatype Turns = Turns(current: Option<TurnId>, origins: map<TurnId, TurnOrigin>)

  datatype Items = Items(nextSequence: nat, agentText: map<ItemId, string>, stored: map<ItemId, Item>)

  datatype Entries = Entries(stored: Attention, byRawItem: Index)

  datatype State = State(
    bindings: Bindings,
    calls: Calls,
    approvals: Approvals,
    live: Live,
    turns: Turns,
    items: Items,
    attention: Entries,
    diagnostics: Diagnostics,
    bootstrapped: bool,
    ended: bool)

  function Initial(cfg: Config): State {
    State(NoBindings, Calls(map[], map[]), Approvals(map[], map[], {}),
          Live(None, None, None, ProbeState(cfg.runtime, cfg.baseAt, [], map[], cfg.evidence), []),
          Turns(None, map[]), Items(0, map[], map[]), Entries(map[], map[]), map[], false, false)
  }

  datatype Outcome = Outcome(state: State, result: Result<seq<Effect>, CodexError>)

  function Done(s: State, effects: seq<Effect>): Outcome { Outcome(s, Ok(effects)) }
  function Fail(s: State, e: CodexError): Outcome { Outcome(s, Err(e)) }

  /** The effects of a reduction, or nothing when it was rejected. */
  function Said(o: Outcome): seq<Effect> { if o.result.Ok? then o.result.value else [] }

  /** A state change that cannot fail, with the effects it emits. */
  datatype Emission = Emission(state: State, effects: seq<Effect>)

  // ------------------------------------------------------------------ diagnostics

  function RecordFor(d: Diagnostics, code: DiagnosticCode, session: Option<SessionId>, detail: Option<ContentRef>,
                     at: int)
    : DiagnosticRecord
  {
    var key := DiagnosticKey(code, detail.Some?);
    if key in d then d[key].(count := if d[key].count < U64_MAX then d[key].count + 1 else d[key].count, lastAt := at)
    else DiagnosticRecord(session, code, 1, at, at, detail)
  }

  function Diagnose(s: State, code: DiagnosticCode, session: Option<SessionId>, detail: Option<ContentRef>, at: int)
    : Emission
  {
    var record := RecordFor(s.diagnostics, code, session, detail, at);
    Emission(s.(diagnostics := s.diagnostics[DiagnosticKey(code, detail.Some?) := record]),
             [DiagnosticRecorded(record)])
  }

  function DiagnoseOnly(s: State, code: DiagnosticCode, session: Option<SessionId>, detail: Option<ContentRef>, at: int)
    : Outcome
  {
    var e := Diagnose(s, code, session, detail, at);
    Done(e.state, e.effects)
  }

  // ------------------------------------------------------------------ approval joins

  function Correlation(thread: string, turn: string, item: string, startedAt: int): string {
    thread + "|" + turn + "|" + item + "|" + IntText(startedAt)
  }

  predicate JoinDeferredIn(entry: AttentionItem) {
    entry.subject.Approval? && entry.subject.request.join == Unjoined(ItemNotYetSeen)
  }

  function JoinFor(b: Bindings, raw: string, session: SessionId, turn: TurnId, target: ItemId): JoinState {
    if raw !in b.items then Unjoined(ItemNotYetSeen)
    else if b.items[raw].session != session || b.items[raw].turn != turn then Unjoined(ScopeMismatch)
    else Joined(target)
  }

  const WAITING_SUMMARY := "approval is waiting for the operation it refers to"

  function Summarise(items: map<ItemId, Item>, target: ItemId, join: JoinState): string {
    if join.Unjoined? || target !in items then WAITING_SUMMARY
    else if items[target].body.FileEdit? then
      "file edit with " + NatText(|items[target].body.changes|) + " change(s)"
    else "operation awaiting approval"
  }

  function WithJoin(entry: AttentionItem, join: JoinState): AttentionItem
    requires entry.subject.Approval?
  {
    entry.(subject := Approval(entry.subject.request.(join := join)))
  }

  function WithJoinAndSummary(entry: AttentionItem, join: JoinState, summary: ContentRef): AttentionItem
    requires entry.subject.Approval?
  {
    entry.(subject := Approval(entry.subject.request.(join := join, summary := summary)))
  }

  /** What the upgrade loop makes of one entry. */
  function Upgraded(b: Bindings, items: map<ItemId, Item>, raw: string, e: AttentionItem): AttentionItem {
    if JoinDeferredIn(e) && e.session.Some? && e.turn.Some? then
      var target := e.subject.request.target;
      var join := JoinFor(b, raw, e.session.value, e.turn.value, target);
      WithJoinAndSummary(e, join, ContentRef(StructuredSummary, Summarise(items, target, join)))
    else e
  }

  predicate Upgradable(attention: Attention, id: AttentionId) {
    id in attention && JoinDeferredIn(attention[id]) && attention[id].session.Some? && attention[id].turn.Some?
  }

  function UpgradedAttention(b: Bindings, items: map<ItemId, Item>, raw: string, attention: Attention,
                             ids: seq<AttentionId>)
    : Attention
  {
    if ids == [] then attention
    else
      var before := UpgradedAttention(b, items, raw, attention, ids[..|ids| - 1]);
      var id := ids[|ids| - 1];
      if Upgradable(before, id) then before[id := Upgraded(b, items, raw, before[id])] else before
  }

  /** The upgrade loop's effects: one refresh per upgraded entry that was not answered locally. */
  function UpgradeEffects(b: Bindings, items: map<ItemId, Item>, raw: string, attention: Attention,
                          local: set<AttentionId>, ids: seq<AttentionId>): seq<Effect>
  {
    if ids == [] then []
    else
      var front := ids[..|ids| - 1];
      var before := UpgradedAttention(b, items, raw, attention, front);
      var id := ids[|ids| - 1];
      UpgradeEffects(b, items, raw, attention, local, front)
      + if Upgradable(before, id) && id !in local then [AttentionUpserted(Upgraded(b, items, raw, before[id]))] else []
  }

  /** The approvals filed under a raw item, in the order they arrived. */
  function FiledUnder(index: Index, raw: string): seq<AttentionId> {
    if raw in index then index[raw] else []
  }

  function UpgradeJoins(s: State, raw: string): Emission {
    var ids := FiledUnder(s.attention.byRawItem, raw);
    var entries := s.attention.stored;
    Emission(s.(attention := s.attention.(stored := UpgradedAttention(s.bindings, s.items.stored, raw, entries, ids))),
             UpgradeEffects(s.bindings, s.items.stored, raw, entries, s.approvals.locallyAnswered, ids))
  }

  /** What the closing loop makes of one entry: a deferred join becomes a structured failure. */
  function Closed(e: AttentionItem): AttentionItem {
    if e.subject.Approval? then WithJoin(e, Unjoined(ItemUnknown)) else e
  }

  function ClosedAttention(attention: Attention, ids: seq<AttentionId>): Attention {
    if ids == [] then attention
    else
      var before := ClosedAttention(attention, ids[..|ids| - 1]);
      var id := ids[|ids| - 1];
      if id in before then before[id := Closed(before[id])] else before
  }

  function ClosedDiagnostics(attention: Attention, d: Diagnostics, session: Option<SessionId>, ids: seq<AttentionId>)
    : Diagnostics
  {
    if ids == [] then d
    else
      var before := ClosedDiagnostics(attention, d, session, ids[..|ids| - 1]);
      var id := ids[|ids| - 1];
      if id in attention
      then
        var record := RecordFor(before, JoinFailed, session, None, attention[id].createdAt);
        before[DiagnosticKey(JoinFailed, false) := record]
      else before
  }

  /** The closing loop's effects: the entry, unless it was answered locally, and one diagnostic. */
  function ClosingEffects(attention: Attention, d: Diagnostics, session: Option<SessionId>,
                          local: set<AttentionId>, ids: seq<AttentionId>): seq<Effect>
  {
    if ids == [] then []
    else
      var front := ids[..|ids| - 1];
      var id := ids[|ids| - 1];
      ClosingEffects(attention, d, session, local, front)
      + if id !in attention then []
        else (if id in local then [] else [AttentionUpserted(Closed(attention[id]))])
             + [DiagnosticRecorded(RecordFor(ClosedDiagnostics(attention, d, session, front),
                                             JoinFailed, session, None, attention[id].createdAt))]
  }

  /** The approvals still waiting for their operation, in the order of their correlation keys. */
  function Unresolved(attention: Attention): seq<AttentionId> {
    var keys := Sorted(set id | id in attention && id.ApprovalAttention?
      && JoinDeferredIn(attention[id]) :: id.correlation);
    seq(|keys|, i requires 0 <= i < |keys| => ApprovalAttention(keys[i]))
  }

  function Finish(s: State): Emission {
    var entries := s.attention.stored;
    var ids := Unresolved(entries);
    Emission(s.(attention := s.attention.(stored := ClosedAttention(entries, ids)),
                diagnostics := ClosedDiagnostics(entries, s.diagnostics, s.live.sessionId, ids)),
             ClosingEffects(entries, s.diagnostics, s.live.sessionId, s.approvals.locallyAnswered, ids))
  }

  // ------------------------------------------------------------------ client responses

  function LiveBindingFor(cfg: Config, at: int): LiveBinding {
    if cfg.evidence == ObservedInTraffic then Observing(cfg.runtime, at, Evidence(cfg.evidence, at))
    else NotBound(NeverStarted)
  }

  function ProveSession(cfg: Config, p: ProbeState): ProbeState {
    var p1 := p.Prove(TurnPrompt).Prove(StateToolLifecycle);
    if cfg.evidence == ObservedInTraffic then p1.Prove(LiveObserve) else p1
  }

  function NewSession(cfg: Config, binding: SessionBinding, at: int): Session {
    Session(binding.id, BrokerLog, Evidence(cfg.evidence, at), LiveBindingFor(cfg, at), Idle, None, at, at, at,
            Some(binding.handle))
  }

  /** Binds the thread, proves what a session proves, and publishes the capabilities before the session. */
  function EstablishSession(cfg: Config, s: State, thread: string, root: string, at: int): Emission {
    var b := s.bindings.BindSession(cfg.runtime, thread);
    var binding := b.sessions[thread];
    var probe := ProveSession(cfg, s.live.probe);
    var session := NewSession(cfg, binding, at);
    Emission(s.(bindings := b, live := Live(Some(thread), Some(binding.id), Some(session), probe, probe.proven)),
             [CapabilitiesUpdated(probe.ToCapabilities()),
              ProjectUpserted(ContentRef(FilePath, root), at),
              SessionUpserted(session)])
  }

  function BootstrapSession(cfg: Config, s: State, f: Fields, at: int): Outcome {
    var thread := ReadText(f, SessionThreadId);
    if thread.Err? then Fail(s, thread.error) else
    var root := ReadText(f, SessionProjectRoot);
    if root.Err? then Fail(s, root.error) else
    var established := EstablishSession(cfg, s, thread.value, root.value, at);
    Done(established.state, established.effects)
  }

  function ReduceTurnCreated(cfg: Config, s: State, f: Fields, at: int, origin: TurnOrigin): Outcome {
    var m := DecodeTurnCreated(f);
    if m.Err? then Fail(s, m.error)
    else if s.live.sessionId.None? then Fail(s, UnknownSession)
    else
      var b := s.bindings.BindTurn(cfg.runtime, m.value.turn, s.live.sessionId.value);
      var binding := b.turns[m.value.turn];
      Done(s.(bindings := b, turns := Turns(Some(binding.id), s.turns.origins[binding.id := origin])),
           [TurnUpserted(Turn(binding.id, s.live.sessionId.value, m.value.status, origin, None,
                              TerminalTimestamp(m.value.status, at), None, binding.handle))])
  }

  function Acknowledgement(cfg: Config, session: SessionId, command: CommandId): CommandOutcome {
    AcceptedByRuntime(session, Handle(cfg.runtime, AcknowledgementHandle, command))
  }

  predicate BoundLiveHere(cfg: Config, session: Option<Session>) {
    session.Some? && session.value.liveBinding.IsLive() && session.value.liveBinding.runtime == cfg.runtime
  }

  function TakeControl(cfg: Config, session: Session, at: int): Session
    requires session.liveBinding.IsLive()
  {
    session.(liveBinding := Controlling(cfg.runtime, session.liveBinding.since, Evidence(ObservedInTraffic, at)),
             updatedAt := Max(session.updatedAt, at),
             lastActivityAt := Max(session.lastActivityAt, at))
  }

  /** A correlated acceptance: acknowledge, and on the first one promote the binding to controlling. */
  function RuntimeAcceptance(cfg: Config, s: State, command: CommandId, at: int): Outcome {
    if !BoundLiveHere(cfg, s.live.session) then Fail(s, ControlEvidenceUnavailable)
    else
      var session := s.live.session.value;
      var outcome := Acknowledgement(cfg, session.id, command);
      var s1 := s.(live := s.live.(probe := s.live.probe.ObserveAcceptance(outcome)));
      if !s.live.probe.AcceptsEvidence(outcome) then Fail(s1, ControlEvidenceUnavailable)
      else
        var ack := CommandAcknowledged(command, outcome, at);
        if session.liveBinding.Controlling? then Done(s1, [ack])
        else
          var controlling := TakeControl(cfg, session, at);
          Done(s1.(live := s1.live.(session := Some(controlling))), [ack, SessionUpserted(controlling)])
  }

  function ReduceTurnResponse(cfg: Config, s: State, id: int, frame: Frame, at: int): Outcome {
    var control := s.calls.control;
    var s1 := s.(calls := s.calls.(control := control - {id}));
    if frame.hasError then
      Done(s1, if id in control then [CommandAcknowledged(control[id], Rejected(at), at)] else [])
    else
      var origin := if id in control then RemoteCommand(control[id]) else cfg.turnOrigin;
      var created := ReduceTurnCreated(cfg, s1, frame.fields, at, origin);
      if created.result.Err? || id !in control then created
      else
        var accepted := RuntimeAcceptance(cfg, created.state, control[id], at);
        if accepted.result.Err? then accepted
        else Done(accepted.state, created.result.value + accepted.result.value)
  }

  function ReduceClientResponse(cfg: Config, s: State, id: int, frame: Frame, at: int): Outcome {
    var s1 := s.(calls := s.calls.(client := s.calls.client - {id}));
    if id !in s.calls.client then Done(s1, [])
    else
      match s.calls.client[id]
      case ThreadStart => BootstrapSession(cfg, s1, frame.fields, at)
      case TurnStart => ReduceTurnResponse(cfg, s1, id, frame, at)
      case Unmodelled => Done(s1, [])
  }

  // ------------------------------------------------------------------ notifications

  function ReduceThreadStarted(s: State, f: Fields): Outcome {
    var thread := ReadText(f, SessionStartedThreadId);
    if thread.Err? then Fail(s, thread.error)
    else if thread.value !in s.bindings.sessions then Fail(s, UnknownSession)
    else Done(s, [])
  }

  function Touch(session: Session, status: SessionStatus, at: int): Session {
    session.(status := status, updatedAt := Max(session.updatedAt, at),
      lastActivityAt := Max(session.lastActivityAt, at))
  }

  function ReduceStatusChanged(s: State, f: Fields, at: int): Outcome {
    var thread := ReadText(f, ThreadStatusThreadId);
    if thread.Err? then Fail(s, thread.error) else
    var raw := ReadText(f, ThreadStatusType);
    if raw.Err? then Fail(s, raw.error)
    else if thread.value !in s.bindings.sessions then Fail(s, UnknownSession)
    else
      var status := SessionStatusOf(raw.value);
      if status.Err? then Fail(s, status.error)
      else
        Done(s.(live := s.live.(session :=
               if s.live.session.Some? then Some(Touch(s.live.session.value, status.value, at)) else None)),
             [SessionStatusChanged(s.bindings.sessions[thread.value].id, status.value)])
  }

  function OriginOf(cfg: Config, turns: Turns, id: TurnId): TurnOrigin {
    if id in turns.origins then turns.origins[id] else cfg.turnOrigin
  }

  function TurnFor(cfg: Config, turns: Turns, binding: TurnBinding, m: TurnNotice, session: SessionId,
                   status: TurnStatus, at: int)
    : Turn
  {
    Turn(binding.id, session, status, OriginOf(cfg, turns, binding.id),
         if m.startedAt.Some? then Some(SecondsToMillis(m.startedAt.value)) else None,
         if m.completedAt.Some? then Some(SecondsToMillis(m.completedAt.value)) else TerminalTimestamp(status, at),
         if status == TurnFailed then Some(at) else None,
         binding.handle)
  }

  /** Records a turn notification, and a diagnostic when it attaches failure detail to a turn that did not fail. */
  function NoteTurn(cfg: Config, s: State, m: TurnNotice, session: SessionId, binding: TurnBinding, status: TurnStatus,
                    at: int)
    : Emission
  {
    var turn := TurnFor(cfg, s.turns, binding, m, session, status, at);
    var current := if status.IsTerminal() then None else Some(turn.id);
    var s1 := s.(turns := Turns(current, s.turns.origins[turn.id := turn.origin]));
    if m.hasError && status != TurnFailed then
      var note := Diagnose(s1, MalformedProviderMessage, Some(session), None, at);
      Emission(note.state, [TurnUpserted(turn)] + note.effects)
    else Emission(s1, [TurnUpserted(turn)])
  }

  /** The turn is bound before its status label is decoded. */
  function ReduceTurnTransition(cfg: Config, s: State, completed: bool, f: Fields, at: int): Outcome {
    var m := DecodeTurnNotice(f);
    if m.Err? then Fail(s, m.error)
    else if m.value.thread !in s.bindings.sessions then Fail(s, UnknownSession)
    else
      var session := s.bindings.sessions[m.value.thread].id;
      var b := s.bindings.BindTurn(cfg.runtime, m.value.turn, session);
      var s1 := s.(bindings := b);
      var status := TurnStatusOf(m.value.status, TurnNotificationStatus);
      if status.Err? then Fail(s1, status.error)
      else
        var noted := NoteTurn(cfg, s1, m.value, session, b.turns[m.value.turn], status.value, at);
        if completed then Done(Finish(noted.state).state, noted.effects + Finish(noted.state).effects)
        else Done(noted.state, noted.effects)
  }

  // ------------------------------------------------------------------ items

  function NextAfter(n: nat): nat { if n < U64_MAX then n + 1 else n }

  /** The bindings an item notification leaves behind. */
  function ItemBindings(rt: RuntimeId, b: Bindings, m: ItemNotice): (b': Bindings)
    requires m.thread in b.sessions
    ensures m.turn in b'.turns && m.item in b'.items
  {
    var session := b.sessions[m.thread].id;
    var b1 := b.BindTurn(rt, m.turn, session);
    b1.BindItem(rt, m.item, session, b1.turns[m.turn].id)
  }

  /** A known item keeps its sequence number and creation time. */
  function ItemFor(items: Items, b: Bindings, m: ItemNotice, session: SessionId, decoded: DecodedBody): Item
    requires m.turn in b.turns && m.item in b.items
  {
    var binding := b.items[m.item];
    var known := binding.id in items.stored;
    Item(binding.id, session, b.turns[m.turn].id,
         if known then items.stored[binding.id].sequence else items.nextSequence,
         decoded.status, decoded.body,
         if known then items.stored[binding.id].createdAt else m.observedAt,
         m.observedAt, binding.handle)
  }

  function SequenceAfter(items: Items, id: ItemId): nat {
    if id in items.stored then items.nextSequence else NextAfter(items.nextSequence)
  }

  /** Stores a decoded item, already bound, and re-examines the approvals waiting for it. */
  function StoreBound(s: State, m: ItemNotice, session: SessionId, decoded: DecodedBody): Emission
    requires m.turn in s.bindings.turns && m.item in s.bindings.items
  {
    var item := ItemFor(s.items, s.bindings, m, session, decoded);
    var items := Items(SequenceAfter(s.items, item.id), decoded.agentText, s.items.stored[item.id := item]);
    var upgraded := UpgradeJoins(s.(items := items), m.item);
    Emission(upgraded.state, [ItemUpserted(item)] + upgraded.effects)
  }

  function StoreDecoded(cfg: Config, s: State, m: ItemNotice, decoded: DecodedBody): Emission
    requires m.thread in s.bindings.sessions
  {
    StoreBound(s.(bindings := ItemBindings(cfg.runtime, s.bindings, m)), m, s.bindings.sessions[m.thread].id, decoded)
  }

  /** A body that does not decode is rejected after the item has been bound and numbered. */
  function StoreItem(cfg: Config, s: State, m: ItemNotice, started: bool, f: Fields): Outcome
    requires m.thread in s.bindings.sessions
  {
    var b := ItemBindings(cfg.runtime, s.bindings, m);
    var id := b.items[m.item].id;
    var decoded := DecodeBody(f, m.kind, id, started, s.items.agentText);
    if decoded.Err? then
      Fail(s.(bindings := b, items := s.items.(nextSequence := SequenceAfter(s.items, id))), decoded.error)
    else
      var stored := StoreDecoded(cfg, s, m, decoded.value);
      Done(stored.state, stored.effects)
  }

  function ReduceItem(cfg: Config, s: State, started: bool, f: Fields, at: int): Outcome {
    var m := DecodeItemNotice(f, started);
    if m.Err? then Fail(s, m.error)
    else if m.value.thread !in s.bindings.sessions then Fail(s, UnknownSession)
    else if !Decodable(m.value.kind) then
      var session := s.bindings.sessions[m.value.thread].id;
      DiagnoseOnly(s.(bindings := s.bindings.BindTurn(cfg.runtime, m.value.turn, session)),
                   UnknownUpstreamLabel, Some(session), Some(ContentRef(StructuredSummary, m.value.kind)), at)
    else StoreItem(cfg, s, m.value, started, f)
  }

  function ReduceDelta(s: State, f: Fields, at: int): Outcome {
    var m := DecodeDelta(f);
    if m.Err? then Fail(s, m.error)
    else if m.value.thread !in s.bindings.sessions then Fail(s, UnknownSession)
    else if m.value.item !in s.bindings.items
         || s.bindings.items[m.value.item].id !in s.items.stored
         || !s.items.stored[s.bindings.items[m.value.item].id].body.AgentMessage?
    then DiagnoseOnly(s, MalformedProviderMessage, s.live.sessionId, None, at)
    else
      var id := s.bindings.items[m.value.item].id;
      var existing := s.items.stored[id];
      var text := (if id in s.items.agentText then s.items.agentText[id] else "") + m.value.fragment;
      var updated := existing.(body := AgentMessage(ContentRef(Markdown, text), existing.body.phase), updatedAt := at);
      Done(s.(items := s.items.(agentText := s.items.agentText[id := text], stored := s.items.stored[id := updated])),
           [ItemUpserted(updated)])
  }

  // ------------------------------------------------------------------ approvals

  function NewApproval(cfg: Config, b: Bindings, items: map<ItemId, Item>, m: ApprovalNotice,
                       session: SessionId, turn: TurnId, interaction: InteractionBinding): (entry: AttentionItem)
    ensures entry.subject.Approval? && entry.id == interaction.id
  {
    var target := ItemId(m.item);
    var join := JoinFor(b, m.item, session, turn, target);
    AttentionItem(
      interaction.id, Some(session), Some(turn),
      Approval(ApprovalRequest(
        Correlation(m.thread, m.turn, m.item, m.startedAt), target, join,
        ContentRef(StructuredSummary, Summarise(items, target, join)),
        if m.reason.Some? then Some(ContentRef(PlainText, m.reason.value)) else None,
        interaction.handle)),
      Open, m.startedAt)
  }

  function IndexWith(index: map<string, seq<AttentionId>>, raw: string,
                     id: AttentionId): map<string, seq<AttentionId>> {
    index[raw := FiledUnder(index, raw) + [id]]
  }

  /** The bindings an approval request leaves behind. */
  function ApprovalBindings(rt: RuntimeId, b: Bindings, m: ApprovalNotice): (b': Bindings)
    requires m.thread in b.sessions
    ensures m.turn in b'.turns && Correlation(m.thread, m.turn, m.item, m.startedAt) in b'.interactions
  {
    b.BindTurn(rt, m.turn, b.sessions[m.thread].id).BindInteraction(rt,
      Correlation(m.thread, m.turn, m.item, m.startedAt))
  }

  /** Files a new entry: stored, indexed under its raw item, and open under its request identifier. */
  function FileEntry(s: State, requestId: int, raw: string, entry: AttentionItem): State {
    s.(attention := Entries(s.attention.stored[entry.id := entry], IndexWith(s.attention.byRawItem, raw, entry.id)),
       approvals := s.approvals.(pending := s.approvals.pending[requestId := PendingApproval(entry.id, raw)]),
       live := s.live.(probe := s.live.probe.Prove(InteractionApproval)))
  }

  function FileApproval(cfg: Config, s: State, requestId: int, m: ApprovalNotice, at: int): Outcome
    requires m.thread in s.bindings.sessions
  {
    var session := s.bindings.sessions[m.thread].id;
    var b := ApprovalBindings(cfg.runtime, s.bindings, m);
    var interaction := b.interactions[Correlation(m.thread, m.turn, m.item, m.startedAt)];
    var entry := NewApproval(cfg, b, s.items.stored, m, session, b.turns[m.turn].id, interaction);
    var filed := FileEntry(s.(bindings := b), requestId, m.item, entry);
    if entry.subject.request.join.Unjoined? then
      var note := Diagnose(filed, JoinDeferred, Some(session), None, at);
      Done(note.state, [AttentionUpserted(entry)] + note.effects)
    else Done(filed, [AttentionUpserted(entry)])
  }

  function ReduceApprovalRequest(cfg: Config, s: State, requestId: int, f: Fields, at: int): Outcome {
    var m := DecodeApproval(f);
    if m.Err? then Fail(s, m.error)
    else if m.value.thread !in s.bindings.sessions then Fail(s, UnknownSession)
    else FileApproval(cfg, s, requestId, m.value, at)
  }

  function ExternalEvidence(cfg: Config): Result<EvidenceSource, CodexError> {
    if cfg.evidence == ObservedInTraffic || cfg.evidence == RecordedFixture then Ok(cfg.evidence)
    else Err(InvalidExternalAnswerEvidence)
  }

  /** Records a decision, attributing it to the broker command registered for it, if any. */
  function RecordAnswer(cfg: Config, s: State, id: AttentionId, decision: string, at: int): Outcome {
    var answers := s.approvals.answers;
    var s1 := s.(approvals := s.approvals.(answers := answers - {id}));
    if id in answers && answers[id].option != decision then Fail(s1, LocalAttentionAnswerMismatch)
    else if id !in answers && ExternalEvidence(cfg).Err? then Fail(s1, ExternalEvidence(cfg).error)
    else if id !in s.attention.stored then Done(s1, [])
    else
      var source := if id in answers then LocalCommand(answers[id].command)
                    else ObservedExternal(at, ExternalEvidence(cfg).value);
      var updated := s.attention.stored[id].(state := Answered(decision, at, source));
      var local := if id in answers then s.approvals.locallyAnswered + {id} else s.approvals.locallyAnswered;
      Done(s1.(attention := s.attention.(stored := s.attention.stored[id := updated]),
               approvals := s1.approvals.(locallyAnswered := local)),
           [AttentionUpserted(updated)])
  }

  function ReduceApprovalReply(cfg: Config, s: State, requestId: int, f: Fields, at: int): Outcome {
    if requestId !in s.approvals.pending then Done(s, [])
    else
      var s1 := s.(approvals := s.approvals.(pending := s.approvals.pending - {requestId}));
      var decision := DecodeDecision(f);
      if decision.Err? then Fail(s1, decision.error)
      else RecordAnswer(cfg, s1, s.approvals.pending[requestId].attention, decision.value, at)
  }

  // ------------------------------------------------------------------ frames

  function ClientCallOf(m: string): ClientCall {
    if m == "thread/start" then ThreadStart else if m == "turn/start" then TurnStart else Unmodelled
  }

  function ReduceNotification(cfg: Config, s: State, m: string, f: Fields, at: int): Outcome {
    if m == "thread/started" then ReduceThreadStarted(s, f)
    else if m == "thread/status/changed" then ReduceStatusChanged(s, f, at)
    else if m == "turn/started" || m == "turn/completed" then ReduceTurnTransition(cfg, s, m == "turn/completed", f, at)
    else if m == "item/started" || m == "item/completed" then ReduceItem(cfg, s, m == "item/started", f, at)
    else if m == "item/agentMessage/delta" then ReduceDelta(s, f, at)
    else DiagnoseOnly(s, UnknownUpstreamMessage, s.live.sessionId, None, at)
  }

  function Dispatch(cfg: Config, s: State, frame: Frame, at: int): Outcome {
    if frame.direction == ClientToServer then
      if frame.method_.Some? then
        Done(if frame.id.Some?
             then s.(calls := s.calls.(client := s.calls.client[frame.id.value := ClientCallOf(frame.method_.value)]))
             else s, [])
      else if frame.id.Some? then ReduceApprovalReply(cfg, s, frame.id.value, frame.fields, at)
      else Done(s, [])
    else
      if frame.method_.Some? then
        if frame.id.Some? && frame.method_.value == APPROVAL_METHOD
        then ReduceApprovalRequest(cfg, s, frame.id.value, frame.fields, at)
        else ReduceNotification(cfg, s, frame.method_.value, frame.fields, at)
      else if frame.id.Some? then ReduceClientResponse(cfg, s, frame.id.value, frame, at)
      else DiagnoseOnly(s, MalformedProviderMessage, None, None, at)
  }

  predicate PromotesControl(e: Effect) {
    e.SessionUpserted? && e.session.liveBinding.Controlling?
  }

  /** Inserts before the first effect that promotes a session to controlling, else appends. */
  function Place(effects: seq<Effect>, e: Effect): seq<Effect> {
    if effects == [] then [e]
    else if PromotesControl(effects[0]) then [e] + effects
    else [effects[0]] + Place(effects[1..], e)
  }

  /** Republishes the capability set when traffic has proved something new. */
  function Publish(s: State, effects: seq<Effect>): Emission {
    if s.live.probe.proven == s.live.published then Emission(s, effects)
    else Emission(s.(live := s.live.(published := s.live.probe.proven)),
                  Place(effects, CapabilitiesUpdated(s.live.probe.ToCapabilities())))
  }

  function Bootstrap(s: State, at: int): Emission {
    if s.bootstrapped then Emission(s, [])
    else Emission(s.(bootstrapped := true), [HostUpserted(at),
      RuntimeUpserted(Connected(at), s.live.probe.ToCapabilities())])
  }

  function IngestFrame(cfg: Config, s: State, frame: Frame): Outcome {
    var at := Saturate(cfg.baseAt + frame.offset);
    var boot := Bootstrap(s.(live := s.live.(probe := s.live.probe.Advance(at))), at);
    var reduced := Dispatch(cfg, boot.state, frame, at);
    if reduced.result.Err? then reduced
    else
      var published := Publish(reduced.state, reduced.result.value);
      Done(published.state, boot.effects + published.effects)
  }

  // ------------------------------------------------------------------ local calls and lifecycle

  predicate AnswerRegistrable(s: State, id: AttentionId, command: CommandId, option: string) {
    && command != ""
    && option != ""
    && (exists r :: r in s.approvals.pending && s.approvals.pending[r].attention == id)
    && id !in s.approvals.answers
  }

  predicate TurnRegistrable(cfg: Config, s: State, requestId: int, command: CommandId) {
    && cfg.evidence == ObservedInTraffic
    && command != ""
    && requestId !in s.calls.control
    && !(exists r :: r in s.calls.control && s.calls.control[r] == command)
  }

  function EndedSession(session: Session, at: int): Session {
    session.(status := Offline, liveBinding := NotBound(RuntimeExited),
             updatedAt := Max(session.updatedAt, at), lastActivityAt := Max(session.lastActivityAt, at))
  }

  function ProcessExited(cfg: Config, s: State, exitCode: Option<int>, at: int): Emission {
    if s.ended then Emission(s, [])
    else
      var runtime := RuntimeUpserted(Unavailable(exitCode, at), s.live.probe.ToCapabilities());
      if s.live.session.None? then Emission(s.(ended := true), [runtime])
      else
        var session := EndedSession(s.live.session.value, at);
        Emission(s.(live := s.live.(session := Some(session)), ended := true),
                 [runtime, SessionUpserted(session),
                  AttentionUpserted(AttentionItem(FaultAttention(cfg.runtime, session.id), Some(session.id), None,
                                                  ConnectionFault(cfg.runtime, exitCode), Open, at))])
  }

  function CleanDisconnected(s: State, at: int): Emission {
    if s.ended then Emission(s, [])
    else
      var runtime := RuntimeUpserted(Disconnected, s.live.probe.ToCapabilities());
      if s.live.session.None? then Emission(s.(ended := true), [runtime])
      else
        var session := EndedSession(s.live.session.value, at);
        Emission(s.(live := s.live.(session := Some(session)), ended := true), [runtime, SessionUpserted(session)])
  }

  // ------------------------------------------------------------------ inputs and replies

  /** Everything that can happen to a reducer, in any order. */
  datatype Input =
    | Ingest(frame: Frame)
    | RegisterTurnStart(requestId: int, command: CommandId)
    | CancelTurnStart(requestId: int)
    | RegisterAnswer(attention: AttentionId, command: CommandId, option: string)
    | ForgetAnswer(attention: AttentionId)
    | CloseWindow
    | Exit(exitCode: Option<int>, at: int)
    | Disconnect(at: int)

  datatype Reply = Reduced(result: Result<seq<Effect>, CodexError>) | Registered(accepted: bool)

  datatype StepResult = StepResult(state: State, reply: Reply)

  function Emitted(e: Emission): StepResult { StepResult(e.state, Reduced(Ok(e.effects))) }

  function Step(cfg: Config, s: State, input: Input): StepResult {
    match input
    case Ingest(frame) =>
      var o := IngestFrame(cfg, s, frame);
      StepResult(o.state, Reduced(o.result))
    case RegisterTurnStart(id, command) =>
      if TurnRegistrable(cfg, s, id, command)
      then StepResult(s.(calls := s.calls.(control := s.calls.control[id := command])), Registered(true))
      else StepResult(s, Registered(false))
    case CancelTurnStart(id) => StepResult(s.(calls := s.calls.(control := s.calls.control - {id})), Registered(true))
    case RegisterAnswer(id, command, option) =>
      if AnswerRegistrable(s, id, command, option)
      then
        var answers := s.approvals.answers[id := PendingAnswer(command, option)];
        StepResult(s.(approvals := s.approvals.(answers := answers)), Registered(true))
      else StepResult(s, Registered(false))
    case ForgetAnswer(id) => StepResult(s.(approvals := s.approvals.(answers := s.approvals.answers - {id})),
      Registered(true))
    case CloseWindow => Emitted(Finish(s))
    case Exit(code, at) => Emitted(ProcessExited(cfg, s, code, at))
    case Disconnect(at) => Emitted(CleanDisconnected(s, at))
  }
}
