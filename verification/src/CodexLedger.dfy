/**
 What one step of the Codex reducer does to its books: the open client calls and the commands they carry, the
 open approval requests and the answers registered for them, and the state of every approval
 (crates/kaleido-adapter-codex/src/reduce.rs).
 */
module CodexLedger {
  import opened Prelude
  import opened Canonical
  import opened Capability
  import opened CodexWire
  import opened CodexBindings
  import opened CodexStep
  import opened CodexRun
  import opened CodexJoin

  // ------------------------------------------------------------------ what an input is

  function TimeOf(cfg: Config, frame: Frame): int { Saturate(cfg.baseAt + frame.offset) }

  predicate FrameOf(input: Input, direction: Direction, named: bool, id: int) {
    && input.Ingest? && input.frame.direction == direction && input.frame.method_.Some? == named
    && input.frame.id == Some(id)
  }

  /** The client calls a method under the identifier. */
  predicate Requests(input: Input, id: int, m: string) {
    FrameOf(input, ClientToServer, true, id) && input.frame.method_.value == m
  }

  /** The server answers what the client called. */
  predicate Responds(input: Input, id: int) { FrameOf(input, ServerToClient, false, id) }

  /** The server asks for approval. */
  predicate Asks(input: Input, id: int, m: ApprovalNotice) {
    && FrameOf(input, ServerToClient, true, id) && input.frame.method_.value == "item/fileChange/requestApproval"
    && DecodeApproval(input.frame.fields) == Ok(m)
  }

  /** The client replies to what the server asked. */
  predicate Replies(input: Input, id: int) { FrameOf(input, ClientToServer, false, id) }

  predicate Decides(input: Input, id: int, decision: string) {
    Replies(input, id) && DecodeDecision(input.frame.fields) == Ok(decision)
  }

  /** The server notifies the client. */
  predicate Notifies(input: Input, m: string) {
    input.Ingest? && input.frame.direction == ServerToClient && input.frame.method_ == Some(m)
  }

  // ------------------------------------------------------------------ what the two loops say

  predicate ShowApprovals(effects: seq<Effect>) {
    forall i | 0 <= i < |effects| :: effects[i].AttentionUpserted? || effects[i].DiagnosticRecorded?
  }

  predicate ShowItems(effects: seq<Effect>) {
    forall i | 0 <= i < |effects| :: effects[i].ItemUpserted? || effects[i].AttentionUpserted?
  }

  /** Upgrading joins shows approvals only. */
  lemma {:induction false} UpgradesShow(b: Bindings, items: map<ItemId, Item>, raw: string, attention: Attention,
                                        local: set<AttentionId>, ids: seq<AttentionId>)
    ensures ShowItems(UpgradeEffects(b, items, raw, attention, local, ids))
  {
    if ids != [] { UpgradesShow(b, items, raw, attention, local, ids[..|ids| - 1]); }
  }

  /** Closing the window shows approvals and diagnostics only. */
  lemma {:induction false} ClosingShows(attention: Attention, d: Diagnostics, session: Option<SessionId>,
                                        local: set<AttentionId>, ids: seq<AttentionId>)
    ensures ShowApprovals(ClosingEffects(attention, d, session, local, ids))
  {
    if ids != [] { ClosingShows(attention, d, session, local, ids[..|ids| - 1]); }
  }

  lemma FinishShows(s: State)
    ensures ShowApprovals(Finish(s).effects)
  {
    ClosingShows(s.attention.stored, s.diagnostics, s.live.sessionId, s.approvals.locallyAnswered,
      Unresolved(s.attention.stored));
  }

  /** Storing an item shows the item and then approvals. */
  lemma StoreItemShows(cfg: Config, s: State, m: ItemNotice, started: bool, f: Fields)
    requires m.thread in s.bindings.sessions
    ensures ShowItems(Said(StoreItem(cfg, s, m, started, f)))
  {
    hide DecodeBody, ItemFor, ItemBindings, UpgradeEffects, UpgradedAttention;
    var b := ItemBindings(cfg.runtime, s.bindings, m);
    var decoded := DecodeBody(f, m.kind, b.items[m.item].id, started, s.items.agentText);
    if decoded.Ok? {
      var item := ItemFor(s.items, b, m, s.bindings.sessions[m.thread].id, decoded.value);
      UpgradesShow(b, s.items.stored[item.id := item], m.item, s.attention.stored, s.approvals.locallyAnswered,
        FiledUnder(s.attention.byRawItem, m.item));
    }
  }

  // ------------------------------------------------------------------ the books

  type States = map<AttentionId, AttentionState>

  function StatesOf(attention: Attention): States { map id | id in attention :: attention[id].state }

  /** Calls, approvals and answers are as they were. */
  ghost predicate BooksKept(s: State, s': State) {
    && s'.calls == s.calls
    && s'.approvals.pending == s.approvals.pending && s'.approvals.answers == s.approvals.answers
    && StatesOf(s'.attention.stored) == StatesOf(s.attention.stored)
    && (s.bindings.Minted() ==> s'.bindings.Minted())
  }

  lemma BooksKeptTransitive(s: State, s': State, s'': State)
    requires BooksKept(s, s') && BooksKept(s', s'')
    ensures BooksKept(s, s'')
  {
  }

  lemma {:induction false} UpgradingKeepsStates(b: Bindings, items: map<ItemId, Item>, raw: string,
                                                attention: Attention, ids: seq<AttentionId>)
    ensures StatesOf(UpgradedAttention(b, items, raw, attention, ids)) == StatesOf(attention)
  {
    if ids != [] { UpgradingKeepsStates(b, items, raw, attention, ids[..|ids| - 1]); }
  }

  lemma ClosingKeepsStates(attention: Attention, ids: seq<AttentionId>)
    ensures StatesOf(ClosedAttention(attention, ids)) == StatesOf(attention)
  {
    ClosedEntries(attention, ids);
    assert forall id :: id in ClosedAttention(attention, ids) <==> id in attention.Keys;
  }

  lemma FinishBooks(s: State)
    ensures BooksKept(s, Finish(s).state)
  {
    ClosingKeepsStates(s.attention.stored, Unresolved(s.attention.stored));
  }

  lemma QuietMints(rt: RuntimeId, s: State, s': State)
    requires Quiet(rt, s, s') && s.bindings.Minted()
    ensures s'.bindings.Minted()
  {
    ScopeBoundGrows(rt, s.bindings, s'.bindings);
  }

  lemma TurnTransitionCalls(cfg: Config, s: State, f: Fields, at: int)
    ensures
      var s' := ReduceTurnTransition(cfg, s, false, f, at).state;
      s'.calls == s.calls && s'.approvals == s.approvals
  {
    hide DecodeTurnNotice, TurnStatusOf;
  }

  lemma TurnTransitionBooks(cfg: Config, s: State, completed: bool, f: Fields, at: int)
    ensures BooksKept(s, ReduceTurnTransition(cfg, s, completed, f, at).state)
  {
    hide ReduceTurnTransition, Finish;
    var open := ReduceTurnTransition(cfg, s, false, f, at);
    TurnTransitionCalls(cfg, s, f, at);
    TurnTransitionQuiet(cfg, s, f, at);
    if s.bindings.Minted() { QuietMints(cfg.runtime, s, open.state); }
    assert BooksKept(s, open.state);
    TurnCompletedCloses(cfg, s, f, at);
    if completed && open.result.Ok? {
      FinishBooks(open.state);
      BooksKeptTransitive(s, open.state, Finish(open.state).state);
    }
  }

  lemma StoreItemCalls(cfg: Config, s: State, m: ItemNotice, started: bool, f: Fields)
    requires m.thread in s.bindings.sessions
    ensures
      var s' := StoreItem(cfg, s, m, started, f).state;
      && s'.calls == s.calls && s'.approvals == s.approvals
      && s'.bindings == ItemBindings(cfg.runtime, s.bindings, m)
  {
    hide DecodeBody, ItemFor, ItemBindings;
  }

  lemma StoreItemStates(cfg: Config, s: State, m: ItemNotice, started: bool, f: Fields)
    requires m.thread in s.bindings.sessions
    ensures StatesOf(StoreItem(cfg, s, m, started, f).state.attention.stored) == StatesOf(s.attention.stored)
  {
    hide DecodeBody, StoreDecoded, ItemBindings, StatesOf;
    var b := ItemBindings(cfg.runtime, s.bindings, m);
    var decoded := DecodeBody(f, m.kind, b.items[m.item].id, started, s.items.agentText);
    if decoded.Ok? {
      StoreDecodedState(cfg, s, m, decoded.value);
      var s' := StoreDecoded(cfg, s, m, decoded.value).state;
      UpgradingKeepsStates(s'.bindings, s'.items.stored, m.item, s.attention.stored,
        FiledUnder(s.attention.byRawItem, m.item));
    }
  }

  lemma StoreItemBooks(cfg: Config, s: State, m: ItemNotice, started: bool, f: Fields)
    requires m.thread in s.bindings.sessions
    ensures BooksKept(s, StoreItem(cfg, s, m, started, f).state)
  {
    hide StoreItem, ItemBindings, StatesOf;
    if s.bindings.Minted() { ItemBindingsGrow(cfg.runtime, s.bindings, m); }
    StoreItemCalls(cfg, s, m, started, f);
    StoreItemStates(cfg, s, m, started, f);
  }

  lemma ItemBooks(cfg: Config, s: State, started: bool, f: Fields, at: int)
    ensures BooksKept(s, ReduceItem(cfg, s, started, f, at).state)
  {
    hide DecodeItemNotice, StoreItem;
    var m := DecodeItemNotice(f, started);
    if m.Ok? && m.value.thread in s.bindings.sessions {
      if s.bindings.Minted() {
        BindTurnGrows(cfg.runtime, s.bindings, m.value.turn, s.bindings.sessions[m.value.thread].id);
      }
      StoreItemBooks(cfg, s, m.value, started, f);
    }
  }

  /** Everything that the books rest on is as it was. */
  ghost predicate SameBooks(s: State, s': State) {
    && s'.calls == s.calls && s'.approvals == s.approvals && s'.attention == s.attention
    && s'.bindings == s.bindings
  }

  lemma SameBooksKept(s: State, s': State)
    requires SameBooks(s, s')
    ensures BooksKept(s, s')
  {
  }

  lemma DeltaSame(s: State, f: Fields, at: int)
    ensures SameBooks(s, ReduceDelta(s, f, at).state)
  {
    hide DecodeDelta;
  }

  lemma StatusSame(s: State, f: Fields, at: int)
    ensures SameBooks(s, ReduceStatusChanged(s, f, at).state) && SameBooks(s, ReduceThreadStarted(s, f).state)
  {
    hide SessionStatusOf;
  }

  lemma NotificationBooks(cfg: Config, s: State, m: string, f: Fields, at: int)
    ensures BooksKept(s, ReduceNotification(cfg, s, m, f, at).state)
  {
    hide ReduceTurnTransition, ReduceItem, ReduceDelta, ReduceStatusChanged, ReduceThreadStarted, BooksKept;
    DeltaSame(s, f, at);
    StatusSame(s, f, at);
    SameBooksKept(s, ReduceDelta(s, f, at).state);
    SameBooksKept(s, ReduceStatusChanged(s, f, at).state);
    SameBooksKept(s, ReduceThreadStarted(s, f).state);
    SameBooksKept(s, DiagnoseOnly(s, UnknownUpstreamMessage, s.live.sessionId, None, at).state);
    if m == "turn/started" || m == "turn/completed" {
      TurnTransitionBooks(cfg, s, m == "turn/completed", f, at);
    } else if m == "item/started" || m == "item/completed" {
      ItemBooks(cfg, s, m == "item/started", f, at);
    }
  }

  // ------------------------------------------------------------------ client responses

  /** The books after a response: the call is no longer open, nor the command it carried if it started a turn. */
  ghost predicate ResponseBooks(s: State, s': State, id: int) {
    && s'.calls.client == s.calls.client - {id}
    && s'.calls.control == (if id in s.calls.client && s.calls.client[id].TurnStart? then s.calls.control - {id}
                            else s.calls.control)
    && BooksKept(s.(calls := s'.calls), s')
  }

  lemma TurnCreatedCalls(cfg: Config, s: State, f: Fields, at: int, origin: TurnOrigin)
    ensures
      var s' := ReduceTurnCreated(cfg, s, f, at, origin).state;
      s'.calls == s.calls && s'.approvals == s.approvals
  {
    hide DecodeTurnCreated;
  }

  lemma AcceptanceCalls(cfg: Config, s: State, command: CommandId, at: int)
    ensures
      var s' := RuntimeAcceptance(cfg, s, command, at).state;
      s'.calls == s.calls && s'.approvals == s.approvals
  {
  }

  lemma TurnResponseCalls(cfg: Config, s: State, id: int, frame: Frame, at: int)
    ensures
      var s' := ReduceTurnResponse(cfg, s, id, frame, at).state;
      s'.calls == s.calls.(control := s.calls.control - {id}) && s'.approvals == s.approvals
  {
    hide ReduceTurnCreated, RuntimeAcceptance;
    var control := s.calls.control;
    var s1 := s.(calls := s.calls.(control := control - {id}));
    var origin := if id in control then RemoteCommand(control[id]) else cfg.turnOrigin;
    TurnCreatedCalls(cfg, s1, frame.fields, at, origin);
    if id in control {
      AcceptanceCalls(cfg, ReduceTurnCreated(cfg, s1, frame.fields, at, origin).state, control[id], at);
    }
  }

  lemma TurnResponseBooks(cfg: Config, s: State, id: int, frame: Frame, at: int)
    ensures
      var s' := ReduceTurnResponse(cfg, s, id, frame, at).state;
      && s'.calls == s.calls.(control := s.calls.control - {id})
      && BooksKept(s.(calls := s'.calls), s')
  {
    TurnResponseCalls(cfg, s, id, frame, at);
    hide ReduceTurnResponse;
    TurnResponseQuiet(cfg, s, id, frame, at);
    if s.bindings.Minted() { QuietMints(cfg.runtime, s, ReduceTurnResponse(cfg, s, id, frame, at).state); }
  }

  lemma SessionCalls(cfg: Config, s: State, f: Fields, at: int)
    ensures
      var s' := BootstrapSession(cfg, s, f, at).state;
      s'.calls == s.calls && s'.approvals == s.approvals
  {
    hide NewSession, ProveSession;
  }

  lemma ClientResponseCalls(cfg: Config, s: State, id: int, frame: Frame, at: int)
    ensures
      var s' := ReduceClientResponse(cfg, s, id, frame, at).state;
      && s'.calls.client == s.calls.client - {id} && s'.approvals == s.approvals
      && s'.calls.control == if id in s.calls.client && s.calls.client[id].TurnStart? then s.calls.control - {id}
                             else s.calls.control
  {
    hide ReduceTurnResponse, BootstrapSession;
    var s1 := s.(calls := s.calls.(client := s.calls.client - {id}));
    TurnResponseCalls(cfg, s1, id, frame, at);
    SessionCalls(cfg, s1, frame.fields, at);
  }

  lemma ClientResponseBooks(cfg: Config, s: State, id: int, frame: Frame, at: int)
    ensures ResponseBooks(s, ReduceClientResponse(cfg, s, id, frame, at).state, id)
  {
    hide ReduceClientResponse;
    ClientResponseCalls(cfg, s, id, frame, at);
    ClientResponseQuiet(cfg, s, id, frame, at);
    if s.bindings.Minted() { QuietMints(cfg.runtime, s, ReduceClientResponse(cfg, s, id, frame, at).state); }
  }

  // ------------------------------------------------------------------ approvals

  /** An approval request was filed. */
  ghost predicate AskBooks(s: State, s': State, id: int, m: ApprovalNotice) {
    && s'.calls == s.calls && s'.approvals.answers == s.approvals.answers
    && s'.approvals.pending == s.approvals.pending[id := PendingApproval(KeyOf(m), m.item)]
    && StatesOf(s'.attention.stored) == StatesOf(s.attention.stored)[KeyOf(m) := Open]
    && s'.bindings.Minted()
  }

  lemma FileApprovalCalls(cfg: Config, s: State, id: int, m: ApprovalNotice, at: int)
    requires m.thread in s.bindings.sessions
    ensures
      var o := FileApproval(cfg, s, id, m, at);
      var b := ApprovalBindings(cfg.runtime, s.bindings, m);
      var a := b.interactions[Correlation(m.thread, m.turn, m.item, m.startedAt)].id;
      && o.result.Ok? && o.state.calls == s.calls && o.state.bindings == b
      && o.state.approvals.answers == s.approvals.answers
      && o.state.approvals.pending == s.approvals.pending[id := PendingApproval(a, m.item)]
      && a in o.state.attention.stored && o.state.attention.stored[a].state == Open
      && o.state.attention.stored == s.attention.stored[a := o.state.attention.stored[a]]
  {
    hide Correlation, JoinFor, Summarise, ApprovalBindings;
  }

  lemma FileApprovalBooks(cfg: Config, s: State, id: int, m: ApprovalNotice, at: int)
    requires m.thread in s.bindings.sessions && s.bindings.Minted()
    ensures FileApproval(cfg, s, id, m, at).result.Ok? && AskBooks(s, FileApproval(cfg, s, id, m, at).state, id, m)
  {
    hide Correlation, ApprovalBindings, FileApproval;
    ApprovalBindingsGrow(cfg.runtime, s.bindings, m);
    FileApprovalCalls(cfg, s, id, m, at);
  }

  /** Who a decision is put down to: the command registered for it, or else whoever was observed. */
  ghost predicate PutDownTo(cfg: Config, answers: map<AttentionId, PendingAnswer>, id: AttentionId, at: int,
                            source: AnswerSource) {
    if id in answers then source == LocalCommand(answers[id].command)
    else source == ObservedExternal(at, cfg.evidence)
  }

  /** A decision can be recorded unless it contradicts the registered answer, or there is no evidence for it. */
  ghost predicate Recordable(cfg: Config, answers: map<AttentionId, PendingAnswer>, id: AttentionId,
                             decision: string) {
    if id in answers then answers[id].option == decision
    else cfg.evidence == ObservedInTraffic || cfg.evidence == RecordedFixture
  }

  /** A reply closes its request. A decision uses up the registered answer, and is recorded if it can be. */
  ghost predicate ReplyBooks(cfg: Config, s: State, o: Outcome, id: int, decision: Option<string>, at: int)
    requires id in s.approvals.pending
  {
    var a := s.approvals.pending[id].attention;
    && o.state.calls == s.calls && o.state.bindings == s.bindings
    && o.state.approvals.pending == s.approvals.pending - {id}
    && o.state.approvals.answers == (if decision.Some? then s.approvals.answers - {a} else s.approvals.answers)
    && (o.result.Ok? <==> decision.Some? && Recordable(cfg, s.approvals.answers, a, decision.value))
    && (o.result.Err? ==> StatesOf(o.state.attention.stored) == StatesOf(s.attention.stored))
    && (o.result.Ok? ==> exists source | PutDownTo(cfg, s.approvals.answers, a, at, source) ::
          StatesOf(o.state.attention.stored) == StatesOf(s.attention.stored)[a := Answered(decision.value, at, source)])
  }

  lemma ApprovalReplyBooks(cfg: Config, s: State, id: int, f: Fields, at: int)
    requires id in s.approvals.pending && s.approvals.pending[id].attention in s.attention.stored
    ensures
      var decision := DecodeDecision(f);
      ReplyBooks(cfg, s, ReduceApprovalReply(cfg, s, id, f, at), id,
        if decision.Ok? then Some(decision.value) else None, at)
  {
    hide DecodeDecision;
    var a, answers := s.approvals.pending[id].attention, s.approvals.answers;
    var o := ReduceApprovalReply(cfg, s, id, f, at);
    if o.result.Ok? {
      var source := if a in answers then LocalCommand(answers[a].command) else ObservedExternal(at, cfg.evidence);
      assert PutDownTo(cfg, answers, a, at, source);
      assert o.state.attention.stored[a].state == Answered(DecodeDecision(f).value, at, source);
      assert StatesOf(o.state.attention.stored)
        == StatesOf(s.attention.stored)[a := Answered(DecodeDecision(f).value, at, source)];
    }
  }

  // ------------------------------------------------------------------ one step

  /** Identifiers are minted, and every open approval request has its entry. */
  ghost predicate Kept(s: State) {
    s.bindings.Minted() && forall id | id in s.approvals.pending ::
      s.approvals.pending[id].attention in s.attention.stored
  }

  lemma IngestDispatches(cfg: Config, s: State, frame: Frame) returns (t: State)
    ensures SameBooks(s, t)
    ensures
      var o, d := IngestFrame(cfg, s, frame), Dispatch(cfg, t, frame, TimeOf(cfg, frame));
      SameBooks(d.state, o.state) && o.result.Ok? == d.result.Ok? && (o.result.Err? ==> o == d)
  {
    hide Dispatch;
    var at := TimeOf(cfg, frame);
    t := Bootstrap(s.(live := s.live.(probe := s.live.probe.Advance(at))), at).state;
  }

  lemma KeptBooks(s: State, s': State)
    requires Kept(s) && BooksKept(s, s')
    ensures Kept(s')
  {
    forall id | id in s'.approvals.pending ensures s'.approvals.pending[id].attention in s'.attention.stored {
      assert s.approvals.pending[id].attention in StatesOf(s.attention.stored);
    }
  }

  /** The client calls a method. */
  lemma RequestStep(cfg: Config, s: State, input: Input, id: int, m: string)
    requires Kept(s) && Requests(input, id, m)
    ensures
      var r := Step(cfg, s, input);
      && r.state.calls == s.calls.(client := s.calls.client[id := ClientCallOf(m)])
      && BooksKept(s.(calls := r.state.calls), r.state) && Kept(r.state)
  {
    var t := IngestDispatches(cfg, s, input.frame);
    hide IngestFrame;
    KeptBooks(s.(calls := Step(cfg, s, input).state.calls), Step(cfg, s, input).state);
  }

  lemma RespondStep(cfg: Config, s: State, input: Input, id: int)
    requires Kept(s) && Responds(input, id)
    ensures ResponseBooks(s, Step(cfg, s, input).state, id) && Kept(Step(cfg, s, input).state)
  {
    var t := IngestDispatches(cfg, s, input.frame);
    hide IngestFrame, ReduceClientResponse;
    ClientResponseBooks(cfg, t, id, input.frame, TimeOf(cfg, input.frame));
    KeptBooks(s.(calls := Step(cfg, s, input).state.calls), Step(cfg, s, input).state);
  }

  /** A request for approval is accepted exactly if its thread is known. */
  lemma AskStep(cfg: Config, s: State, input: Input, id: int, m: ApprovalNotice)
    requires Kept(s) && Asks(input, id, m)
    ensures
      var r := Step(cfg, s, input);
      && (Accepted(r.reply) <==> m.thread in s.bindings.sessions) && Kept(r.state)
      && if Accepted(r.reply) then AskBooks(s, r.state, id, m) else BooksKept(s, r.state)
  {
    var t := IngestDispatches(cfg, s, input.frame);
    hide IngestFrame, FileApproval, DecodeApproval;
    var r := Step(cfg, s, input);
    if m.thread in s.bindings.sessions {
      FileApprovalBooks(cfg, t, id, m, TimeOf(cfg, input.frame));
      assert AskBooks(s, r.state, id, m);
      KeptAsk(s, r.state, id, m);
    } else {
      KeptBooks(s, r.state);
    }
  }

  lemma KeptAsk(s: State, s': State, id: int, m: ApprovalNotice)
    requires Kept(s) && AskBooks(s, s', id, m)
    ensures Kept(s')
  {
    forall i | i in s'.approvals.pending ensures s'.approvals.pending[i].attention in s'.attention.stored {
      assert s'.approvals.pending[i].attention in StatesOf(s'.attention.stored);
    }
  }

  lemma ReplyStep(cfg: Config, s: State, input: Input, id: int)
    requires Kept(s) && Replies(input, id)
    ensures
      var r := Step(cfg, s, input);
      var decision := DecodeDecision(input.frame.fields);
      && Kept(r.state) && r.reply.Reduced?
      && if id in s.approvals.pending
         then ReplyBooks(cfg, s, Outcome(r.state, r.reply.result), id,
                         if decision.Ok? then Some(decision.value) else None, TimeOf(cfg, input.frame))
         else Accepted(r.reply) && BooksKept(s, r.state)
  {
    var t := IngestDispatches(cfg, s, input.frame);
    hide IngestFrame, DecodeDecision, ReduceApprovalReply;
    var r, at := Step(cfg, s, input), TimeOf(cfg, input.frame);
    var decision := DecodeDecision(input.frame.fields);
    var decided := if decision.Ok? then Some(decision.value) else None;
    if id in s.approvals.pending {
      ApprovalReplyBooks(cfg, t, id, input.frame.fields, at);
      var d := ReduceApprovalReply(cfg, t, id, input.frame.fields, at);
      assert ReplyBooks(cfg, t, d, id, decided, at);
      SameReply(cfg, s, t, Outcome(r.state, r.reply.result), d, id, decided, at);
      KeptReply(cfg, s, Outcome(r.state, r.reply.result), id, decided, at);
    } else {
      NothingPending(cfg, t, id, input.frame.fields, at);
      KeptBooks(s, r.state);
    }
  }

  lemma NothingPending(cfg: Config, s: State, id: int, f: Fields, at: int)
    requires id !in s.approvals.pending
    ensures ReduceApprovalReply(cfg, s, id, f, at) == Done(s, [])
  {
  }

  lemma SameReply(cfg: Config, s: State, t: State, o: Outcome, d: Outcome, id: int, decision: Option<string>, at: int)
    requires id in t.approvals.pending && SameBooks(s, t) && SameBooks(d.state, o.state) && o.result.Ok? == d.result.Ok?
    requires ReplyBooks(cfg, t, d, id, decision, at)
    ensures ReplyBooks(cfg, s, o, id, decision, at)
  {
  }

  lemma KeptReply(cfg: Config, s: State, o: Outcome, id: int, decision: Option<string>, at: int)
    requires Kept(s) && id in s.approvals.pending && ReplyBooks(cfg, s, o, id, decision, at)
    ensures Kept(o.state)
  {
    forall i | i in o.state.approvals.pending
      ensures o.state.approvals.pending[i].attention in o.state.attention.stored
    {
      assert s.approvals.pending[i].attention in StatesOf(s.attention.stored);
      assert s.approvals.pending[i].attention in StatesOf(o.state.attention.stored);
    }
  }

  /** The inputs that write to the books. */
  ghost predicate Writes(input: Input) {
    || (exists id, m :: Requests(input, id, m))
    || (exists id :: Responds(input, id))
    || (exists id, m :: Asks(input, id, m))
    || (exists id :: Replies(input, id))
    || input.RegisterTurnStart? || input.CancelTurnStart? || input.RegisterAnswer? || input.ForgetAnswer?
  }

  /** Every other input leaves the books alone. */
  lemma OtherStep(cfg: Config, s: State, input: Input)
    requires Kept(s) && !Writes(input)
    ensures BooksKept(s, Step(cfg, s, input).state) && Kept(Step(cfg, s, input).state)
  {
    hide IngestFrame, Finish, ProcessExited, CleanDisconnected, Writes;
    match input {
      case Ingest(frame) => OtherFrame(cfg, s, frame);
      case CloseWindow => FinishBooks(s);
      case Exit(code, at) => LifecycleSame(cfg, s, code, at);
      case Disconnect(at) => LifecycleSame(cfg, s, None, at);
      case _ => NoWriter(input);
    }
    KeptBooks(s, Step(cfg, s, input).state);
  }

  lemma NoWriter(input: Input)
    requires !Writes(input)
    ensures !input.RegisterTurnStart? && !input.CancelTurnStart? && !input.RegisterAnswer? && !input.ForgetAnswer?
  {
  }

  lemma LifecycleSame(cfg: Config, s: State, exitCode: Option<int>, at: int)
    ensures BooksKept(s, ProcessExited(cfg, s, exitCode, at).state) && BooksKept(s, CleanDisconnected(s, at).state)
  {
  }

  lemma NotWriting(frame: Frame)
    requires !Writes(Ingest(frame))
    ensures frame.id.Some? ==> frame.direction == ServerToClient && frame.method_.Some?
  {
    if frame.id.Some? {
      var input, id := Ingest(frame), frame.id.value;
      assert !Replies(input, id) && !Responds(input, id);
      if frame.method_.Some? { assert !Requests(input, id, frame.method_.value); }
    }
  }

  lemma OtherFrame(cfg: Config, s: State, frame: Frame)
    requires Kept(s) && !Writes(Ingest(frame))
    ensures BooksKept(s, IngestFrame(cfg, s, frame).state)
  {
    var t := IngestDispatches(cfg, s, frame);
    hide IngestFrame, ReduceNotification, ReduceApprovalReply, ReduceClientResponse, ReduceApprovalRequest, Writes;
    var at := TimeOf(cfg, frame);
    NotWriting(frame);
    if frame.direction == ClientToServer {
      SameBooksKept(t, Dispatch(cfg, t, frame, at).state);
    } else if frame.method_.Some? {
      if frame.id.Some? && frame.method_.value == APPROVAL_METHOD {
        UndecodedAsk(cfg, t, frame, at);
      } else {
        NotificationBooks(cfg, t, frame.method_.value, frame.fields, at);
      }
    } else {
      SameBooksKept(t, Dispatch(cfg, t, frame, at).state);
    }
  }

  lemma UndecodedAsk(cfg: Config, s: State, frame: Frame, at: int)
    requires !Writes(Ingest(frame)) && frame.direction == ServerToClient && frame.id.Some?
    requires frame.method_ == Some(APPROVAL_METHOD)
    ensures ReduceApprovalRequest(cfg, s, frame.id.value, frame.fields, at).state == s
  {
    hide FileApproval, DecodeApproval;
    var m := DecodeApproval(frame.fields);
    assert m.Ok? ==> Asks(Ingest(frame), frame.id.value, m.value);
  }
}
