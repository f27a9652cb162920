/**
 The approval-to-item join protocol of the Codex reducer, over every run.

 An approval names only a thread, a turn and an item, and may arrive before the item it refers to.
 The reducer keeps a secondary index from raw item identifiers to approvals and re-examines the
 waiting ones when the item arrives.
 */
module CodexJoin {
  import opened Prelude
  import opened StringOrder
  import opened Canonical
  import opened Capability
  import opened CodexWire
  import opened CodexBindings
  import opened CodexStep
  import opened CodexRun

  // ------------------------------------------------------------------ the invariant

  ghost predicate IsApproval(e: AttentionItem) {
    e.subject.Approval? && e.session.Some? && e.turn.Some?
  }

  function TargetOf(e: AttentionItem): ItemId
    requires IsApproval(e)
  {
    e.subject.request.target
  }

  function JoinOf(e: AttentionItem): JoinState
    requires IsApproval(e)
  {
    e.subject.request.join
  }

  /** A stored approval is filed under the correlation key of its own scope. */
  ghost predicate WellScoped(id: AttentionId, e: AttentionItem) {
    && IsApproval(e)
    && e.id == id
    && id == ApprovalAttention(Correlation(e.session.value.seed, e.turn.value.seed, TargetOf(e).seed, e.createdAt))
  }

  /** What a stored join says is true of the bindings and of the stored items. */
  ghost predicate JoinHolds(b: Bindings, items: map<ItemId, Item>, e: AttentionItem)
    requires IsApproval(e)
  {
    var raw := TargetOf(e).seed;
    match JoinOf(e)
    case Joined(item) =>
      item == TargetOf(e) && raw in b.items && b.items[raw].session == e.session.value
        && b.items[raw].turn == e.turn.value
    case Unjoined(reason) =>
      match reason
      case ScopeMismatch =>
        raw in b.items && (b.items[raw].session != e.session.value || b.items[raw].turn != e.turn.value)
      case ItemNotYetSeen => raw in b.items ==> TargetOf(e) !in items
      case ItemUnknown => true
  }

  /** One stored approval: filed under its own key, reachable through the index, its join true. */
  ghost predicate EntryOk(b: Bindings, items: map<ItemId, Item>, index: Index, id: AttentionId, e: AttentionItem) {
    && WellScoped(id, e)
    && TargetOf(e).seed in index && id in index[TargetOf(e).seed]
    && JoinHolds(b, items, e)
  }

  /** The index lists only approvals of the item it is filed under. */
  ghost predicate ListedOk(attention: Attention, raw: string, id: AttentionId) {
    id in attention && IsApproval(attention[id]) && TargetOf(attention[id]) == ItemId(raw)
  }

  ghost predicate Joins(b: Bindings, items: map<ItemId, Item>, attention: Attention, index: Index) {
    && b.Minted()
    && (forall i | i in items :: i.seed in b.items)
    && (forall id | id in attention :: EntryOk(b, items, index, id, attention[id]))
    && (forall raw, id | raw in index && id in index[raw] :: ListedOk(attention, raw, id))
  }

  ghost predicate JoinInvariant(s: State) {
    Joins(s.bindings, s.items.stored, s.attention.stored, s.attention.byRawItem)
  }

  /** Holds while no frame has been rejected: a bound item is also a stored item. */
  ghost predicate BoundItemsStored(s: State) {
    forall raw | raw in s.bindings.items :: ItemId(raw) in s.items.stored
  }

  /** A decision that later frames may not revise. */
  predicate Settled(join: JoinState) {
    join.Joined? || join == Unjoined(ScopeMismatch)
  }

  ghost predicate SameIfSettled(attention: Attention, later: Attention, id: AttentionId)
    requires id in attention
  {
    IsApproval(attention[id]) && Settled(JoinOf(attention[id])) ==>
      id in later && IsApproval(later[id]) && JoinOf(later[id]) == JoinOf(attention[id])
  }

  ghost predicate KeepsSettled(attention: Attention, later: Attention) {
    forall id | id in attention :: SameIfSettled(attention, later, id)
  }

  function KeyOf(m: ApprovalNotice): AttentionId {
    ApprovalAttention(Correlation(m.thread, m.turn, m.item, m.startedAt))
  }

  /** A stored approval speaks about the same session, turn and item as an arriving one. */
  ghost predicate SameScope(e: AttentionItem, m: ApprovalNotice) {
    && IsApproval(e) && e.session.value == SessionId(m.thread) && e.turn.value == TurnId(m.turn)
    && TargetOf(e) == ItemId(m.item)
  }

  /** An arriving approval fits a stored one: it asks about the same item, and revises no settled join. */
  ghost predicate Fits(b: Bindings, e: AttentionItem, m: ApprovalNotice) {
    && IsApproval(e) && TargetOf(e) == ItemId(m.item)
    && (Settled(JoinOf(e)) ==> JoinOf(e) == JoinFor(b, m.item, SessionId(m.thread), TurnId(m.turn), ItemId(m.item)))
  }

  /** The frame is an approval request that decodes. */
  predicate RequestsApproval(frame: Frame) {
    && frame.direction == ServerToClient && frame.method_ == Some(APPROVAL_METHOD) && frame.id.Some?
    && DecodeApproval(frame.fields).Ok?
  }

  /** The input files this approval: the request decodes and names a bound session. */
  predicate Files(s: State, input: Input) {
    input.Ingest? && RequestsApproval(input.frame)
      && DecodeApproval(input.frame.fields).value.thread in s.bindings.sessions
  }

  /** If the key of an approval that is filed is already taken, the approval fits what is stored there. */
  ghost predicate ClashFree(s: State, input: Input) {
    Files(s, input) ==>
      var m := DecodeApproval(input.frame.fields).value;
      KeyOf(m) in s.attention.stored ==> Fits(s.bindings, s.attention.stored[KeyOf(m)], m)
  }

  // ------------------------------------------------------------------ the two loops, entry by entry

  /** The upgrade loop rewrites exactly the listed entries, when the item is bound. */
  lemma {:induction false} UpgradedEntries(b: Bindings, items: map<ItemId, Item>, raw: string, attention: Attention,
                                           ids: seq<AttentionId>)
    requires raw in b.items
    ensures UpgradedAttention(b, items, raw, attention, ids).Keys == attention.Keys
    ensures forall id | id in attention ::
      UpgradedAttention(b, items, raw, attention, ids)[id] ==
        if id in ids then Upgraded(b, items, raw, attention[id]) else attention[id]
  {
    if ids != [] {
      var front, last := ids[..|ids| - 1], ids[|ids| - 1];
      UpgradedEntries(b, items, raw, attention, front);
      assert ids == front + [last];
    }
  }

  lemma {:induction false} ClosedEntries(attention: Attention, ids: seq<AttentionId>)
    ensures ClosedAttention(attention, ids).Keys == attention.Keys
    ensures forall id | id in attention ::
      ClosedAttention(attention, ids)[id] == if id in ids then Closed(attention[id]) else attention[id]
  {
    if ids != [] {
      var front, last := ids[..|ids| - 1], ids[|ids| - 1];
      ClosedEntries(attention, front);
      assert ids == front + [last];
    }
  }

  lemma UnresolvedAreDeferred(attention: map<AttentionId, AttentionItem>, id: AttentionId)
    requires id in attention
    ensures id in Unresolved(attention) <==> id.ApprovalAttention? && JoinDeferredIn(attention[id])
  {
    var deferred := set i | i in attention && i.ApprovalAttention? && JoinDeferredIn(attention[i]) :: i.correlation;
    var keys := Sorted(deferred);
    var ids := Unresolved(attention);
    if id in ids {
      var k :| 0 <= k < |ids| && ids[k] == id;
      assert keys[k] in deferred;
    }
    if id.ApprovalAttention? && JoinDeferredIn(attention[id]) {
      assert id.correlation in deferred;
      var k :| 0 <= k < |keys| && keys[k] == id.correlation;
      assert ids[k] == id;
    }
  }

  lemma ClosedEntryOk(b: Bindings, items: map<ItemId, Item>, index: Index, id: AttentionId, e: AttentionItem)
    requires EntryOk(b, items, index, id, e)
    ensures EntryOk(b, items, index, id, Closed(e))
    ensures TargetOf(Closed(e)) == TargetOf(e)
    ensures !JoinDeferredIn(Closed(e))
  {
  }

  /** Closing the window turns exactly the deferred joins into `ItemUnknown`. */
  lemma ClosingKeepsJoins(b: Bindings, items: map<ItemId, Item>, attention: Attention, index: Index,
                          ids: seq<AttentionId>)
    requires Joins(b, items, attention, index)
    requires forall id | id in attention :: id in ids <==> JoinDeferredIn(attention[id])
    ensures Joins(b, items, ClosedAttention(attention, ids), index)
    ensures KeepsSettled(attention, ClosedAttention(attention, ids))
    ensures forall id | id in attention ::
      id in ClosedAttention(attention, ids) && !JoinDeferredIn(ClosedAttention(attention, ids)[id])
  {
    var closed := ClosedAttention(attention, ids);
    ClosedEntries(attention, ids);
    forall id | id in attention
      ensures EntryOk(b, items, index, id, closed[id]) && SameIfSettled(attention, closed, id)
        && !JoinDeferredIn(closed[id])
      ensures TargetOf(closed[id]) == TargetOf(attention[id])
    {
      ClosedEntryOk(b, items, index, id, attention[id]);
    }
    forall raw, id | raw in index && id in index[raw] ensures ListedOk(closed, raw, id) {
      assert ListedOk(attention, raw, id);
    }
  }

  // ------------------------------------------------------------------ an item arrives

  lemma UpgradedEntryOk(b: Bindings, items: map<ItemId, Item>, b': Bindings, items': map<ItemId, Item>, index: Index,
                        raw: string, id: AttentionId, e: AttentionItem)
    requires EntryOk(b, items, index, id, e)
    requires b'.Extends(b) && raw in b'.items
    requires TargetOf(e) == ItemId(raw)
    ensures EntryOk(b', items', index, id, Upgraded(b', items', raw, e))
    ensures TargetOf(Upgraded(b', items', raw, e)) == TargetOf(e)
    ensures Settled(JoinOf(e)) ==> Upgraded(b', items', raw, e) == e
  {
  }

  lemma OtherEntryOk(b: Bindings, items: map<ItemId, Item>, b': Bindings, items': map<ItemId, Item>, index: Index,
                     raw: string, id: AttentionId, e: AttentionItem)
    requires EntryOk(b, items, index, id, e)
    requires b'.Extends(b)
    requires forall r | r in b'.items :: r in b.items || r == raw
    requires forall i | i in items' :: i in items || i == ItemId(raw)
    requires TargetOf(e) != ItemId(raw)
    ensures EntryOk(b', items', index, id, e)
  {
    assert TargetOf(e) == ItemId(TargetOf(e).seed);
  }

  /** An item that is bound and stored settles every approval waiting for it, and disturbs no other. */
  lemma ItemArrives(b: Bindings, items: map<ItemId, Item>, b': Bindings, items': map<ItemId, Item>,
                    attention: Attention, index: Index, raw: string)
    requires Joins(b, items, attention, index)
    requires b'.Minted() && b'.Extends(b) && raw in b'.items
    requires forall r | r in b'.items :: r in b.items || r == raw
    requires forall i | i in items' :: i in items || i == ItemId(raw)
    ensures
      var ids := FiledUnder(index, raw);
      Joins(b', items', UpgradedAttention(b', items', raw, attention, ids), index)
      && KeepsSettled(attention, UpgradedAttention(b', items', raw, attention, ids))
  {
    var ids := FiledUnder(index, raw);
    var upgraded := UpgradedAttention(b', items', raw, attention, ids);
    UpgradedEntries(b', items', raw, attention, ids);
    forall id | id in attention
      ensures EntryOk(b', items', index, id, upgraded[id]) && SameIfSettled(attention, upgraded, id)
      ensures TargetOf(upgraded[id]) == TargetOf(attention[id])
    {
      var e := attention[id];
      assert EntryOk(b, items, index, id, e);
      if id in ids {
        assert ListedOk(attention, raw, id);
        UpgradedEntryOk(b, items, b', items', index, raw, id, e);
      } else {
        assert TargetOf(e) == ItemId(TargetOf(e).seed);
        OtherEntryOk(b, items, b', items', index, raw, id, e);
      }
    }
    forall r, id | r in index && id in index[r] ensures ListedOk(upgraded, r, id) {
      assert ListedOk(attention, r, id);
    }
  }

  /** A rejected item may be bound without being stored; approvals waiting for it go on waiting. */
  lemma ItemBoundOnly(b: Bindings, items: map<ItemId, Item>, b': Bindings, attention: Attention, index: Index)
    requires Joins(b, items, attention, index)
    requires b'.Minted() && b'.Extends(b)
    ensures Joins(b', items, attention, index)
  {
    forall id | id in attention ensures EntryOk(b', items, index, id, attention[id]) {
      var e := attention[id];
      assert EntryOk(b, items, index, id, e);
      if TargetOf(e) in items { assert TargetOf(e).seed in b.items; }
    }
  }

  // ------------------------------------------------------------------ an approval arrives

  lemma NewApprovalOk(cfg: Config, b: Bindings, items: map<ItemId, Item>, index: Index, m: ApprovalNotice,
                      session: SessionId, turn: TurnId, interaction: InteractionBinding)
    requires b.Minted()
    requires forall i | i in items :: i.seed in b.items
    requires session == SessionId(m.thread) && turn == TurnId(m.turn)
    requires interaction.id == ApprovalAttention(Correlation(m.thread, m.turn, m.item, m.startedAt))
    requires m.item in index && interaction.id in index[m.item]
    ensures EntryOk(b, items, index, interaction.id, NewApproval(cfg, b, items, m, session, turn, interaction))
  {
  }

  /** A re-sent approval gets the same settled answer, because bindings are write-once. */
  lemma ResentApprovalAgrees(b: Bindings, items: map<ItemId, Item>, index: Index, id: AttentionId, e: AttentionItem,
                             b': Bindings, items': map<ItemId, Item>, index': Index, e': AttentionItem)
    requires EntryOk(b, items, index, id, e) && EntryOk(b', items', index', id, e')
    requires e'.session == e.session && e'.turn == e.turn && TargetOf(e') == TargetOf(e)
    requires b'.Extends(b)
    requires JoinOf(e') == JoinFor(b', TargetOf(e').seed, e'.session.value, e'.turn.value, TargetOf(e'))
    ensures Settled(JoinOf(e)) ==> JoinOf(e') == JoinOf(e)
  {
  }

  /** So an approval of the same scope always fits. */
  lemma SameScopeFits(s: State, m: ApprovalNotice)
    requires JoinInvariant(s) && KeyOf(m) in s.attention.stored && SameScope(s.attention.stored[KeyOf(m)], m)
    ensures Fits(s.bindings, s.attention.stored[KeyOf(m)], m)
  {
    hide Correlation;
    var b, items, index, id := s.bindings, s.items.stored, s.attention.byRawItem, KeyOf(m);
    var e := s.attention.stored[id];
    assert EntryOk(b, items, index, id, e);
    var again := WithJoin(e, JoinFor(b, m.item, SessionId(m.thread), TurnId(m.turn), ItemId(m.item)));
    if TargetOf(e) in items { assert TargetOf(e).seed in b.items; }
    ResentApprovalAgrees(b, items, index, id, e, b, items, index, again);
  }

  lemma ApprovalArrives(b: Bindings, items: map<ItemId, Item>, b': Bindings, attention: Attention, index: Index,
                        raw: string, id: AttentionId, entry: AttentionItem)
    requires Joins(b, items, attention, index)
    requires b'.Minted() && b'.Extends(b)
    requires EntryOk(b', items, IndexWith(index, raw, id), id, entry)
    requires TargetOf(entry) == ItemId(raw)
    requires id in attention ==>
      && IsApproval(attention[id]) && TargetOf(attention[id]) == TargetOf(entry)
      && (Settled(JoinOf(attention[id])) ==> JoinOf(attention[id]) == JoinOf(entry))
    ensures Joins(b', items, attention[id := entry], IndexWith(index, raw, id))
    ensures KeepsSettled(attention, attention[id := entry])
  {
    ItemBoundOnly(b, items, b', attention, index);
    var index' := IndexWith(index, raw, id);
    var attention' := attention[id := entry];
    forall i | i in attention' ensures EntryOk(b', items, index', i, attention'[i]) {
      if i != id {
        assert EntryOk(b', items, index, i, attention[i]);
        assert forall r | r in index :: r in index' && (forall x | x in index[r] :: x in index'[r]);
      }
    }
    forall r, i | r in index' && i in index'[r] ensures ListedOk(attention', r, i) {
      if !(r == raw && i == id) {
        assert r in index && i in index[r];
        assert ListedOk(attention, r, i);
      }
    }
  }

  // ------------------------------------------------------------------ one step

  /** What one step of the reducer keeps, whether it was accepted or not. */
  ghost predicate Advances(s: State, s': State, accepted: bool) {
    && JoinInvariant(s')
    && KeepsSettled(s.attention.stored, s'.attention.stored)
    && s'.bindings.Extends(s.bindings)
    && (accepted && BoundItemsStored(s) ==> BoundItemsStored(s'))
  }

  /** At most one session or turn binding was added. */
  ghost predicate ScopeBound(rt: RuntimeId, b: Bindings, b': Bindings) {
    || b' == b
    || (exists raw :: b' == b.BindSession(rt, raw))
    || (exists raw, session :: b' == b.BindTurn(rt, raw, session))
  }

  /** A step that leaves items and approvals alone. */
  ghost predicate Quiet(rt: RuntimeId, s: State, s': State) {
    s'.attention == s.attention && s'.items == s.items && ScopeBound(rt, s.bindings, s'.bindings)
  }

  lemma BindSessionGrows(rt: RuntimeId, b: Bindings, raw: string)
    requires b.Minted()
    ensures b.BindSession(rt, raw).Minted() && b.BindSession(rt, raw).Extends(b)
  {
  }

  lemma BindTurnGrows(rt: RuntimeId, b: Bindings, raw: string, session: SessionId)
    requires b.Minted()
    ensures b.BindTurn(rt, raw, session).Minted() && b.BindTurn(rt, raw, session).Extends(b)
  {
  }

  lemma ScopeBoundGrows(rt: RuntimeId, b: Bindings, b': Bindings)
    requires b.Minted() && ScopeBound(rt, b, b')
    ensures b'.Minted() && b'.Extends(b) && b'.items == b.items
  {
    if raw :| b' == b.BindSession(rt, raw) {
      BindSessionGrows(rt, b, raw);
    } else if raw, session :| b' == b.BindTurn(rt, raw, session) {
      BindTurnGrows(rt, b, raw, session);
    }
  }

  lemma QuietAdvances(rt: RuntimeId, s: State, s': State, accepted: bool)
    requires JoinInvariant(s) && Quiet(rt, s, s')
    ensures Advances(s, s', accepted)
  {
    ScopeBoundGrows(rt, s.bindings, s'.bindings);
    ItemBoundOnly(s.bindings, s.items.stored, s'.bindings, s.attention.stored, s.attention.byRawItem);
  }

  lemma SettledTransitive(a: Attention, b: Attention, c: Attention)
    requires KeepsSettled(a, b) && KeepsSettled(b, c)
    ensures KeepsSettled(a, c)
  {
    forall id | id in a ensures SameIfSettled(a, c, id) {
      assert SameIfSettled(a, b, id);
      if id in b { assert SameIfSettled(b, c, id); }
    }
  }

  lemma AdvancesTransitive(s: State, s': State, s'': State, accepted: bool)
    requires Advances(s, s', accepted) && Advances(s', s'', accepted)
    ensures Advances(s, s'', accepted)
  {
    SettledTransitive(s.attention.stored, s'.attention.stored, s''.attention.stored);
  }

  lemma UnresolvedExactly(b: Bindings, items: map<ItemId, Item>, attention: Attention, index: Index)
    requires Joins(b, items, attention, index)
    ensures forall id | id in attention :: id in Unresolved(attention) <==> JoinDeferredIn(attention[id])
  {
    forall id | id in attention ensures id in Unresolved(attention) <==> JoinDeferredIn(attention[id]) {
      assert EntryOk(b, items, index, id, attention[id]);
      UnresolvedAreDeferred(attention, id);
    }
  }

  lemma EntriesReplaced(s: State, s': State)
    requires JoinInvariant(s)
    requires s'.bindings == s.bindings && s'.items == s.items
    requires Joins(s.bindings, s.items.stored, s'.attention.stored, s'.attention.byRawItem)
    requires KeepsSettled(s.attention.stored, s'.attention.stored)
    ensures Advances(s, s', true)
  {
  }

  lemma FinishState(s: State)
    ensures
      var s' := Finish(s).state;
      && s'.bindings == s.bindings && s'.items == s.items
      && s'.attention == Entries(ClosedAttention(s.attention.stored, Unresolved(s.attention.stored)),
        s.attention.byRawItem)
  {
  }

  ghost predicate NothingWaits(attention: Attention) {
    forall id | id in attention :: !JoinDeferredIn(attention[id])
  }

  lemma ClosingSettlesAll(b: Bindings, items: map<ItemId, Item>, attention: Attention, index: Index)
    requires Joins(b, items, attention, index)
    ensures Joins(b, items, ClosedAttention(attention, Unresolved(attention)), index)
    ensures KeepsSettled(attention, ClosedAttention(attention, Unresolved(attention)))
    ensures NothingWaits(ClosedAttention(attention, Unresolved(attention)))
  {
    UnresolvedExactly(b, items, attention, index);
    ClosingKeepsJoins(b, items, attention, index, Unresolved(attention));
    ClosedEntries(attention, Unresolved(attention));
  }

  /** Closing the observation window leaves no approval waiting. */
  lemma FinishAdvances(s: State)
    requires JoinInvariant(s)
    ensures Advances(s, Finish(s).state, true)
    ensures NothingWaits(Finish(s).state.attention.stored)
  {
    hide Finish;
    FinishState(s);
    ClosingSettlesAll(s.bindings, s.items.stored, s.attention.stored, s.attention.byRawItem);
    EntriesReplaced(s, Finish(s).state);
  }

  lemma BootstrapSessionQuiet(cfg: Config, s: State, f: Fields, at: int)
    ensures Quiet(cfg.runtime, s, BootstrapSession(cfg, s, f, at).state)
  {
  }

  lemma TurnCreatedQuiet(cfg: Config, s: State, f: Fields, at: int, origin: TurnOrigin)
    ensures Quiet(cfg.runtime, s, ReduceTurnCreated(cfg, s, f, at, origin).state)
  {
  }

  lemma RuntimeAcceptanceQuiet(cfg: Config, s: State, command: CommandId, at: int)
    ensures
      var s' := RuntimeAcceptance(cfg, s, command, at).state;
      s'.attention == s.attention && s'.items == s.items && s'.bindings == s.bindings
  {
  }

  lemma TurnResponseQuiet(cfg: Config, s: State, id: int, frame: Frame, at: int)
    ensures Quiet(cfg.runtime, s, ReduceTurnResponse(cfg, s, id, frame, at).state)
  {
    var control := s.calls.control;
    var s1 := s.(calls := s.calls.(control := control - {id}));
    var origin := if id in control then RemoteCommand(control[id]) else cfg.turnOrigin;
    TurnCreatedQuiet(cfg, s1, frame.fields, at, origin);
    if id in control {
      RuntimeAcceptanceQuiet(cfg, ReduceTurnCreated(cfg, s1, frame.fields, at, origin).state, control[id], at);
    }
  }

  lemma ClientResponseQuiet(cfg: Config, s: State, id: int, frame: Frame, at: int)
    ensures Quiet(cfg.runtime, s, ReduceClientResponse(cfg, s, id, frame, at).state)
  {
    var s1 := s.(calls := s.calls.(client := s.calls.client - {id}));
    BootstrapSessionQuiet(cfg, s1, frame.fields, at);
    TurnResponseQuiet(cfg, s1, id, frame, at);
  }

  lemma TurnTransitionQuiet(cfg: Config, s: State, f: Fields, at: int)
    ensures Quiet(cfg.runtime, s, ReduceTurnTransition(cfg, s, false, f, at).state)
  {
  }

  /** A completed turn is a turn transition followed by closing the observation window. */
  lemma TurnCompletedCloses(cfg: Config, s: State, f: Fields, at: int)
    ensures
      var open, done := ReduceTurnTransition(cfg, s, false, f, at), ReduceTurnTransition(cfg, s, true, f, at);
      && open.result.Ok? == done.result.Ok?
      && (open.result.Err? ==> done == open)
      && (open.result.Ok? ==>
            done == Done(Finish(open.state).state, open.result.value + Finish(open.state).effects))
  {
  }

  lemma TurnTransitionAdvances(cfg: Config, s: State, completed: bool, f: Fields, at: int)
    requires JoinInvariant(s)
    ensures
      var o := ReduceTurnTransition(cfg, s, completed, f, at);
      Advances(s, o.state, o.result.Ok?)
  {
    hide ReduceTurnTransition, Finish;
    var open := ReduceTurnTransition(cfg, s, false, f, at);
    TurnTransitionQuiet(cfg, s, f, at);
    QuietAdvances(cfg.runtime, s, open.state, open.result.Ok?);
    if completed {
      TurnCompletedCloses(cfg, s, f, at);
      if open.result.Ok? {
        FinishAdvances(open.state);
        AdvancesTransitive(s, open.state, Finish(open.state).state, true);
      }
    }
  }

  lemma BindItemGrows(rt: RuntimeId, b: Bindings, raw: string, session: SessionId, turn: TurnId)
    requires b.Minted()
    ensures b.BindItem(rt, raw, session, turn).Minted() && b.BindItem(rt, raw, session, turn).Extends(b)
    ensures b.BindItem(rt, raw, session, turn).items.Keys == b.items.Keys + {raw}
  {
  }

  lemma BindInteractionGrows(rt: RuntimeId, b: Bindings, raw: string)
    requires b.Minted()
    ensures b.BindInteraction(rt, raw).Minted() && b.BindInteraction(rt, raw).Extends(b)
  {
  }

  lemma ExtendsTransitive(b: Bindings, b': Bindings, b'': Bindings)
    requires b'.Extends(b) && b''.Extends(b')
    ensures b''.Extends(b)
  {
  }

  lemma ItemBindingsGrow(rt: RuntimeId, b: Bindings, m: ItemNotice)
    requires m.thread in b.sessions && b.Minted()
    ensures ItemBindings(rt, b, m).Minted() && ItemBindings(rt, b, m).Extends(b)
    ensures ItemBindings(rt, b, m).items.Keys == b.items.Keys + {m.item}
  {
    var session := b.sessions[m.thread].id;
    var b1 := b.BindTurn(rt, m.turn, session);
    BindTurnGrows(rt, b, m.turn, session);
    BindItemGrows(rt, b1, m.item, session, b1.turns[m.turn].id);
    ExtendsTransitive(b, b1, ItemBindings(rt, b, m));
  }

  lemma StoreDecodedState(cfg: Config, s: State, m: ItemNotice, decoded: DecodedBody)
    requires m.thread in s.bindings.sessions
    ensures
      var s' := StoreDecoded(cfg, s, m, decoded).state;
      && s'.bindings == ItemBindings(cfg.runtime, s.bindings, m)
      && s'.items.stored.Keys == s.items.stored.Keys + {s'.bindings.items[m.item].id}
      && s'.attention.byRawItem == s.attention.byRawItem
      && s'.attention.stored ==
         UpgradedAttention(s'.bindings, s'.items.stored, m.item, s.attention.stored,
           FiledUnder(s.attention.byRawItem, m.item))
  {
  }

  lemma StoreDecodedAdvances(cfg: Config, s: State, m: ItemNotice, decoded: DecodedBody)
    requires JoinInvariant(s)
    requires m.thread in s.bindings.sessions
    ensures Advances(s, StoreDecoded(cfg, s, m, decoded).state, true)
  {
    hide StoreDecoded;
    var s' := StoreDecoded(cfg, s, m, decoded).state;
    StoreDecodedState(cfg, s, m, decoded);
    ItemBindingsGrow(cfg.runtime, s.bindings, m);
    ItemArrives(s.bindings, s.items.stored, s'.bindings, s'.items.stored,
                s.attention.stored, s.attention.byRawItem, m.item);
  }

  lemma StoreItemAdvances(cfg: Config, s: State, m: ItemNotice, started: bool, f: Fields)
    requires JoinInvariant(s)
    requires m.thread in s.bindings.sessions
    ensures
      var o := StoreItem(cfg, s, m, started, f);
      Advances(s, o.state, o.result.Ok?)
  {
    var b := ItemBindings(cfg.runtime, s.bindings, m);
    var decoded := DecodeBody(f, m.kind, b.items[m.item].id, started, s.items.agentText);
    if decoded.Err? {
      ItemBindingsGrow(cfg.runtime, s.bindings, m);
      ItemBoundOnly(s.bindings, s.items.stored, b, s.attention.stored, s.attention.byRawItem);
    } else {
      StoreDecodedAdvances(cfg, s, m, decoded.value);
    }
  }

  lemma ItemAdvances(cfg: Config, s: State, started: bool, f: Fields, at: int)
    requires JoinInvariant(s)
    ensures
      var o := ReduceItem(cfg, s, started, f, at);
      Advances(s, o.state, o.result.Ok?)
  {
    var m := DecodeItemNotice(f, started);
    if m.Ok? && m.value.thread in s.bindings.sessions && Decodable(m.value.kind) {
      StoreItemAdvances(cfg, s, m.value, started, f);
    } else {
      var o := ReduceItem(cfg, s, started, f, at);
      QuietAdvances(cfg.runtime, s, o.state, o.result.Ok?);
    }
  }

  lemma ApprovalBindingsGrow(rt: RuntimeId, b: Bindings, m: ApprovalNotice)
    requires m.thread in b.sessions && b.Minted()
    ensures
      var b' := ApprovalBindings(rt, b, m);
      b'.Minted() && b'.Extends(b) && b'.items == b.items
  {
    var b1 := b.BindTurn(rt, m.turn, b.sessions[m.thread].id);
    BindTurnGrows(rt, b, m.turn, b.sessions[m.thread].id);
    BindInteractionGrows(rt, b1, Correlation(m.thread, m.turn, m.item, m.startedAt));
    ExtendsTransitive(b, b1, ApprovalBindings(rt, b, m));
  }

  lemma FileApprovalState(cfg: Config, s: State, requestId: int, m: ApprovalNotice, at: int)
    requires m.thread in s.bindings.sessions
    ensures
      var o := FileApproval(cfg, s, requestId, m, at);
      var b := ApprovalBindings(cfg.runtime, s.bindings, m);
      var interaction := b.interactions[Correlation(m.thread, m.turn, m.item, m.startedAt)];
      var entry := NewApproval(cfg, b, s.items.stored, m, s.bindings.sessions[m.thread].id, b.turns[m.turn].id,
        interaction);
      && o.state.bindings == b && o.state.items == s.items
      && o.state.attention == Entries(s.attention.stored[interaction.id := entry],
                                      IndexWith(s.attention.byRawItem, m.item, interaction.id))
  {
  }

  lemma IndexedUnder(index: Index, raw: string, id: AttentionId)
    ensures raw in IndexWith(index, raw, id) && id in IndexWith(index, raw, id)[raw]
  {
  }

  lemma FileApprovalAdvances(cfg: Config, s: State, requestId: int, m: ApprovalNotice, at: int)
    requires JoinInvariant(s)
    requires m.thread in s.bindings.sessions
    requires KeyOf(m) in s.attention.stored ==> Fits(s.bindings, s.attention.stored[KeyOf(m)], m)
    ensures Advances(s, FileApproval(cfg, s, requestId, m, at).state, FileApproval(cfg, s, requestId, m, at).result.Ok?)
  {
    hide Correlation, Summarise, JoinHolds, FileApproval, IndexWith;
    IndexedUnder(s.attention.byRawItem, m.item, KeyOf(m));
    var session := s.bindings.sessions[m.thread].id;
    var b := ApprovalBindings(cfg.runtime, s.bindings, m);
    var interaction := b.interactions[Correlation(m.thread, m.turn, m.item, m.startedAt)];
    var turn := b.turns[m.turn].id;
    var entry := NewApproval(cfg, b, s.items.stored, m, session, turn, interaction);
    var index := IndexWith(s.attention.byRawItem, m.item, interaction.id);
    ApprovalBindingsGrow(cfg.runtime, s.bindings, m);
    NewApprovalOk(cfg, b, s.items.stored, index, m, session, turn, interaction);
    ApprovalArrives(s.bindings, s.items.stored, b, s.attention.stored, s.attention.byRawItem, m.item, interaction.id,
      entry);
    FileApprovalState(cfg, s, requestId, m, at);
  }

  /** Answering an approval changes its state only. */
  lemma AnswerKeepsJoins(b: Bindings, items: map<ItemId, Item>, attention: Attention, index: Index, id: AttentionId,
                         state: AttentionState)
    requires Joins(b, items, attention, index) && id in attention
    ensures Joins(b, items, attention[id := attention[id].(state := state)], index)
    ensures KeepsSettled(attention, attention[id := attention[id].(state := state)])
  {
    var later := attention[id := attention[id].(state := state)];
    forall i | i in attention
      ensures EntryOk(b, items, index, i, later[i]) && SameIfSettled(attention, later, i)
      ensures TargetOf(later[i]) == TargetOf(attention[i])
    {
      assert EntryOk(b, items, index, i, attention[i]);
    }
    forall raw, i | raw in index && i in index[raw] ensures ListedOk(later, raw, i) {
      assert ListedOk(attention, raw, i);
    }
  }

  /** Where an approval reply can leave the stored entries. */
  lemma ApprovalReplyState(cfg: Config, s: State, requestId: int, f: Fields, at: int)
    ensures
      var s' := ReduceApprovalReply(cfg, s, requestId, f, at).state;
      && s'.bindings == s.bindings && s'.items == s.items
      && (s'.attention != s.attention ==>
            && requestId in s.approvals.pending
            && var id := s.approvals.pending[requestId].attention;
            && id in s.attention.stored && id in s'.attention.stored
            && s'.attention == s.attention.(stored :=
                 s.attention.stored[id := s.attention.stored[id].(state := s'.attention.stored[id].state)]))
  {
  }

  lemma ApprovalReplyAdvances(cfg: Config, s: State, requestId: int, f: Fields, at: int)
    requires JoinInvariant(s)
    ensures
      var o := ReduceApprovalReply(cfg, s, requestId, f, at);
      Advances(s, o.state, o.result.Ok?)
  {
    var o := ReduceApprovalReply(cfg, s, requestId, f, at);
    ApprovalReplyState(cfg, s, requestId, f, at);
    if o.state.attention == s.attention {
      QuietAdvances(cfg.runtime, s, o.state, o.result.Ok?);
    } else {
      var id := s.approvals.pending[requestId].attention;
      AnswerKeepsJoins(s.bindings, s.items.stored, s.attention.stored, s.attention.byRawItem, id,
        o.state.attention.stored[id].state);
      EntriesReplaced(s, o.state);
    }
  }

  lemma DeltaAdvances(s: State, f: Fields, at: int)
    requires JoinInvariant(s)
    ensures
      var o := ReduceDelta(s, f, at);
      Advances(s, o.state, o.result.Ok?)
  {
    var o := ReduceDelta(s, f, at);
    assert o.state.bindings == s.bindings && o.state.attention == s.attention
      && o.state.items.stored.Keys == s.items.stored.Keys;
    SameKeysKeepJoins(s.bindings, s.items.stored, o.state.items.stored, s.attention.stored, s.attention.byRawItem);
  }

  lemma SameKeysKeepJoins(b: Bindings, items: map<ItemId, Item>, items': map<ItemId, Item>, attention: Attention,
                          index: Index)
    requires Joins(b, items, attention, index)
    requires items'.Keys == items.Keys
    ensures Joins(b, items', attention, index)
  {
    forall id | id in attention ensures EntryOk(b, items', index, id, attention[id]) {
      assert EntryOk(b, items, index, id, attention[id]);
    }
    forall i | i in items' ensures i.seed in b.items {
      assert i in items;
    }
  }

  lemma NotificationAdvances(cfg: Config, s: State, m: string, f: Fields, at: int)
    requires JoinInvariant(s)
    ensures
      var o := ReduceNotification(cfg, s, m, f, at);
      Advances(s, o.state, o.result.Ok?)
  {
    hide ReduceTurnTransition, ReduceItem, ReduceDelta, Advances, JoinInvariant;
    var o := ReduceNotification(cfg, s, m, f, at);
    if m == "turn/started" || m == "turn/completed" {
      TurnTransitionAdvances(cfg, s, m == "turn/completed", f, at);
    } else if m == "item/started" || m == "item/completed" {
      ItemAdvances(cfg, s, m == "item/started", f, at);
    } else if m == "item/agentMessage/delta" {
      DeltaAdvances(s, f, at);
    } else {
      QuietAdvances(cfg.runtime, s, o.state, o.result.Ok?);
    }
  }

  lemma DispatchAdvances(cfg: Config, s: State, frame: Frame, at: int)
    requires JoinInvariant(s)
    requires ClashFree(s, Ingest(frame))
    ensures
      var o := Dispatch(cfg, s, frame, at);
      Advances(s, o.state, o.result.Ok?)
  {
    hide ReduceNotification, ReduceClientResponse, FileApproval, ReduceApprovalReply, Advances, JoinInvariant;
    var o := Dispatch(cfg, s, frame, at);
    if frame.direction == ClientToServer {
      if frame.method_.None? && frame.id.Some? {
        ApprovalReplyAdvances(cfg, s, frame.id.value, frame.fields, at);
      } else {
        QuietAdvances(cfg.runtime, s, o.state, o.result.Ok?);
      }
    } else if frame.method_.Some? {
      if frame.id.Some? && frame.method_.value == APPROVAL_METHOD {
        var m := DecodeApproval(frame.fields);
        if m.Ok? && m.value.thread in s.bindings.sessions {
          FileApprovalAdvances(cfg, s, frame.id.value, m.value, at);
        } else {
          QuietAdvances(cfg.runtime, s, o.state, o.result.Ok?);
        }
      } else {
        NotificationAdvances(cfg, s, frame.method_.value, frame.fields, at);
      }
    } else if frame.id.Some? {
      ClientResponseQuiet(cfg, s, frame.id.value, frame, at);
      QuietAdvances(cfg.runtime, s, o.state, o.result.Ok?);
    } else {
      QuietAdvances(cfg.runtime, s, o.state, o.result.Ok?);
    }
  }

  /** The joins see nothing of the probe, of publication or of the bootstrap flag. */
  ghost predicate SameRecords(s: State, s': State) {
    s'.bindings == s.bindings && s'.items == s.items && s'.attention == s.attention
  }

  lemma AdvancesModuloRecords(s: State, t: State, s': State, t': State, accepted: bool)
    requires SameRecords(s, t) && SameRecords(s', t')
    requires Advances(t, t', accepted)
    ensures Advances(s, s', accepted)
  {
  }

  lemma IngestAdvances(cfg: Config, s: State, frame: Frame)
    requires JoinInvariant(s)
    requires ClashFree(s, Ingest(frame))
    ensures
      var o := IngestFrame(cfg, s, frame);
      Advances(s, o.state, o.result.Ok?)
  {
    hide Dispatch, Advances, Joins;
    var at := Saturate(cfg.baseAt + frame.offset);
    var t := Bootstrap(s.(live := s.live.(probe := s.live.probe.Advance(at))), at).state;
    assert SameRecords(s, t);
    DispatchAdvances(cfg, t, frame, at);
    var reduced := Dispatch(cfg, t, frame, at);
    var o := IngestFrame(cfg, s, frame);
    assert SameRecords(o.state, reduced.state) && o.result.Ok? == reduced.result.Ok?;
    AdvancesModuloRecords(s, t, o.state, reduced.state, o.result.Ok?);
  }

  lemma StepAdvances(cfg: Config, s: State, input: Input)
    requires JoinInvariant(s)
    requires ClashFree(s, input)
    ensures Advances(s, Step(cfg, s, input).state, Accepted(Step(cfg, s, input).reply))
  {
    hide IngestFrame, Finish, Advances, JoinInvariant;
    var r := Step(cfg, s, input);
    if input.Ingest? {
      IngestAdvances(cfg, s, input.frame);
    } else if input.CloseWindow? {
      FinishAdvances(s);
    } else {
      QuietAdvances(cfg.runtime, s, r.state, true);
    }
  }

  // ------------------------------------------------------------------ every run

  /** Every approval the run files fits what is stored under its key. */
  ghost predicate ClashFreeRun(cfg: Config, inputs: seq<Input>) {
    forall k | 0 <= k < |inputs| :: ClashFree(Execute(cfg, inputs[..k]).state, inputs[k])
  }

  lemma ClashFreeSplits(cfg: Config, inputs: seq<Input>, n: nat)
    requires ClashFreeRun(cfg, inputs) && n < |inputs|
    ensures ClashFreeRun(cfg, inputs[..n]) && ClashFree(Execute(cfg, inputs[..n]).state, inputs[n])
  {
    hide ClashFree, Execute;
    forall k | 0 <= k < n ensures ClashFree(Execute(cfg, inputs[..n][..k]).state, inputs[..n][k]) {
      assert inputs[..n][..k] == inputs[..k];
    }
  }

  /** After every run, every stored join is true of the bindings, and the index reaches every approval. */
  lemma {:induction false} RunKeepsJoins(cfg: Config, inputs: seq<Input>)
    requires ClashFreeRun(cfg, inputs)
    ensures JoinInvariant(Execute(cfg, inputs).state)
    ensures AllAccepted(Execute(cfg, inputs).replies) ==> BoundItemsStored(Execute(cfg, inputs).state)
  {
    hide Step, ClashFree, ClashFreeRun;
    if inputs != [] {
      var front, last := inputs[..|inputs| - 1], inputs[|inputs| - 1];
      ClashFreeSplits(cfg, inputs, |inputs| - 1);
      RunKeepsJoins(cfg, front);
      var before := Execute(cfg, front);
      StepAdvances(cfg, before.state, last);
      var replies := Execute(cfg, inputs).replies;
      assert replies[..|front|] == before.replies;
      if AllAccepted(replies) {
        assert Accepted(replies[|front|]);
        assert forall i | 0 <= i < |before.replies| :: before.replies[i] == replies[i];
      }
    }
  }

  /** The item an approval refers to is bound. */
  ghost predicate ItemBound(s: State, e: AttentionItem)
    requires IsApproval(e)
  {
    TargetOf(e).seed in s.bindings.items
  }

  /**
   The join protocol. In any run, an approval shown as joined names a bound item of exactly its own
   session and turn, and one shown as mismatched names a bound item of another scope. An approval
   still waiting has no stored item; and as long as no frame has been rejected it has no bound one.
   */
  lemma JoinProtocol(cfg: Config, inputs: seq<Input>, id: AttentionId)
    requires ClashFreeRun(cfg, inputs)
    requires id in Execute(cfg, inputs).state.attention.stored
    ensures
      var run := Execute(cfg, inputs);
      var s, e := run.state, run.state.attention.stored[id];
      && IsApproval(e)
      && var raw := TargetOf(e).seed;
      && (JoinOf(e).Joined? ==>
            && JoinOf(e).item == TargetOf(e) && ItemBound(s, e)
            && s.bindings.items[raw].session == e.session.value && s.bindings.items[raw].turn == e.turn.value)
      && (JoinOf(e) == Unjoined(ScopeMismatch) ==>
            && ItemBound(s, e)
            && (s.bindings.items[raw].session != e.session.value || s.bindings.items[raw].turn != e.turn.value))
      && (JoinOf(e) == Unjoined(ItemNotYetSeen) ==> TargetOf(e) !in s.items.stored)
      && (JoinOf(e) == Unjoined(ItemNotYetSeen) && AllAccepted(run.replies) ==> !ItemBound(s, e))
  {
    RunKeepsJoins(cfg, inputs);
    var s := Execute(cfg, inputs).state;
    var e := s.attention.stored[id];
    assert EntryOk(s.bindings, s.items.stored, s.attention.byRawItem, id, e);
    assert TargetOf(e) == ItemId(TargetOf(e).seed);
    if TargetOf(e) in s.items.stored { assert TargetOf(e).seed in s.bindings.items; }
  }

  lemma {:induction false} ExecuteSplits(cfg: Config, inputs: seq<Input>, more: seq<Input>)
    requires more != []
    ensures
      var last := more[|more| - 1];
      var before := Execute(cfg, inputs + more[..|more| - 1]);
      Execute(cfg, inputs + more).state == Step(cfg, before.state, last).state
  {
    hide Step;
    var all := inputs + more;
    assert all[..|all| - 1] == inputs + more[..|more| - 1];
    assert all[|all| - 1] == more[|more| - 1];
  }

  /** Once settled, a join never changes again: not by later items, closings, replies or re-sent requests. */
  lemma {:induction false} SettledJoinsAreFinal(cfg: Config, inputs: seq<Input>, more: seq<Input>, id: AttentionId)
    requires ClashFreeRun(cfg, inputs + more)
    requires id in Execute(cfg, inputs).state.attention.stored
    requires IsApproval(Execute(cfg, inputs).state.attention.stored[id])
    requires Settled(JoinOf(Execute(cfg, inputs).state.attention.stored[id]))
    ensures
      var later := Execute(cfg, inputs + more).state.attention.stored;
      && id in later && IsApproval(later[id])
      && JoinOf(later[id]) == JoinOf(Execute(cfg, inputs).state.attention.stored[id])
    decreases |more|
  {
    hide Step, Joins, ClashFree, ClashFreeRun, JoinInvariant;
    if more == [] {
      assert inputs + more == inputs;
    } else {
      var front, last := more[..|more| - 1], more[|more| - 1];
      assert (inputs + more)[..|inputs + more| - 1] == inputs + front;
      assert (inputs + more)[|inputs + more| - 1] == last;
      ClashFreeSplits(cfg, inputs + more, |inputs + front|);
      SettledJoinsAreFinal(cfg, inputs, front, id);
      var s := Execute(cfg, inputs + front).state;
      RunKeepsJoins(cfg, inputs + front);
      StepAdvances(cfg, s, last);
      ExecuteSplits(cfg, inputs, more);
      assert SameIfSettled(s.attention.stored, Step(cfg, s, last).state.attention.stored, id);
    }
  }
}
