/**
 The emitted effect stream mirrors the reducer's state, over every run, rejected frames included:
 the last upsert of an item or approval in the stream is what is stored, except that the join of an
 approval answered by a local command is refreshed silently. Which steps refresh which approvals
 silently shows in the state before them.
 */
module CodexMirror {
  import opened Prelude
  import opened StringOrder
  import opened Canonical
  import opened Capability
  import opened CodexWire
  import opened CodexBindings
  import opened CodexStep
  import opened CodexRun
  import CodexJoin

  // ------------------------------------------------------------------ the last upsert in a stream

  function LastItem(effects: seq<Effect>, id: ItemId): Option<Item> {
    if effects == [] then None
    else
      var e := effects[|effects| - 1];
      if e.ItemUpserted? && e.item.id == id then Some(e.item) else LastItem(effects[..|effects| - 1], id)
  }

  function LastEntry(effects: seq<Effect>, id: AttentionId): Option<AttentionItem> {
    if effects == [] then None
    else
      var e := effects[|effects| - 1];
      if e.AttentionUpserted? && e.attention.id == id then Some(e.attention)
        else LastEntry(effects[..|effects| - 1], id)
  }

  function Or<T>(a: Option<T>, b: Option<T>): Option<T> { if a.Some? then a else b }

  lemma {:induction false} LastItemAppend(xs: seq<Effect>, ys: seq<Effect>, id: ItemId)
    ensures LastItem(xs + ys, id) == Or(LastItem(ys, id), LastItem(xs, id))
  {
    if ys == [] {
      assert xs + ys == xs;
    } else {
      assert (xs + ys)[..|xs + ys| - 1] == xs + ys[..|ys| - 1];
      LastItemAppend(xs, ys[..|ys| - 1], id);
    }
  }

  lemma {:induction false} LastEntryAppend(xs: seq<Effect>, ys: seq<Effect>, id: AttentionId)
    ensures LastEntry(xs + ys, id) == Or(LastEntry(ys, id), LastEntry(xs, id))
  {
    if ys == [] {
      assert xs + ys == xs;
    } else {
      assert (xs + ys)[..|xs + ys| - 1] == xs + ys[..|ys| - 1];
      LastEntryAppend(xs, ys[..|ys| - 1], id);
    }
  }

  predicate Upserts(e: Effect) { e.ItemUpserted? || (e.AttentionUpserted? && e.attention.id.ApprovalAttention?) }

  /** A stretch of the stream that says nothing about items or approvals. */
  predicate Silent(effects: seq<Effect>) {
    forall i | 0 <= i < |effects| :: !Upserts(effects[i])
  }

  lemma {:induction false} SilentHasNoLast(effects: seq<Effect>, item: ItemId, entry: AttentionId)
    requires Silent(effects) && entry.ApprovalAttention?
    ensures LastItem(effects, item) == None && LastEntry(effects, entry) == None
  {
    if effects != [] {
      assert !Upserts(effects[|effects| - 1]);
      SilentHasNoLast(effects[..|effects| - 1], item, entry);
    }
  }

  lemma {:induction false} PlaceSplits(effects: seq<Effect>, e: Effect) returns (k: nat)
    ensures k <= |effects| && Place(effects, e) == effects[..k] + [e] + effects[k..]
  {
    if effects == [] || PromotesControl(effects[0]) {
      k := 0;
    } else {
      var k' := PlaceSplits(effects[1..], e);
      k := k' + 1;
      assert effects[..k] == [effects[0]] + effects[1..][..k'];
    }
  }

  lemma PlaceKeepsLast(effects: seq<Effect>, e: Effect, item: ItemId, entry: AttentionId)
    requires !Upserts(e) && entry.ApprovalAttention?
    ensures LastItem(Place(effects, e), item) == LastItem(effects, item)
    ensures LastEntry(Place(effects, e), entry) == LastEntry(effects, entry)
  {
    var k := PlaceSplits(effects, e);
    var a, c := effects[..k], effects[k..];
    assert effects == a + c;
    SilentHasNoLast([e], item, entry);
    LastItemAppend(a + [e], c, item);
    LastItemAppend(a, [e], item);
    LastItemAppend(a, c, item);
    LastEntryAppend(a + [e], c, entry);
    LastEntryAppend(a, [e], entry);
    LastEntryAppend(a, c, entry);
  }

  // ------------------------------------------------------------------ what one step owes the stream

  function Lookup<K, V>(m: map<K, V>, k: K): Option<V> { if k in m then Some(m[k]) else None }

  /** Equal except for the join and the summary derived from it. */
  ghost predicate SameButJoin(e: AttentionItem, e': AttentionItem) {
    || e == e'
    || (e.subject.Approval? && e'.subject.Approval?
        && e' == WithJoinAndSummary(e, e'.subject.request.join, e'.subject.request.summary))
  }

  /** The stored items change exactly as the effects say. */
  ghost predicate ItemMirrored(stored: map<ItemId, Item>, stored': map<ItemId, Item>, effects: seq<Effect>,
                               id: ItemId) {
    Lookup(stored', id) == Or(LastItem(effects, id), Lookup(stored, id))
  }

  /** An approval in `quiet` stops waiting without a word; any other changes exactly as the effects say. */
  ghost predicate EntryMirrored(stored: Attention, stored': Attention, quiet: set<AttentionId>, effects: seq<Effect>,
                                id: AttentionId) {
    if id in quiet then
      && LastEntry(effects, id).None? && id in stored && id in stored' && SameButJoin(stored[id], stored'[id])
      && JoinDeferredIn(stored[id]) && !JoinDeferredIn(stored'[id])
    else Lookup(stored', id) == Or(LastEntry(effects, id), Lookup(stored, id))
  }

  /** Identifiers are filed under themselves. */
  ghost predicate Filed(s: State) {
    && s.bindings.Minted()
    && (forall id | id in s.items.stored :: s.items.stored[id].id == id)
    && (forall id | id in s.attention.stored :: id.ApprovalAttention? && s.attention.stored[id].id == id)
  }

  ghost predicate Mirrors(s: State, s': State, effects: seq<Effect>, quiet: set<AttentionId>) {
    && Filed(s')
    && quiet <= s.approvals.locallyAnswered <= s'.approvals.locallyAnswered
    && (forall id :: ItemMirrored(s.items.stored, s'.items.stored, effects, id))
    && (forall id: AttentionId | id.ApprovalAttention? ::
          EntryMirrored(s.attention.stored, s'.attention.stored, quiet, effects, id))
  }

  // ------------------------------------------------------------------ which approvals are refreshed silently

  /** The locally answered approvals that the arrival of an item takes off waiting. */
  function QuietStore(s: State, raw: string): set<AttentionId> {
    set id | id in s.attention.stored && id in FiledUnder(s.attention.byRawItem, raw)
             && id in s.approvals.locallyAnswered && Upgradable(s.attention.stored, id)
  }

  /** The locally answered approvals that are still waiting. */
  function QuietClose(s: State): set<AttentionId> {
    set id | id in s.attention.stored && id in s.approvals.locallyAnswered && JoinDeferredIn(s.attention.stored[id])
  }

  /** The item notification is one that is stored: its session is bound and its body decodes. */
  function StoredNotice(cfg: Config, s: State, started: bool, f: Fields): (m: Option<ItemNotice>)
    ensures m.Some? ==> m.value.thread in s.bindings.sessions
  {
    var m := DecodeItemNotice(f, started);
    if m.Err? || m.value.thread !in s.bindings.sessions || !Decodable(m.value.kind) then None
    else
      var id := ItemBindings(cfg.runtime, s.bindings, m.value).items[m.value.item].id;
      if DecodeBody(f, m.value.kind, id, started, s.items.agentText).Ok? then Some(m.value) else None
  }

  function QuietItem(cfg: Config, s: State, started: bool, f: Fields): set<AttentionId> {
    var m := StoredNotice(cfg, s, started, f);
    if m.Some? then QuietStore(s, m.value.item) else {}
  }

  /** A turn notification that is accepted. */
  predicate NotesTurn(s: State, f: Fields) {
    var m := DecodeTurnNotice(f);
    m.Ok? && m.value.thread in s.bindings.sessions && TurnStatusOf(m.value.status, TurnNotificationStatus).Ok?
  }

  function QuietNotice(cfg: Config, s: State, m: string, f: Fields): set<AttentionId> {
    if m == "item/started" || m == "item/completed" then QuietItem(cfg, s, m == "item/started", f)
    else if m == "turn/completed" && NotesTurn(s, f) then QuietClose(s)
    else {}
  }

  function QuietFrame(cfg: Config, s: State, frame: Frame): set<AttentionId> {
    if frame.direction == ClientToServer || frame.method_.None? then {}
    else QuietNotice(cfg, s, frame.method_.value, frame.fields)
  }

  /** The approvals that a step refreshes without a word. */
  function Quietly(cfg: Config, s: State, input: Input): set<AttentionId> {
    match input
    case Ingest(frame) => QuietFrame(cfg, s, frame)
    case CloseWindow => QuietClose(s)
    case _ => {}
  }

  // ------------------------------------------------------------------ the two loops

  /** An upgraded approval keeps its identifier and does not wait any more. */
  lemma UpgradedSettles(b: Bindings, items: map<ItemId, Item>, raw: string, attention: Attention, id: AttentionId)
    requires raw in b.items && Upgradable(attention, id)
    ensures !JoinDeferredIn(Upgraded(b, items, raw, attention[id]))
      && Upgraded(b, items, raw, attention[id]).id == attention[id].id
  {
    hide Summarise;
  }

  lemma OneEntryLast(e: AttentionItem, id: AttentionId)
    ensures LastEntry([AttentionUpserted(e)], id) == if e.id == id then Some(e) else None
  {
    assert [AttentionUpserted(e)][..0] == [];
    assert LastEntry([], id) == None;
  }

  /** What the upgrade loop says of one approval. */
  lemma {:induction false} UpgradeEffectsLast(b: Bindings, items: map<ItemId, Item>, raw: string, attention: Attention,
                                              local: set<AttentionId>, ids: seq<AttentionId>, id: AttentionId)
    requires raw in b.items && forall i | i in attention :: attention[i].id == i
    ensures LastEntry(UpgradeEffects(b, items, raw, attention, local, ids), id) ==
      if id in ids && Upgradable(attention, id) && id !in local then Some(Upgraded(b, items, raw, attention[id]))
        else None
  {
    hide Upgraded, LastEntry, UpgradedAttention, JoinDeferredIn;
    if ids == [] {
      SilentHasNothing(id);
    } else {
      var front, last := ids[..|ids| - 1], ids[|ids| - 1];
      assert ids == front + [last];
      UpgradeEffectsLast(b, items, raw, attention, local, front, id);
      CodexJoin.UpgradedEntries(b, items, raw, attention, front);
      if Upgradable(attention, last) { UpgradedSettles(b, items, raw, attention, last); }
      var before := UpgradedAttention(b, items, raw, attention, front);
      var fx := UpgradeEffects(b, items, raw, attention, local, front);
      NotWaiting(b, items, raw, attention, front, last);
      if Upgradable(before, last) && last !in local {
        LastEntryAppend(fx, [AttentionUpserted(Upgraded(b, items, raw, before[last]))], id);
        OneEntryLast(Upgraded(b, items, raw, before[last]), id);
      } else {
        assert fx + [] == fx;
      }
    }
  }

  lemma SilentHasNothing(id: AttentionId)
    ensures LastEntry([], id) == None
  {
  }

  /** The loop meets an approval as it was, unless it has upgraded it already. */
  lemma NotWaiting(b: Bindings, items: map<ItemId, Item>, raw: string, attention: Attention, ids: seq<AttentionId>,
                   id: AttentionId)
    requires raw in b.items
    ensures
      var before := UpgradedAttention(b, items, raw, attention, ids);
      && (Upgradable(before, id) <==> Upgradable(attention, id) && id !in ids)
      && (Upgradable(before, id) ==> before[id] == attention[id])
  {
    hide UpgradedAttention, Summarise;
    CodexJoin.UpgradedEntries(b, items, raw, attention, ids);
  }

  lemma UpgradeMirrors(b: Bindings, items: map<ItemId, Item>, raw: string, attention: Attention,
                       local: set<AttentionId>, ids: seq<AttentionId>, quiet: set<AttentionId>, id: AttentionId)
    requires raw in b.items && forall i | i in attention :: attention[i].id == i
    requires id in quiet <==> id in attention && id in ids && id in local && Upgradable(attention, id)
    ensures EntryMirrored(attention, UpgradedAttention(b, items, raw, attention, ids), quiet,
                          UpgradeEffects(b, items, raw, attention, local, ids), id)
  {
    UpgradeEffectsLast(b, items, raw, attention, local, ids, id);
    CodexJoin.UpgradedEntries(b, items, raw, attention, ids);
  }

  lemma {:induction false} UpgradeEffectsNoItem(b: Bindings, items: map<ItemId, Item>, raw: string,
                                                attention: Attention,
                                                local: set<AttentionId>, ids: seq<AttentionId>, id: ItemId)
    ensures LastItem(UpgradeEffects(b, items, raw, attention, local, ids), id) == None
  {
    if ids != [] {
      var front, last := ids[..|ids| - 1], ids[|ids| - 1];
      UpgradeEffectsNoItem(b, items, raw, attention, local, front, id);
      var before := UpgradedAttention(b, items, raw, attention, front);
      var fx := UpgradeEffects(b, items, raw, attention, local, front);
      if Upgradable(before, last) && last !in local {
        LastItemAppend(fx, [AttentionUpserted(Upgraded(b, items, raw, before[last]))], id);
      } else {
        LastItemAppend(fx, [], id);
      }
    }
  }

  lemma {:induction false} ClosingEffectsLast(attention: Attention, d: Diagnostics, session: Option<SessionId>,
                                              local: set<AttentionId>, ids: seq<AttentionId>, id: AttentionId)
    requires forall i | i in attention :: attention[i].id == i
    ensures LastEntry(ClosingEffects(attention, d, session, local, ids), id) ==
      if id in ids && id in attention && id !in local then Some(Closed(attention[id])) else None
  {
    if ids != [] {
      var front, last := ids[..|ids| - 1], ids[|ids| - 1];
      assert ids == front + [last];
      ClosingEffectsLast(attention, d, session, local, front, id);
      var fx := ClosingEffects(attention, d, session, local, front);
      if last in attention {
        var note := [DiagnosticRecorded(RecordFor(ClosedDiagnostics(attention, d, session, front),
                                                  JoinFailed, session, None, attention[last].createdAt))];
        var upsert := if last in local then [] else [AttentionUpserted(Closed(attention[last]))];
        LastEntryAppend(fx, upsert + note, id);
        LastEntryAppend(upsert, note, id);
      } else {
        LastEntryAppend(fx, [], id);
      }
    }
  }

  lemma {:induction false} ClosingEffectsNoItem(attention: Attention, d: Diagnostics, session: Option<SessionId>,
                                                local: set<AttentionId>, ids: seq<AttentionId>, id: ItemId)
    ensures LastItem(ClosingEffects(attention, d, session, local, ids), id) == None
  {
    if ids != [] {
      var front, last := ids[..|ids| - 1], ids[|ids| - 1];
      ClosingEffectsNoItem(attention, d, session, local, front, id);
      var fx := ClosingEffects(attention, d, session, local, front);
      if last in attention {
        var note := [DiagnosticRecorded(RecordFor(ClosedDiagnostics(attention, d, session, front),
                                                  JoinFailed, session, None, attention[last].createdAt))];
        var upsert := if last in local then [] else [AttentionUpserted(Closed(attention[last]))];
        LastItemAppend(fx, upsert + note, id);
        LastItemAppend(upsert, note, id);
      } else {
        LastItemAppend(fx, [], id);
      }
    }
  }

  // ------------------------------------------------------------------ each reducer

  /** Neither items nor approvals were touched, and nothing was said about them. */
  ghost predicate Unsaid(s: State, s': State, effects: seq<Effect>) {
    && s'.items.stored == s.items.stored && s'.attention.stored == s.attention.stored
    && s'.approvals.locallyAnswered == s.approvals.locallyAnswered
    && Silent(effects)
  }

  lemma UnsaidMirrors(s: State, s': State, effects: seq<Effect>)
    requires Filed(s) && s'.bindings.Minted() && Unsaid(s, s', effects)
    ensures Mirrors(s, s', effects, {})
  {
    forall item: ItemId ensures ItemMirrored(s.items.stored, s'.items.stored, effects, item) {
      SilentHasNoLast(effects, item, ApprovalAttention(""));
    }
    forall id: AttentionId | id.ApprovalAttention?
      ensures EntryMirrored(s.attention.stored, s'.attention.stored, {}, effects, id)
    {
      SilentHasNoLast(effects, ItemId(""), id);
    }
  }

  lemma FinishMirrors(s: State)
    requires Filed(s)
    ensures Mirrors(s, Finish(s).state, Finish(s).effects, QuietClose(s))
  {
    var entries := s.attention.stored;
    var ids := Unresolved(entries);
    var local := s.approvals.locallyAnswered;
    var closed := ClosedAttention(entries, ids);
    var fx := ClosingEffects(entries, s.diagnostics, s.live.sessionId, local, ids);
    CodexJoin.ClosedEntries(entries, ids);
    forall item: ItemId ensures ItemMirrored(s.items.stored, s.items.stored, fx, item) {
      ClosingEffectsNoItem(entries, s.diagnostics, s.live.sessionId, local, ids, item);
    }
    forall id: AttentionId | id.ApprovalAttention? ensures EntryMirrored(entries, closed, QuietClose(s), fx, id) {
      ClosingEffectsLast(entries, s.diagnostics, s.live.sessionId, local, ids, id);
      if id in entries { CodexJoin.UnresolvedAreDeferred(entries, id); }
    }
  }

  /** The parts of the state the mirror looks at. */
  ghost predicate SameStores(s: State, s': State) {
    && s'.bindings == s.bindings && s'.items.stored == s.items.stored && s'.attention.stored == s.attention.stored
    && s'.approvals.locallyAnswered == s.approvals.locallyAnswered
  }

  /** Silent effects before or after a mirrored step do not disturb it. */
  lemma PaddedMirrors(s: State, t: State, u: State, u': State, pre: seq<Effect>, effects: seq<Effect>,
                      quiet: set<AttentionId>)
    requires s.items.stored == t.items.stored && s.attention.stored == t.attention.stored
    requires s.approvals.locallyAnswered == t.approvals.locallyAnswered
    requires Silent(pre) && Mirrors(t, u, effects, quiet) && SameStores(u, u')
    ensures Mirrors(s, u', pre + effects, quiet)
  {
    forall item: ItemId ensures ItemMirrored(s.items.stored, u'.items.stored, pre + effects, item) {
      assert ItemMirrored(t.items.stored, u.items.stored, effects, item);
      SilentHasNoLast(pre, item, ApprovalAttention(""));
      LastItemAppend(pre, effects, item);
    }
    forall id: AttentionId | id.ApprovalAttention?
      ensures EntryMirrored(s.attention.stored, u'.attention.stored, quiet, pre + effects, id)
    {
      assert EntryMirrored(t.attention.stored, u.attention.stored, quiet, effects, id);
      SilentHasNoLast(pre, ItemId(""), id);
      LastEntryAppend(pre, effects, id);
    }
  }

  lemma PlacedMirrors(s: State, u: State, u': State, effects: seq<Effect>, e: Effect, quiet: set<AttentionId>)
    requires Mirrors(s, u, effects, quiet) && SameStores(u, u') && !Upserts(e)
    ensures Mirrors(s, u', Place(effects, e), quiet)
  {
    forall item: ItemId ensures ItemMirrored(s.items.stored, u'.items.stored, Place(effects, e), item) {
      assert ItemMirrored(s.items.stored, u.items.stored, effects, item);
      PlaceKeepsLast(effects, e, item, ApprovalAttention(""));
    }
    forall id: AttentionId | id.ApprovalAttention?
      ensures EntryMirrored(s.attention.stored, u'.attention.stored, quiet, Place(effects, e), id)
    {
      assert EntryMirrored(s.attention.stored, u.attention.stored, quiet, effects, id);
      PlaceKeepsLast(effects, e, ItemId(""), id);
    }
  }

  lemma QuietOutcomeMirrors(rt: RuntimeId, s: State, o: Outcome)
    requires Filed(s)
    requires CodexJoin.ScopeBound(rt, s.bindings, o.state.bindings)
    requires Unsaid(s, o.state, Said(o))
    ensures Mirrors(s, o.state, Said(o), {})
  {
    CodexJoin.ScopeBoundGrows(rt, s.bindings, o.state.bindings);
    UnsaidMirrors(s, o.state, Said(o));
  }

  lemma BootstrapSessionUnsaid(cfg: Config, s: State, f: Fields, at: int)
    ensures Unsaid(s, BootstrapSession(cfg, s, f, at).state, Said(BootstrapSession(cfg, s, f, at)))
  {
    hide ReadText;
  }

  lemma TurnCreatedUnsaid(cfg: Config, s: State, f: Fields, at: int, origin: TurnOrigin)
    ensures Unsaid(s, ReduceTurnCreated(cfg, s, f, at, origin).state, Said(ReduceTurnCreated(cfg, s, f, at, origin)))
  {
    hide DecodeTurnCreated;
  }

  lemma RuntimeAcceptanceUnsaid(cfg: Config, s: State, command: CommandId, at: int)
    ensures Unsaid(s, RuntimeAcceptance(cfg, s, command, at).state, Said(RuntimeAcceptance(cfg, s, command, at)))
  {
  }

  lemma TurnResponseUnsaid(cfg: Config, s: State, id: int, frame: Frame, at: int)
    ensures Unsaid(s, ReduceTurnResponse(cfg, s, id, frame, at).state, Said(ReduceTurnResponse(cfg, s, id, frame, at)))
  {
    hide ReduceTurnCreated, RuntimeAcceptance;
    var control := s.calls.control;
    var s1 := s.(calls := s.calls.(control := control - {id}));
    var origin := if id in control then RemoteCommand(control[id]) else cfg.turnOrigin;
    TurnCreatedUnsaid(cfg, s1, frame.fields, at, origin);
    if id in control {
      RuntimeAcceptanceUnsaid(cfg, ReduceTurnCreated(cfg, s1, frame.fields, at, origin).state, control[id], at);
    }
  }

  lemma ClientResponseUnsaid(cfg: Config, s: State, id: int, frame: Frame, at: int)
    ensures Unsaid(s, ReduceClientResponse(cfg, s, id, frame, at).state,
      Said(ReduceClientResponse(cfg, s, id, frame, at)))
  {
    hide BootstrapSession, ReduceTurnResponse;
    var s1 := s.(calls := s.calls.(client := s.calls.client - {id}));
    BootstrapSessionUnsaid(cfg, s1, frame.fields, at);
    TurnResponseUnsaid(cfg, s1, id, frame, at);
  }

  lemma TurnTransitionUnsaid(cfg: Config, s: State, f: Fields, at: int)
    ensures Unsaid(s, ReduceTurnTransition(cfg, s, false, f, at).state,
      Said(ReduceTurnTransition(cfg, s, false, f, at)))
  {
    hide DecodeTurnNotice, TurnStatusOf;
  }

  lemma TurnTransitionMirrors(cfg: Config, s: State, completed: bool, f: Fields, at: int)
    requires Filed(s)
    ensures Mirrors(s, ReduceTurnTransition(cfg, s, completed, f, at).state,
                    Said(ReduceTurnTransition(cfg, s, completed, f, at)),
                    if completed && NotesTurn(s, f) then QuietClose(s) else {})
  {
    hide ReduceTurnTransition, Finish, Mirrors, NotesTurn;
    var open := ReduceTurnTransition(cfg, s, false, f, at);
    CodexJoin.TurnTransitionQuiet(cfg, s, f, at);
    CodexJoin.ScopeBoundGrows(cfg.runtime, s.bindings, open.state.bindings);
    TurnTransitionUnsaid(cfg, s, f, at);
    TurnNoted(cfg, s, f, at);
    UnsaidMirrors(s, open.state, Said(open));
    if completed {
      CodexJoin.TurnCompletedCloses(cfg, s, f, at);
      if open.result.Ok? {
        FinishMirrors(open.state);
        assert QuietClose(open.state) == QuietClose(s);
        PaddedMirrors(s, open.state, Finish(open.state).state, Finish(open.state).state, Said(open),
          Finish(open.state).effects, QuietClose(s));
      }
    }
  }

  lemma TurnNoted(cfg: Config, s: State, f: Fields, at: int)
    ensures ReduceTurnTransition(cfg, s, false, f, at).result.Ok? <==> NotesTurn(s, f)
  {
    hide DecodeTurnNotice, TurnStatusOf;
  }

  lemma StoreDecodedMirrors(cfg: Config, s: State, m: ItemNotice, decoded: DecodedBody)
    requires Filed(s) && m.thread in s.bindings.sessions
    ensures Mirrors(s, StoreDecoded(cfg, s, m, decoded).state, StoreDecoded(cfg, s, m, decoded).effects,
                    QuietStore(s, m.item))
  {
    var b := ItemBindings(cfg.runtime, s.bindings, m);
    CodexJoin.ItemBindingsGrow(cfg.runtime, s.bindings, m);
    var item := ItemFor(s.items, b, m, s.bindings.sessions[m.thread].id, decoded);
    var stored := s.items.stored[item.id := item];
    var ids := FiledUnder(s.attention.byRawItem, m.item);
    var local := s.approvals.locallyAnswered;
    var entries := s.attention.stored;
    var upgrades := UpgradeEffects(b, stored, m.item, entries, local, ids);
    var fx := [ItemUpserted(item)] + upgrades;
    forall id: ItemId ensures ItemMirrored(s.items.stored, stored, fx, id) {
      UpgradeEffectsNoItem(b, stored, m.item, entries, local, ids, id);
      LastItemAppend([ItemUpserted(item)], upgrades, id);
    }
    forall id: AttentionId | id.ApprovalAttention?
      ensures EntryMirrored(entries, UpgradedAttention(b, stored, m.item, entries, ids), QuietStore(s, m.item), fx, id)
    {
      UpgradeMirrors(b, stored, m.item, entries, local, ids, QuietStore(s, m.item), id);
      LastEntryAppend([ItemUpserted(item)], upgrades, id);
    }
    CodexJoin.UpgradedEntries(b, stored, m.item, entries, ids);
  }

  lemma StoreItemMirrors(cfg: Config, s: State, m: ItemNotice, started: bool, f: Fields)
    requires Filed(s) && m.thread in s.bindings.sessions
    ensures
      var id := ItemBindings(cfg.runtime, s.bindings, m).items[m.item].id;
      Mirrors(s, StoreItem(cfg, s, m, started, f).state, Said(StoreItem(cfg, s, m, started, f)),
              if DecodeBody(f, m.kind, id, started, s.items.agentText).Ok? then QuietStore(s, m.item) else {})
  {
    hide StoreDecoded, DecodeBody, Mirrors;
    var b := ItemBindings(cfg.runtime, s.bindings, m);
    var decoded := DecodeBody(f, m.kind, b.items[m.item].id, started, s.items.agentText);
    if decoded.Ok? {
      StoreDecodedMirrors(cfg, s, m, decoded.value);
    } else {
      CodexJoin.ItemBindingsGrow(cfg.runtime, s.bindings, m);
      UnsaidMirrors(s, StoreItem(cfg, s, m, started, f).state, []);
    }
  }

  lemma ItemMirrors(cfg: Config, s: State, started: bool, f: Fields, at: int)
    requires Filed(s)
    ensures Mirrors(s, ReduceItem(cfg, s, started, f, at).state, Said(ReduceItem(cfg, s, started, f, at)),
                    QuietItem(cfg, s, started, f))
  {
    hide StoreItem, Mirrors, Decodable, DecodeItemNotice, DecodeBody, ItemBindings, QuietStore;
    var o := ReduceItem(cfg, s, started, f, at);
    var m := DecodeItemNotice(f, started);
    if m.Ok? && m.value.thread in s.bindings.sessions && Decodable(m.value.kind) {
      StoreItemMirrors(cfg, s, m.value, started, f);
    } else {
      QuietOutcomeMirrors(cfg.runtime, s, o);
    }
  }

  lemma OneItemMirrors(s: State, s': State, item: Item)
    requires Filed(s) && s'.bindings == s.bindings && s'.attention == s.attention && s'.approvals == s.approvals
    requires s'.items.stored == s.items.stored[item.id := item]
    ensures Mirrors(s, s', [ItemUpserted(item)], {})
  {
    var fx := [ItemUpserted(item)];
    assert fx[..0] == [];
    forall id: ItemId ensures ItemMirrored(s.items.stored, s'.items.stored, fx, id) {
    }
    forall id: AttentionId
      ensures EntryMirrored(s.attention.stored, s'.attention.stored, {}, fx, id)
    {
    }
  }

  lemma OneEntryMirrors(s: State, s': State, entry: AttentionItem)
    requires Filed(s) && s'.bindings == s.bindings && s'.items == s.items
    requires s.approvals.locallyAnswered <= s'.approvals.locallyAnswered
    requires entry.id.ApprovalAttention? && s'.attention.stored == s.attention.stored[entry.id := entry]
    ensures Mirrors(s, s', [AttentionUpserted(entry)], {})
  {
    var fx := [AttentionUpserted(entry)];
    assert fx[..0] == [];
    forall id: AttentionId | id.ApprovalAttention?
      ensures EntryMirrored(s.attention.stored, s'.attention.stored, {}, fx, id)
    {
    }
    forall id: ItemId ensures ItemMirrored(s.items.stored, s'.items.stored, fx, id) {
    }
  }

  lemma DeltaMirrors(s: State, f: Fields, at: int)
    requires Filed(s)
    ensures Mirrors(s, ReduceDelta(s, f, at).state, Said(ReduceDelta(s, f, at)), {})
  {
    hide Mirrors, DecodeDelta;
    var o := ReduceDelta(s, f, at);
    if Said(o) != [] && Said(o)[0].ItemUpserted? {
      OneItemMirrors(s, o.state, Said(o)[0].item);
    } else {
      UnsaidMirrors(s, o.state, Said(o));
    }
  }

  lemma FileApprovalSays(cfg: Config, s: State, requestId: int, m: ApprovalNotice, at: int)
    requires m.thread in s.bindings.sessions
    ensures
      var o := FileApproval(cfg, s, requestId, m, at);
      var b := ApprovalBindings(cfg.runtime, s.bindings, m);
      var interaction := b.interactions[Correlation(m.thread, m.turn, m.item, m.startedAt)];
      var entry := NewApproval(cfg, b, s.items.stored, m, s.bindings.sessions[m.thread].id, b.turns[m.turn].id,
        interaction);
      && Said(o) != [] && Said(o) == [AttentionUpserted(entry)] + Said(o)[1..] && Silent(Said(o)[1..])
      && o.state.approvals.locallyAnswered == s.approvals.locallyAnswered
  {
    hide NewApproval, ApprovalBindings, Correlation, RecordFor, IndexWith;
  }

  lemma FileApprovalMirrors(cfg: Config, s: State, requestId: int, m: ApprovalNotice, at: int)
    requires Filed(s) && m.thread in s.bindings.sessions
    ensures Mirrors(s, FileApproval(cfg, s, requestId, m, at).state, Said(FileApproval(cfg, s, requestId, m, at)), {})
  {
    hide FileApproval, NewApproval, ApprovalBindings, Correlation;
    var o := FileApproval(cfg, s, requestId, m, at);
    var b := ApprovalBindings(cfg.runtime, s.bindings, m);
    CodexJoin.ApprovalBindingsGrow(cfg.runtime, s.bindings, m);
    var interaction := b.interactions[Correlation(m.thread, m.turn, m.item, m.startedAt)];
    var entry := NewApproval(cfg, b, s.items.stored, m, s.bindings.sessions[m.thread].id, b.turns[m.turn].id,
      interaction);
    CodexJoin.FileApprovalState(cfg, s, requestId, m, at);
    FileApprovalSays(cfg, s, requestId, m, at);
    var note := Said(o)[1..];
    forall id: ItemId ensures ItemMirrored(s.items.stored, o.state.items.stored, Said(o), id) {
      SilentHasNoLast(note, id, ApprovalAttention(""));
      LastItemAppend([AttentionUpserted(entry)], note, id);
    }
    forall id: AttentionId | id.ApprovalAttention?
      ensures EntryMirrored(s.attention.stored, o.state.attention.stored, {}, Said(o), id)
    {
      SilentHasNoLast(note, ItemId(""), id);
      LastEntryAppend([AttentionUpserted(entry)], note, id);
    }
  }

  lemma ApprovalReplyMirrors(cfg: Config, s: State, requestId: int, f: Fields, at: int)
    requires Filed(s)
    ensures Mirrors(s, ReduceApprovalReply(cfg, s, requestId, f, at).state,
                    Said(ReduceApprovalReply(cfg, s, requestId, f, at)), {})
  {
    hide Mirrors, DecodeDecision;
    var o := ReduceApprovalReply(cfg, s, requestId, f, at);
    if Said(o) == [] {
      UnsaidMirrors(s, o.state, []);
    } else {
      OneEntryMirrors(s, o.state, Said(o)[0].attention);
    }
  }

  lemma ThreadStartedUnsaid(s: State, f: Fields)
    ensures Unsaid(s, ReduceThreadStarted(s, f).state, Said(ReduceThreadStarted(s, f)))
    ensures ReduceThreadStarted(s, f).state.bindings == s.bindings
  {
    hide ReadText;
  }

  lemma StatusChangedUnsaid(s: State, f: Fields, at: int)
    ensures Unsaid(s, ReduceStatusChanged(s, f, at).state, Said(ReduceStatusChanged(s, f, at)))
    ensures ReduceStatusChanged(s, f, at).state.bindings == s.bindings
  {
    hide ReadText, SessionStatusOf;
  }

  lemma NotificationMirrors(cfg: Config, s: State, m: string, f: Fields, at: int)
    requires Filed(s)
    ensures Mirrors(s, ReduceNotification(cfg, s, m, f, at).state, Said(ReduceNotification(cfg, s, m, f, at)),
                    QuietNotice(cfg, s, m, f))
  {
    hide Mirrors, QuietItem, NotesTurn, QuietClose;
    hide ReduceTurnTransition, ReduceItem, ReduceDelta, ReduceThreadStarted, ReduceStatusChanged;
    var o := ReduceNotification(cfg, s, m, f, at);
    if m == "turn/started" || m == "turn/completed" {
      TurnTransitionMirrors(cfg, s, m == "turn/completed", f, at);
    } else if m == "item/started" || m == "item/completed" {
      ItemMirrors(cfg, s, m == "item/started", f, at);
    } else if m == "item/agentMessage/delta" {
      DeltaMirrors(s, f, at);
    } else {
      ThreadStartedUnsaid(s, f);
      StatusChangedUnsaid(s, f, at);
      UnsaidMirrors(s, o.state, Said(o));
    }
  }

  lemma DispatchMirrors(cfg: Config, s: State, frame: Frame, at: int)
    requires Filed(s)
    ensures Mirrors(s, Dispatch(cfg, s, frame, at).state, Said(Dispatch(cfg, s, frame, at)), QuietFrame(cfg, s, frame))
  {
    hide Mirrors, QuietItem, NotesTurn, QuietClose, ReduceNotification, ReduceClientResponse, FileApproval,
      ReduceApprovalReply;
    var o := Dispatch(cfg, s, frame, at);
    if frame.direction == ClientToServer {
      if frame.method_.None? && frame.id.Some? {
        ApprovalReplyMirrors(cfg, s, frame.id.value, frame.fields, at);
      } else {
        UnsaidMirrors(s, o.state, Said(o));
      }
    } else if frame.method_.Some? {
      if frame.id.Some? && frame.method_.value == APPROVAL_METHOD {
        var m := DecodeApproval(frame.fields);
        if m.Ok? && m.value.thread in s.bindings.sessions {
          FileApprovalMirrors(cfg, s, frame.id.value, m.value, at);
        } else {
          UnsaidMirrors(s, o.state, Said(o));
        }
      } else {
        NotificationMirrors(cfg, s, frame.method_.value, frame.fields, at);
      }
    } else if frame.id.Some? {
      CodexJoin.ClientResponseQuiet(cfg, s, frame.id.value, frame, at);
      ClientResponseUnsaid(cfg, s, frame.id.value, frame, at);
      QuietOutcomeMirrors(cfg.runtime, s, o);
    } else {
      UnsaidMirrors(s, o.state, Said(o));
    }
  }

  lemma IngestMirrors(cfg: Config, s: State, frame: Frame)
    requires Filed(s)
    ensures Mirrors(s, IngestFrame(cfg, s, frame).state, Said(IngestFrame(cfg, s, frame)), QuietFrame(cfg, s, frame))
  {
    hide Dispatch, Mirrors, QuietFrame;
    var at := Saturate(cfg.baseAt + frame.offset);
    var boot := Bootstrap(s.(live := s.live.(probe := s.live.probe.Advance(at))), at);
    DispatchMirrors(cfg, boot.state, frame, at);
    var quiet := QuietFrame(cfg, s, frame);
    SameQuiet(cfg, s, boot.state, frame);
    var reduced := Dispatch(cfg, boot.state, frame, at);
    if reduced.result.Err? {
      var none: seq<Effect> := [];
      PaddedMirrors(s, boot.state, reduced.state, reduced.state, none, none, quiet);
      assert none + none == none;
    } else {
      var u := Publish(reduced.state, reduced.result.value);
      var caps := CapabilitiesUpdated(reduced.state.live.probe.ToCapabilities());
      if reduced.state.live.probe.proven != reduced.state.live.published {
        PlacedMirrors(boot.state, reduced.state, u.state, reduced.result.value, caps, quiet);
        PaddedMirrors(s, boot.state, u.state, u.state, boot.effects, u.effects, quiet);
      } else {
        PaddedMirrors(s, boot.state, reduced.state, u.state, boot.effects, u.effects, quiet);
      }
    }
  }

  lemma SameQuiet(cfg: Config, s: State, t: State, frame: Frame)
    requires t.bindings == s.bindings && t.items == s.items && t.attention == s.attention && t.approvals == s.approvals
    ensures QuietFrame(cfg, t, frame) == QuietFrame(cfg, s, frame)
  {
    hide DecodeItemNotice, DecodeBody, ItemBindings, Decodable, DecodeTurnNotice, TurnStatusOf;
  }

  /** One step: approvals in `Quietly` stop waiting without a word, all else changes exactly as the effects say. */
  lemma StepMirrors(cfg: Config, s: State, input: Input)
    requires Filed(s)
    ensures Mirrors(s, Step(cfg, s, input).state, EffectsOf(Step(cfg, s, input).reply), Quietly(cfg, s, input))
  {
    hide QuietFrame, QuietClose, IngestFrame, Finish, Mirrors, AnswerRegistrable, TurnRegistrable;
    var r := Step(cfg, s, input);
    if input.Ingest? {
      IngestMirrors(cfg, s, input.frame);
    } else if input.CloseWindow? {
      FinishMirrors(s);
    } else {
      UnsaidMirrors(s, r.state, EffectsOf(r.reply));
    }
  }

  // ------------------------------------------------------------------ every run

  ghost predicate StreamMirrors(s: State, stream: seq<Effect>) {
    && Filed(s)
    && (forall id :: LastItem(stream, id) == Lookup(s.items.stored, id))
    && (forall id: AttentionId | id.ApprovalAttention? ::
          && (id in s.attention.stored <==> LastEntry(stream, id).Some?)
          && (id in s.attention.stored ==>
                var last := LastEntry(stream, id).value;
                if id in s.approvals.locallyAnswered then SameButJoin(last, s.attention.stored[id])
                else last == s.attention.stored[id]))
  }

  lemma MirrorsExtendStream(s: State, s': State, stream: seq<Effect>, effects: seq<Effect>, quiet: set<AttentionId>)
    requires StreamMirrors(s, stream) && Mirrors(s, s', effects, quiet)
    ensures StreamMirrors(s', stream + effects)
  {
    forall id ensures LastItem(stream + effects, id) == Lookup(s'.items.stored, id) {
      LastItemAppend(stream, effects, id);
      assert ItemMirrored(s.items.stored, s'.items.stored, effects, id);
    }
    forall id: AttentionId | id.ApprovalAttention?
      ensures id in s'.attention.stored <==> LastEntry(stream + effects, id).Some?
      ensures id in s'.attention.stored ==>
        var last := LastEntry(stream + effects, id).value;
        if id in s'.approvals.locallyAnswered then SameButJoin(last, s'.attention.stored[id])
        else last == s'.attention.stored[id]
    {
      LastEntryAppend(stream, effects, id);
      assert EntryMirrored(s.attention.stored, s'.attention.stored, quiet, effects, id);
    }
  }

  /**
   After every run the last upsert of each item in the stream is the stored item, nothing else was
   ever upserted, and the same holds of approvals, up to the join once answered by a local command.
   */
  lemma {:induction false} StreamMirrorsState(cfg: Config, inputs: seq<Input>)
    ensures StreamMirrors(Execute(cfg, inputs).state, Execute(cfg, inputs).stream)
  {
    hide Step, Mirrors, Quietly;
    if inputs != [] {
      var front, last := inputs[..|inputs| - 1], inputs[|inputs| - 1];
      StreamMirrorsState(cfg, front);
      var before := Execute(cfg, front);
      StepMirrors(cfg, before.state, last);
      MirrorsExtendStream(before.state, Execute(cfg, inputs).state, before.stream,
        EffectsOf(Step(cfg, before.state, last).reply), Quietly(cfg, before.state, last));
    }
  }
}
