/**
 When the join protocol applies. The correlation key joins raw identifiers with bars
 (crates/kaleido-adapter-codex/src/reduce.rs:1330), so approvals of different scopes can share a key, and
 the later approval then takes over the entry of the earlier one. The steps of a run all keep the
 protocol exactly if no approval takes over an entry it does not fit; identifiers without bars always
 fit. Two runs show what happens otherwise.
 */
module CodexCollision {
  import opened Prelude
  import opened Canonical
  import opened Capability
  import opened CodexWire
  import opened CodexBindings
  import opened CodexStep
  import opened CodexRun
  import opened CodexJoin

  /** The parts of the state a join depends on. */
  datatype Core = Core(bindings: Bindings, stored: Attention, index: Index, items: map<ItemId, Item>)

  function CoreOf(s: State): Core { Core(s.bindings, s.attention.stored, s.attention.byRawItem, s.items.stored) }

  /** What filing an approval stores. */
  function EntryFor(cfg: Config, c: Core, m: ApprovalNotice): AttentionItem
    requires m.thread in c.bindings.sessions
  {
    var b := ApprovalBindings(cfg.runtime, c.bindings, m);
    NewApproval(cfg, b, c.items, m, c.bindings.sessions[m.thread].id, b.turns[m.turn].id,
      b.interactions[KeyOf(m).correlation])
  }

  /** What is left after an approval was filed. */
  function Filed(cfg: Config, c: Core, m: ApprovalNotice): Core
    requires m.thread in c.bindings.sessions
  {
    var entry := EntryFor(cfg, c, m);
    Core(ApprovalBindings(cfg.runtime, c.bindings, m), c.stored[entry.id := entry],
      IndexWith(c.index, m.item, entry.id), c.items)
  }

  /** What is left after an item arrived and `items` became the stored items. */
  function Seen(cfg: Config, c: Core, m: ItemNotice, items: map<ItemId, Item>): Core
    requires m.thread in c.bindings.sessions
  {
    var b := ItemBindings(cfg.runtime, c.bindings, m);
    Core(b, UpgradedAttention(b, items, m.item, c.stored, FiledUnder(c.index, m.item)), c.index, items)
  }

  lemma FilingChanges(cfg: Config, s: State, requestId: int, m: ApprovalNotice, at: int)
    requires m.thread in s.bindings.sessions
    ensures CoreOf(FileApproval(cfg, s, requestId, m, at).state) == Filed(cfg, CoreOf(s), m)
  {
    hide NewApproval, ApprovalBindings, IndexWith, Correlation, RecordFor;
  }

  lemma StoringChanges(cfg: Config, s: State, m: ItemNotice, decoded: DecodedBody)
    requires m.thread in s.bindings.sessions
    ensures
      var d := CoreOf(StoreDecoded(cfg, s, m, decoded).state);
      d == Seen(cfg, CoreOf(s), m, d.items)
  {
    hide ItemBindings, UpgradedAttention, UpgradeEffects, ItemFor, SequenceAfter;
  }

  lemma BindingsOfApproval(rt: RuntimeId, b: Bindings, m: ApprovalNotice)
    requires b.Minted() && m.thread in b.sessions
    ensures
      var b' := ApprovalBindings(rt, b, m);
      && b'.Minted() && b'.sessions == b.sessions && b'.items == b.items
      && b'.turns[m.turn].id == TurnId(m.turn) && b'.interactions[KeyOf(m).correlation].id == KeyOf(m)
  {
    hide Correlation;
  }

  /** The filed entry belongs to the approval, under its key, with the join the bindings give it. */
  ghost predicate Speaks(b: Bindings, e: AttentionItem, m: ApprovalNotice) {
    && IsApproval(e) && e.id == KeyOf(m) && e.turn == Some(TurnId(m.turn)) && TargetOf(e) == ItemId(m.item)
    && JoinOf(e) == JoinFor(b, m.item, SessionId(m.thread), TurnId(m.turn), ItemId(m.item))
  }

  lemma ApprovalFiles(cfg: Config, c: Core, m: ApprovalNotice)
    requires c.bindings.Minted() && m.thread in c.bindings.sessions
    ensures
      var d := Filed(cfg, c, m);
      && d.bindings.Minted() && d.bindings.sessions == c.bindings.sessions && d.bindings.items == c.bindings.items
      && KeyOf(m) in d.stored && Speaks(c.bindings, d.stored[KeyOf(m)], m)
        && d.index == IndexWith(c.index, m.item, KeyOf(m))
  {
    hide Correlation, ApprovalBindings, IndexWith, Summarise;
    BindingsOfApproval(cfg.runtime, c.bindings, m);
  }

  // ------------------------------------------------------------------ exactly when a step keeps the protocol

  /** An approval that takes over the entry of another item leaves the index wrong. */
  lemma ClashBreaksTheInvariant(cfg: Config, s: State, requestId: int, m: ApprovalNotice, at: int)
    requires JoinInvariant(s) && m.thread in s.bindings.sessions
    requires KeyOf(m) in s.attention.stored && TargetOf(s.attention.stored[KeyOf(m)]) != ItemId(m.item)
    ensures !JoinInvariant(FileApproval(cfg, s, requestId, m, at).state)
  {
    hide Correlation, FileApproval, JoinHolds, Filed;
    var e := s.attention.stored[KeyOf(m)];
    assert EntryOk(s.bindings, s.items.stored, s.attention.byRawItem, KeyOf(m), e);
    FilingChanges(cfg, s, requestId, m, at);
    ApprovalFiles(cfg, CoreOf(s), m);
    var d := CoreOf(FileApproval(cfg, s, requestId, m, at).state);
    var raw := TargetOf(e).seed;
    assert TargetOf(e) == ItemId(raw);
    assert raw in d.index && KeyOf(m) in d.index[raw];
    assert !ListedOk(d.stored, raw, KeyOf(m));
  }

  /** Filing keeps the protocol exactly if the approval fits the entry it takes over. */
  lemma FilingAdvancesIff(cfg: Config, s: State, requestId: int, m: ApprovalNotice, at: int)
    requires JoinInvariant(s) && m.thread in s.bindings.sessions
    ensures
      Advances(s, FileApproval(cfg, s, requestId, m, at).state, true)
      <==> (KeyOf(m) in s.attention.stored ==> Fits(s.bindings, s.attention.stored[KeyOf(m)], m))
  {
    hide Correlation, FileApproval, Filed, Joins;
    var later := FileApproval(cfg, s, requestId, m, at);
    if KeyOf(m) in s.attention.stored && !Fits(s.bindings, s.attention.stored[KeyOf(m)], m) {
      assert IsApproval(s.attention.stored[KeyOf(m)]) by { StoredIsApproval(s, KeyOf(m)); }
      if TargetOf(s.attention.stored[KeyOf(m)]) != ItemId(m.item) {
        ClashBreaksTheInvariant(cfg, s, requestId, m, at);
      } else {
        FilingChanges(cfg, s, requestId, m, at);
        assert CoreOf(s).bindings.Minted() by { InvariantMints(s); }
        ApprovalFiles(cfg, CoreOf(s), m);
        assert !SameIfSettled(s.attention.stored, later.state.attention.stored, KeyOf(m));
      }
    } else {
      FileApprovalAdvances(cfg, s, requestId, m, at);
      FilingSucceeds(cfg, s, requestId, m, at);
    }
  }

  lemma StoredIsApproval(s: State, id: AttentionId)
    requires JoinInvariant(s) && id in s.attention.stored
    ensures IsApproval(s.attention.stored[id])
  {
    assert EntryOk(s.bindings, s.items.stored, s.attention.byRawItem, id, s.attention.stored[id]);
  }

  lemma InvariantMints(s: State)
    requires JoinInvariant(s)
    ensures s.bindings.Minted()
  {
  }

  lemma FilingSucceeds(cfg: Config, s: State, requestId: int, m: ApprovalNotice, at: int)
    requires m.thread in s.bindings.sessions
    ensures FileApproval(cfg, s, requestId, m, at).result.Ok?
  {
  }

  /** Around the reduction of a frame, only the probe, the published list and the bootstrap flag change. */
  lemma IngestRecords(cfg: Config, s: State, frame: Frame) returns (t: State, at: int)
    ensures
      var o, r := Dispatch(cfg, t, frame, at), Step(cfg, s, Ingest(frame));
      && SameRecords(s, t) && SameRecords(o.state, r.state) && (Accepted(r.reply) <==> o.result.Ok?)
      && t.approvals == s.approvals && r.state.approvals == o.state.approvals
  {
    hide Dispatch;
    at := Saturate(cfg.baseAt + frame.offset);
    t := Bootstrap(s.(live := s.live.(probe := s.live.probe.Advance(at))), at).state;
  }

  /** A step that files an approval changes the records as filing does, and is accepted. */
  lemma FilingStep(cfg: Config, s: State, input: Input) returns (t: State, at: int)
    requires Files(s, input)
    ensures
      var m := DecodeApproval(input.frame.fields).value;
      var r := Step(cfg, s, input);
      && SameRecords(s, t) && SameRecords(FileApproval(cfg, t, input.frame.id.value, m, at).state, r.state)
        && Accepted(r.reply)
  {
    hide FileApproval, Step;
    t, at := IngestRecords(cfg, s, input.frame);
    var m := DecodeApproval(input.frame.fields).value;
    FilingSucceeds(cfg, t, input.frame.id.value, m, at);
    assert Dispatch(cfg, t, input.frame, at) == FileApproval(cfg, t, input.frame.id.value, m, at);
  }

  /** Each frame or call keeps the join protocol exactly if it files no approval that does not fit. */
  lemma StepAdvancesIff(cfg: Config, s: State, input: Input)
    requires JoinInvariant(s)
    ensures Advances(s, Step(cfg, s, input).state, Accepted(Step(cfg, s, input).reply)) <==> ClashFree(s, input)
  {
    hide Step, Advances, Joins, FileApproval, Fits;
    if ClashFree(s, input) {
      StepAdvances(cfg, s, input);
    } else {
      var t, at := FilingStep(cfg, s, input);
      var m := DecodeApproval(input.frame.fields).value;
      FilingAdvancesIff(cfg, t, input.frame.id.value, m, at);
      var filed := FileApproval(cfg, t, input.frame.id.value, m, at).state;
      if Advances(s, Step(cfg, s, input).state, true) {
        AdvancesModuloRecords(t, s, filed, Step(cfg, s, input).state, true);
      }
    }
  }

  /** The k-th step of a run keeps the join protocol. */
  ghost predicate AdvancesAt(cfg: Config, inputs: seq<Input>, k: nat)
    requires k < |inputs|
  {
    var s := Execute(cfg, inputs[..k]).state;
    var r := Step(cfg, s, inputs[k]);
    Advances(s, r.state, Accepted(r.reply))
  }

  lemma {:induction false} AdvancedRunsKeepJoins(cfg: Config, inputs: seq<Input>, n: nat)
    requires n <= |inputs| && forall k | 0 <= k < n :: AdvancesAt(cfg, inputs, k)
    ensures JoinInvariant(Execute(cfg, inputs[..n]).state)
  {
    hide Step, Joins;
    if n == 0 {
      RunKeepsJoins(cfg, []);
      assert inputs[..0] == [];
    } else {
      assert AdvancesAt(cfg, inputs, n - 1);
      assert inputs[..n][..n - 1] == inputs[..n - 1];
    }
  }

  /** All steps of a run keep the join protocol exactly if every approval it files fits what is stored under its key. */
  lemma RunAdvancesIff(cfg: Config, inputs: seq<Input>)
    ensures (forall k | 0 <= k < |inputs| :: AdvancesAt(cfg, inputs, k)) <==> ClashFreeRun(cfg, inputs)
  {
    hide Step, Advances, ClashFree, Execute, JoinInvariant;
    if forall k | 0 <= k < |inputs| :: AdvancesAt(cfg, inputs, k) {
      forall k | 0 <= k < |inputs| ensures ClashFree(Execute(cfg, inputs[..k]).state, inputs[k]) {
        AdvancedRunsKeepJoins(cfg, inputs, k);
        StepAdvancesIff(cfg, Execute(cfg, inputs[..k]).state, inputs[k]);
        assert AdvancesAt(cfg, inputs, k);
      }
    }
    if ClashFreeRun(cfg, inputs) {
      forall k | 0 <= k < |inputs| ensures AdvancesAt(cfg, inputs, k) {
        ClashFreeSplits(cfg, inputs, k);
        RunKeepsJoins(cfg, inputs[..k]);
        StepAdvancesIff(cfg, Execute(cfg, inputs[..k]).state, inputs[k]);
      }
    }
  }

  // ------------------------------------------------------------------ what a clash does

  lemma BindingsOfItem(rt: RuntimeId, b: Bindings, m: ItemNotice)
    requires b.Minted() && m.thread in b.sessions && m.item !in b.items
    ensures
      var b' := ItemBindings(rt, b, m);
      && b'.Minted() && b'.sessions == b.sessions && b'.items.Keys == b.items.Keys + {m.item}
      && b'.items[m.item].session == SessionId(m.thread) && b'.items[m.item].turn == TurnId(m.turn)
  {
  }

  /** The arrival of an item settles what is listed under it, whatever the entry has become. */
  lemma ListedIsSettled(b: Bindings, items: map<ItemId, Item>, raw: string, attention: Attention, id: AttentionId,
                        m: ApprovalNotice)
    requires raw in b.items && b.items[raw].turn != TurnId(m.turn)
    requires id in attention && IsApproval(attention[id]) && attention[id].turn == Some(TurnId(m.turn))
    requires TargetOf(attention[id]) == ItemId(m.item) && JoinOf(attention[id]) == Unjoined(ItemNotYetSeen)
    ensures
      var after := UpgradedAttention(b, items, raw, attention, [id]);
      id in after && IsApproval(after[id]) && TargetOf(after[id]) == ItemId(m.item)
        && JoinOf(after[id]) == Unjoined(ScopeMismatch)
  {
    hide Summarise;
    assert [id][..0] == [];
    assert UpgradedAttention(b, items, raw, attention, []) == attention;
  }

  /** The entry stored for `m` says that its item belongs to another scope, and the item was never seen. */
  ghost predicate Misled(c: Core, m: ApprovalNotice) {
    && KeyOf(m) in c.stored && IsApproval(c.stored[KeyOf(m)])
    && TargetOf(c.stored[KeyOf(m)]) == ItemId(m.item) && JoinOf(c.stored[KeyOf(m)]) == Unjoined(ScopeMismatch)
    && m.item !in c.bindings.items
  }

  lemma CoreMisleads(cfg: Config, c: Core, a: ApprovalNotice, b: ApprovalNotice, i: ItemNotice,
                     items: map<ItemId, Item>)
    requires c.bindings.Minted() && a.thread in c.bindings.sessions && b.thread in c.bindings.sessions
    requires a.item !in c.bindings.items && b.item !in c.bindings.items && a.item !in c.index
    requires KeyOf(a) == KeyOf(b) && a.item != b.item && a.turn != b.turn
    requires i.thread == a.thread && i.turn == a.turn && i.item == a.item
    ensures
      var c1 := Filed(cfg, c, a);
      && c1.bindings.sessions == c.bindings.sessions
      && var c2 := Filed(cfg, c1, b);
      && c2.bindings.sessions == c.bindings.sessions
      && Misled(Seen(cfg, c2, i, items), b)
  {
    hide Correlation, UpgradedAttention, ItemBindings, Filed;
    ApprovalFiles(cfg, c, a);
    var c1 := Filed(cfg, c, a);
    ApprovalFiles(cfg, c1, b);
    var c2 := Filed(cfg, c1, b);
    assert FiledUnder(c2.index, a.item) == [KeyOf(b)];
    BindingsOfItem(cfg.runtime, c2.bindings, i);
    ListedIsSettled(ItemBindings(cfg.runtime, c2.bindings, i), items, a.item, c2.stored, KeyOf(b), b);
  }

  /**
   Two approvals with one key and different turns and items; then the first one's item arrives. The
   stored join says that the second one's item belongs elsewhere, although that item was never seen.
   */
  lemma CollisionMisleads(cfg: Config, s: State, a: ApprovalNotice, b: ApprovalNotice, i: ItemNotice,
                          decoded: DecodedBody, at: int)
    requires s.bindings.Minted() && a.thread in s.bindings.sessions && b.thread in s.bindings.sessions
    requires a.item !in s.bindings.items && b.item !in s.bindings.items && a.item !in s.attention.byRawItem
    requires KeyOf(a) == KeyOf(b) && a.item != b.item && a.turn != b.turn
    requires i.thread == a.thread && i.turn == a.turn && i.item == a.item
    ensures
      var s1 := FileApproval(cfg, s, 1, a, at).state;
      && CoreOf(s1).bindings.sessions == s.bindings.sessions
      && var s2 := FileApproval(cfg, s1, 2, b, at).state;
      && CoreOf(s2).bindings.sessions == s.bindings.sessions
      && Misled(CoreOf(StoreDecoded(cfg, s2, i, decoded).state), b)
  {
    hide Correlation, FileApproval, StoreDecoded, Filed, Seen, Misled;
    FilingChanges(cfg, s, 1, a, at);
    var s1 := FileApproval(cfg, s, 1, a, at).state;
    ApprovalFiles(cfg, CoreOf(s), a);
    FilingChanges(cfg, s1, 2, b, at);
    var s2 := FileApproval(cfg, s1, 2, b, at).state;
    ApprovalFiles(cfg, CoreOf(s1), b);
    StoringChanges(cfg, s2, i, decoded);
    CoreMisleads(cfg, CoreOf(s), a, b, i, CoreOf(StoreDecoded(cfg, s2, i, decoded).state).items);
  }

  // ------------------------------------------------------------------ two runs that clash

  /** The client starts a thread. */
  function Start(id: int): Input { Ingest(Frame(ClientToServer, 0, Some("thread/start"), Some(id), false, map[])) }

  /** The runtime answers with the thread's identifier. */
  function Answer(id: int, thread: string): Input {
    Ingest(Frame(ServerToClient, 0, None, Some(id), false,
                 map[SessionThreadId := Text(thread), SessionProjectRoot := Text("/")]))
  }

  /** The runtime asks for an approval. */
  function Ask(id: int, m: ApprovalNotice): Input {
    Ingest(Frame(ServerToClient, 0, Some(APPROVAL_METHOD), Some(id), false,
                 map[ApprovalThreadId := Text(m.thread), ApprovalTurnId := Text(m.turn), ApprovalItemId := Text(m.item),
                     ApprovalStartedAt := Integer(m.startedAt)]))
  }

  /** An item of the given scope arrives. */
  function Show(thread: string, turn: string, item: string): Input {
    Ingest(Frame(ServerToClient, 0, Some("item/started"), None, false,
                 map[ItemLifecycleThreadId := Text(thread), ItemLifecycleTurnId := Text(turn),
                     ItemIdentifier := Text(item), ItemType := Text("reasoning"), ItemStartedAt := Integer(0)]))
  }

  function NoticeOf(thread: string, turn: string, item: string): ItemNotice {
    ItemNotice(thread, turn, item, "reasoning", 0)
  }

  lemma Starts(cfg: Config, s: State, id: int)
    ensures
      var s' := Step(cfg, s, Start(id)).state;
      CoreOf(s') == CoreOf(s) && s'.items == s.items && id in s'.calls.client && s'.calls.client[id] == ThreadStart
  {
  }

  lemma Answers(cfg: Config, s: State, id: int, thread: string)
    requires id in s.calls.client && s.calls.client[id] == ThreadStart
    ensures
      var s' := Step(cfg, s, Answer(id, thread)).state;
      CoreOf(s') == CoreOf(s).(bindings := s.bindings.BindSession(cfg.runtime, thread)) && s'.items == s.items
  {
  }

  lemma Asks(cfg: Config, s: State, id: int, m: ApprovalNotice)
    requires m.reason.None? && m.thread in s.bindings.sessions
    ensures Files(s, Ask(id, m)) && DecodeApproval(Ask(id, m).frame.fields) == Ok(m)
    ensures CoreOf(Step(cfg, s, Ask(id, m)).state) == Filed(cfg, CoreOf(s), m)
  {
    hide Step, Filed, FileApproval;
    var t, at := FilingStep(cfg, s, Ask(id, m));
    FilingChanges(cfg, t, id, m, at);
  }

  lemma ShowDecodes(thread: string, turn: string, item: string, id: ItemId, agentText: map<ItemId, string>)
    ensures
      var f := Show(thread, turn, item).frame.fields;
      DecodeItemNotice(f, true) == Ok(NoticeOf(thread, turn, item))
        && DecodeBody(f, "reasoning", id, true, agentText).Ok?
  {
  }

  /** A step that shows an item changes the records as storing it does. */
  lemma ShowStep(cfg: Config, s: State, thread: string, turn: string, item: string)
    returns (t: State, decoded: DecodedBody)
    requires thread in s.bindings.sessions
    ensures
      SameRecords(s, t)
      && SameRecords(StoreDecoded(cfg, t, NoticeOf(thread, turn, item), decoded).state,
        Step(cfg, s, Show(thread, turn, item)).state)
  {
    hide StoreDecoded, ItemBindings, DecodeBody, DecodeItemNotice, Step;
    var frame := Show(thread, turn, item).frame;
    var at: int;
    t, at := IngestRecords(cfg, s, frame);
    var m := NoticeOf(thread, turn, item);
    var id := ItemBindings(cfg.runtime, t.bindings, m).items[item].id;
    ShowDecodes(thread, turn, item, id, t.items.agentText);
    decoded := DecodeBody(frame.fields, "reasoning", id, true, t.items.agentText).value;
    assert Dispatch(cfg, t, frame, at) == ReduceItem(cfg, t, true, frame.fields, at);
    assert ReduceItem(cfg, t, true, frame.fields, at).state == StoreDecoded(cfg, t, m, decoded).state;
  }

  lemma Shows(cfg: Config, s: State, thread: string, turn: string, item: string)
    requires thread in s.bindings.sessions
    ensures
      var d := CoreOf(Step(cfg, s, Show(thread, turn, item)).state);
      d == Seen(cfg, CoreOf(s), NoticeOf(thread, turn, item), d.items)
  {
    hide Step, StoreDecoded, Seen;
    var t, decoded := ShowStep(cfg, s, thread, turn, item);
    StoringChanges(cfg, t, NoticeOf(thread, turn, item), decoded);
  }

  lemma RunSnoc(cfg: Config, inputs: seq<Input>, input: Input)
    ensures Execute(cfg, inputs + [input]).state == Step(cfg, Execute(cfg, inputs).state, input).state
  {
    hide Step;
    assert (inputs + [input])[..|inputs|] == inputs;
  }

  /** Two frames bind a thread. */
  function OpenThread(id: int, thread: string): seq<Input> { [Start(id), Answer(id, thread)] }

  lemma ThreadOpens(cfg: Config, inputs: seq<Input>, id: int, thread: string)
    ensures
      var s, s' := Execute(cfg, inputs).state, Execute(cfg, inputs + OpenThread(id, thread)).state;
      CoreOf(s') == CoreOf(s).(bindings := s.bindings.BindSession(cfg.runtime, thread)) && s'.items == s.items
  {
    hide Step, Execute;
    assert inputs + OpenThread(id, thread) == inputs + [Start(id)] + [Answer(id, thread)];
    Starts(cfg, Execute(cfg, inputs).state, id);
    RunSnoc(cfg, inputs, Start(id));
    Answers(cfg, Execute(cfg, inputs + [Start(id)]).state, id, thread);
    RunSnoc(cfg, inputs + [Start(id)], Answer(id, thread));
  }

  /** Two scopes that differ in turn and item and share their key. */
  lemma KeysCollide()
    ensures
      var a, b := ApprovalNotice("t", "u", "x|y", 0, None), ApprovalNotice("t", "u|x", "y", 0, None);
      KeyOf(a) == KeyOf(b) && a.item != b.item && a.turn != b.turn
  {
    var n := IntText(0);
    assert Correlation("t", "u", "x|y", 0) == "t|u|x|y|" + n;
    assert Correlation("t", "u|x", "y", 0) == "t|u|x|y|" + n;
  }

  /** Two scopes that differ in thread and turn, with the same item, and share their key. */
  lemma KeysCollideOnAnItem()
    ensures KeyOf(ApprovalNotice("a|b", "c", "x", 0, None)) == KeyOf(ApprovalNotice("a", "b|c", "x", 0, None))
  {
    var n := IntText(0);
    assert Correlation("a|b", "c", "x", 0) == "a|b|c|x|" + n;
    assert Correlation("a", "b|c", "x", 0) == "a|b|c|x|" + n;
  }

  lemma InitialCore(cfg: Config)
    ensures CoreOf(Execute(cfg, []).state) == Core(NoBindings, map[], map[], map[])
    ensures Execute(cfg, []).state.items.nextSequence == 0
  {
  }

  /** A run after which a stored approval claims a mismatch with an item that never arrived. */
  lemma OtherItemRun(cfg: Config)
    ensures
      var a, b := ApprovalNotice("t", "u", "x|y", 0, None), ApprovalNotice("t", "u|x", "y", 0, None);
      Misled(CoreOf(Execute(cfg, OpenThread(1, "t") + [Ask(2, a)] + [Ask(3, b)] + [Show("t", "u", "x|y")]).state), b)
  {
    hide Step, Execute, Filed, Seen, Misled, Correlation;
    var a, b := ApprovalNotice("t", "u", "x|y", 0, None), ApprovalNotice("t", "u|x", "y", 0, None);
    InitialCore(cfg);
    ThreadOpens(cfg, [], 1, "t");
    var r1 := OpenThread(1, "t");
    assert [] + r1 == r1;
    var c := CoreOf(Execute(cfg, r1).state);
    assert c.bindings.Minted() && "t" in c.bindings.sessions;
    KeysCollide();
    var i := NoticeOf("t", "u", "x|y");
    Asks(cfg, Execute(cfg, r1).state, 2, a);
    RunSnoc(cfg, r1, Ask(2, a));
    var r2 := r1 + [Ask(2, a)];
    ApprovalFiles(cfg, c, a);
    Asks(cfg, Execute(cfg, r2).state, 3, b);
    RunSnoc(cfg, r2, Ask(3, b));
    var r3 := r2 + [Ask(3, b)];
    ApprovalFiles(cfg, CoreOf(Execute(cfg, r2).state), b);
    Shows(cfg, Execute(cfg, r3).state, "t", "u", "x|y");
    RunSnoc(cfg, r3, Show("t", "u", "x|y"));
    CoreMisleads(cfg, c, a, b, i, CoreOf(Execute(cfg, r3 + [Show("t", "u", "x|y")]).state).items);
  }

  /** The run that binds both threads and the item of the first scope. */
  function TwoThreads(): seq<Input> {
    OpenThread(1, "a|b") + OpenThread(2, "a") + [Show("a|b", "c", "x")]
  }

  lemma TwoThreadsBound(cfg: Config)
    ensures
      var c := CoreOf(Execute(cfg, TwoThreads()).state);
      && c.bindings.Minted() && "a|b" in c.bindings.sessions && "a" in c.bindings.sessions
      && "x" in c.bindings.items && c.bindings.items["x"].session == SessionId("a|b")
        && c.bindings.items["x"].turn == TurnId("c")
  {
    hide Step, Execute, Seen, ItemBindings;
    InitialCore(cfg);
    var r1 := OpenThread(1, "a|b");
    assert [] + r1 == r1;
    ThreadOpens(cfg, [], 1, "a|b");
    ThreadOpens(cfg, r1, 2, "a");
    var r2 := r1 + OpenThread(2, "a");
    Shows(cfg, Execute(cfg, r2).state, "a|b", "c", "x");
    RunSnoc(cfg, r2, Show("a|b", "c", "x"));
    var c := CoreOf(Execute(cfg, r2).state);
    BindingsOfItem(cfg.runtime, c.bindings, NoticeOf("a|b", "c", "x"));
    SeenBinds(cfg, c, NoticeOf("a|b", "c", "x"), CoreOf(Execute(cfg, TwoThreads()).state).items);
  }

  lemma SeenBinds(cfg: Config, c: Core, m: ItemNotice, items: map<ItemId, Item>)
    requires m.thread in c.bindings.sessions
    ensures Seen(cfg, c, m, items).bindings == ItemBindings(cfg.runtime, c.bindings, m)
  {
  }

  /** A run in which a joined approval loses its join to a request of another scope. */
  lemma SameItemRun(cfg: Config)
    ensures
      var a, b := ApprovalNotice("a|b", "c", "x", 0, None), ApprovalNotice("a", "b|c", "x", 0, None);
      var before := Execute(cfg, TwoThreads() + [Ask(3, a)]).state.attention.stored;
      var after := Execute(cfg, TwoThreads() + [Ask(3, a)] + [Ask(4, b)]).state.attention.stored;
      && KeyOf(a) in before && IsApproval(before[KeyOf(a)]) && JoinOf(before[KeyOf(a)]) == Joined(ItemId("x"))
      && KeyOf(a) in after && IsApproval(after[KeyOf(a)]) && JoinOf(after[KeyOf(a)]) == Unjoined(ScopeMismatch)
  {
    hide Step, Execute, Filed, Correlation;
    var a, b := ApprovalNotice("a|b", "c", "x", 0, None), ApprovalNotice("a", "b|c", "x", 0, None);
    TwoThreadsBound(cfg);
    KeysCollideOnAnItem();
    var s := Execute(cfg, TwoThreads()).state;
    Asks(cfg, s, 3, a);
    ApprovalFiles(cfg, CoreOf(s), a);
    RunSnoc(cfg, TwoThreads(), Ask(3, a));
    var s1 := Execute(cfg, TwoThreads() + [Ask(3, a)]).state;
    Asks(cfg, s1, 4, b);
    ApprovalFiles(cfg, CoreOf(s1), b);
    RunSnoc(cfg, TwoThreads() + [Ask(3, a)], Ask(4, b));
  }

  // ------------------------------------------------------------------ identifiers without bars

  /** The identifiers that the correlation key joins are free of its separator. */
  ghost predicate BarFreeInput(input: Input) {
    input.Ingest? && DecodeApproval(input.frame.fields).Ok? ==>
      var m := DecodeApproval(input.frame.fields).value;
      BarFree(m.thread) && BarFree(m.turn) && BarFree(m.item)
  }

  function Bars(s: string): nat {
    if s == "" then 0 else (if s[0] == '|' then 1 else 0) + Bars(s[1..])
  }

  lemma {:induction false} BarsAppend(a: string, b: string)
    ensures Bars(a + b) == Bars(a) + Bars(b)
  {
    if a == "" {
      assert a + b == b;
    } else {
      assert (a + b)[1..] == a[1..] + b;
      BarsAppend(a[1..], b);
    }
  }

  lemma {:induction false} NoBars(s: string)
    ensures Bars(s) == 0 <==> BarFree(s)
  {
    if s != "" {
      NoBars(s[1..]);
      assert s == [s[0]] + s[1..];
    }
  }

  lemma KeyBars(t: string, u: string, i: string, n: int)
    ensures Bars(Correlation(t, u, i, n)) == Bars(t) + Bars(u) + Bars(i) + Bars(IntText(n)) + 3
  {
    hide IntText;
    var tail := IntText(n);
    assert Correlation(t, u, i, n) == t + "|" + u + "|" + i + "|" + tail;
    assert "|"[1..] == "";
    BarsAppend(t + "|" + u + "|" + i + "|", tail);
    BarsAppend(t + "|" + u + "|" + i, "|");
    BarsAppend(t + "|" + u + "|", i);
    BarsAppend(t + "|" + u, "|");
    BarsAppend(t + "|", u);
    BarsAppend(t, "|");
  }

  lemma {:induction false} NumbersHaveNoBars(n: nat)
    ensures BarFree(NatText(n))
  {
    if n >= 10 { NumbersHaveNoBars(n / 10); }
  }

  lemma IntegersHaveNoBars(n: int)
    ensures Bars(IntText(n)) == 0
  {
    hide NatText;
    NumbersHaveNoBars(if n < 0 then -n else n);
    NoBars(IntText(n));
  }

  lemma KeySplits(t: string, u: string, i: string, n: int)
    ensures Correlation(t, u, i, n) == t + "|" + (u + "|" + (i + "|" + IntText(n)))
  {
    hide IntText;
  }

  lemma CorrelationInjective(t: string, u: string, i: string, n: int, t': string, u': string, i': string, n': int)
    requires BarFree(t) && BarFree(u) && BarFree(i) && BarFree(t') && BarFree(u') && BarFree(i')
    requires Correlation(t, u, i, n) == Correlation(t', u', i', n')
    ensures t == t' && u == u' && i == i'
  {
    hide Correlation, IntText;
    var x, x' := i + "|" + IntText(n), i' + "|" + IntText(n');
    KeySplits(t, u, i, n);
    KeySplits(t', u', i', n');
    FirstBarSplits(t, u + "|" + x, t', u' + "|" + x');
    FirstBarSplits(u, x, u', x');
    FirstBarSplits(i, IntText(n), i', IntText(n'));
  }

  /** A key built from identifiers without bars is built from no others. */
  lemma KeyDetermines(t: string, u: string, i: string, n: int, t': string, u': string, i': string, n': int)
    requires BarFree(t) && BarFree(u) && BarFree(i) && Correlation(t, u, i, n) == Correlation(t', u', i', n')
    ensures t == t' && u == u' && i == i'
  {
    hide Correlation, IntText;
    KeyBars(t, u, i, n);
    KeyBars(t', u', i', n');
    IntegersHaveNoBars(n);
    IntegersHaveNoBars(n');
    NoBars(t);
    NoBars(u);
    NoBars(i);
    NoBars(t');
    NoBars(u');
    NoBars(i');
    CorrelationInjective(t, u, i, n, t', u', i', n');
  }

  lemma BarFreeIsClashFree(s: State, input: Input)
    requires JoinInvariant(s) && BarFreeInput(input)
    ensures ClashFree(s, input)
  {
    hide Correlation, Fits;
    if Files(s, input) {
      var m := DecodeApproval(input.frame.fields).value;
      if KeyOf(m) in s.attention.stored {
        var e := s.attention.stored[KeyOf(m)];
        assert EntryOk(s.bindings, s.items.stored, s.attention.byRawItem, KeyOf(m), e);
        KeyDetermines(m.thread, m.turn, m.item, m.startedAt, e.session.value.seed, e.turn.value.seed, TargetOf(e).seed,
          e.createdAt);
        assert e.session.value == SessionId(e.session.value.seed) && e.turn.value == TurnId(e.turn.value.seed);
        assert TargetOf(e) == ItemId(TargetOf(e).seed);
        SameScopeFits(s, m);
      }
    }
  }

  /** A run whose approvals carry no bars is clash free, so the join protocol holds of it. */
  lemma {:induction false} BarFreeRunsAreClashFree(cfg: Config, inputs: seq<Input>)
    requires forall k | 0 <= k < |inputs| :: BarFreeInput(inputs[k])
    ensures ClashFreeRun(cfg, inputs)
  {
    hide BarFreeInput, ClashFree, Execute, JoinInvariant;
    if inputs != [] {
      var n := |inputs| - 1;
      BarFreeRunsAreClashFree(cfg, inputs[..n]);
      RunKeepsJoins(cfg, inputs[..n]);
      BarFreeIsClashFree(Execute(cfg, inputs[..n]).state, inputs[n]);
      forall k | 0 <= k < |inputs| ensures ClashFree(Execute(cfg, inputs[..k]).state, inputs[k]) {
        if k < n { assert inputs[..n][..k] == inputs[..k] && inputs[..n][k] == inputs[k]; }
      }
    }
  }
}
