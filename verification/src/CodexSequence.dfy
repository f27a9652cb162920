/**
 Item numbering over every run of the Codex reducer. The counter saturates at 2^64 - 1, so numbers are
 distinct exactly until a second item is stored with that last number.
 */
module CodexSequence {
  import opened Prelude
  import opened Canonical
  import opened Capability
  import opened CodexWire
  import opened CodexBindings
  import opened CodexStep
  import opened CodexRun
  import CodexJoin
  import CodexMirror
  import CodexCollision

  /** One item was stored: a known one keeps its number and creation time, a new one takes the next number. */
  ghost predicate StoresOne(items: Items, items': Items, item: Item) {
    && items'.stored == items.stored[item.id := item]
    && if item.id in items.stored then
         && item.sequence == items.stored[item.id].sequence && item.createdAt == items.stored[item.id].createdAt
         && items'.nextSequence == items.nextSequence
       else
         item.sequence == items.nextSequence && items'.nextSequence == NextAfter(items.nextSequence)
  }

  /** A number is only ever taken or skipped. */
  ghost predicate ItemsStep(items: Items, items': Items) {
    || (items'.stored == items.stored && items'.nextSequence in {items.nextSequence, NextAfter(items.nextSequence)})
    || (exists item :: StoresOne(items, items', item))
  }

  ghost predicate Distinct(items: Items) {
    forall a, b | a in items.stored && b in items.stored && a != b ::
      items.stored[a].sequence != items.stored[b].sequence
  }

  /** No stored number is ahead of the counter, and only the last number can be one the counter still gives out. */
  ghost predicate Numbered(items: Items) {
    && items.nextSequence <= U64_MAX
    && (forall id | id in items.stored ::
          || items.stored[id].sequence < items.nextSequence
          || items.stored[id].sequence == items.nextSequence == U64_MAX)
  }

  /** The last number has been given out. */
  ghost predicate LastTaken(items: Items) { exists id | id in items.stored :: items.stored[id].sequence == U64_MAX }

  ghost predicate KeepsNumbers(items: Items, items': Items) {
    forall id | id in items.stored ::
      && id in items'.stored
      && items'.stored[id].sequence == items.stored[id].sequence
      && items'.stored[id].createdAt == items.stored[id].createdAt
  }

  lemma ItemsStepKeeps(items: Items, items': Items)
    requires ItemsStep(items, items')
    ensures KeepsNumbers(items, items')
    ensures items'.nextSequence <= items.nextSequence + 1
    ensures Numbered(items) ==> Numbered(items')
  {
  }

  /** Storing a further item repeats a number exactly if the last one has been given out. */
  lemma DistinctStep(items: Items, items': Items)
    requires ItemsStep(items, items') && Numbered(items)
    ensures Distinct(items') <==> Distinct(items) && (items'.stored.Keys != items.stored.Keys ==> !LastTaken(items))
  {
    ItemsStepKeeps(items, items');
    if items'.stored.Keys == items.stored.Keys {
      assert forall id | id in items'.stored :: id in items.stored.Keys;
    } else {
      var item :| StoresOne(items, items', item);
      assert item.id !in items.stored;
      assert LastTaken(items) ==> items.nextSequence == U64_MAX;
      forall id | id in items.stored && items.stored[id].sequence == item.sequence ensures LastTaken(items) { }
      if LastTaken(items) {
        var id :| id in items.stored && items.stored[id].sequence == U64_MAX;
        assert items'.stored[id].sequence == items'.stored[item.id].sequence;
      } else if Distinct(items) {
        forall a, b | a in items'.stored && b in items'.stored && a != b
          ensures items'.stored[a].sequence != items'.stored[b].sequence
        {
          assert a == item.id || items'.stored[a] == items.stored[a];
          assert b == item.id || items'.stored[b] == items.stored[b];
        }
      }
    }
  }

  lemma StoreItemSteps(cfg: Config, s: State, m: ItemNotice, started: bool, f: Fields)
    requires m.thread in s.bindings.sessions
    ensures ItemsStep(s.items, StoreItem(cfg, s, m, started, f).state.items)
  {
    hide DecodeBody;
    var b := ItemBindings(cfg.runtime, s.bindings, m);
    var decoded := DecodeBody(f, m.kind, b.items[m.item].id, started, s.items.agentText);
    if decoded.Ok? {
      var item := ItemFor(s.items, b, m, s.bindings.sessions[m.thread].id, decoded.value);
      assert StoresOne(s.items, StoreItem(cfg, s, m, started, f).state.items, item);
    }
  }

  lemma ItemSteps(cfg: Config, s: State, started: bool, f: Fields, at: int)
    ensures ItemsStep(s.items, ReduceItem(cfg, s, started, f, at).state.items)
  {
    hide DecodeItemNotice, StoreItem, Decodable;
    var m := DecodeItemNotice(f, started);
    if m.Ok? && m.value.thread in s.bindings.sessions && Decodable(m.value.kind) {
      StoreItemSteps(cfg, s, m.value, started, f);
    }
  }

  lemma DeltaSteps(s: State, f: Fields, at: int)
    requires forall id | id in s.items.stored :: s.items.stored[id].id == id
    ensures ItemsStep(s.items, ReduceDelta(s, f, at).state.items)
  {
    hide DecodeDelta;
    var o := ReduceDelta(s, f, at);
    if o.state.items != s.items {
      assert StoresOne(s.items, o.state.items, o.result.value[0].item);
    }
  }

  lemma NotificationSteps(cfg: Config, s: State, m: string, f: Fields, at: int)
    requires forall id | id in s.items.stored :: s.items.stored[id].id == id
    ensures ItemsStep(s.items, ReduceNotification(cfg, s, m, f, at).state.items)
  {
    hide ReduceTurnTransition, ReduceItem, ReduceDelta, Finish;
    if m == "turn/started" || m == "turn/completed" {
      CodexJoin.TurnTransitionQuiet(cfg, s, f, at);
      CodexJoin.TurnCompletedCloses(cfg, s, f, at);
      CodexJoin.FinishState(ReduceTurnTransition(cfg, s, false, f, at).state);
    } else if m == "item/started" || m == "item/completed" {
      ItemSteps(cfg, s, m == "item/started", f, at);
    } else if m == "item/agentMessage/delta" {
      DeltaSteps(s, f, at);
    }
  }

  lemma DispatchSteps(cfg: Config, s: State, frame: Frame, at: int)
    requires forall id | id in s.items.stored :: s.items.stored[id].id == id
    ensures ItemsStep(s.items, Dispatch(cfg, s, frame, at).state.items)
  {
    hide ReduceNotification, ReduceClientResponse, FileApproval, ReduceApprovalReply;
    if frame.direction == ClientToServer {
      if frame.method_.None? && frame.id.Some? {
        CodexJoin.ApprovalReplyState(cfg, s, frame.id.value, frame.fields, at);
      }
    } else if frame.method_.Some? {
      if frame.id.Some? && frame.method_.value == APPROVAL_METHOD {
        var m := DecodeApproval(frame.fields);
        if m.Ok? && m.value.thread in s.bindings.sessions {
          CodexJoin.FileApprovalState(cfg, s, frame.id.value, m.value, at);
        }
      } else {
        NotificationSteps(cfg, s, frame.method_.value, frame.fields, at);
      }
    } else if frame.id.Some? {
      CodexJoin.ClientResponseQuiet(cfg, s, frame.id.value, frame, at);
    }
  }

  lemma StepSteps(cfg: Config, s: State, input: Input)
    requires forall id | id in s.items.stored :: s.items.stored[id].id == id
    ensures ItemsStep(s.items, Step(cfg, s, input).state.items)
  {
    hide Dispatch, Finish;
    if input.Ingest? {
      var at := Saturate(cfg.baseAt + input.frame.offset);
      var t := Bootstrap(s.(live := s.live.(probe := s.live.probe.Advance(at))), at).state;
      assert t.items == s.items;
      DispatchSteps(cfg, t, input.frame, at);
    } else if input.CloseWindow? {
      CodexJoin.FinishState(s);
    }
  }

  // ------------------------------------------------------------------ which inputs store a further item

  /** The item this notification stores, if it decodes. */
  function StoredBy(cfg: Config, s: State, started: bool, f: Fields): Option<ItemId> {
    var m := CodexMirror.StoredNotice(cfg, s, started, f);
    if m.None? then None else Some(ItemBindings(cfg.runtime, s.bindings, m.value).items[m.value.item].id)
  }

  predicate IsItemFrame(frame: Frame) {
    && frame.direction == ServerToClient && frame.method_.Some?
    && (frame.method_.value == "item/started" || frame.method_.value == "item/completed")
  }

  /** The input stores an item that was not stored before. */
  predicate StoresFurther(cfg: Config, s: State, input: Input) {
    && input.Ingest? && IsItemFrame(input.frame)
    && var id := StoredBy(cfg, s, input.frame.method_.value == "item/started", input.frame.fields);
    id.Some? && id.value !in s.items.stored
  }

  lemma ItemStores(cfg: Config, s: State, started: bool, f: Fields, at: int)
    ensures
      var id := StoredBy(cfg, s, started, f);
      ReduceItem(cfg, s, started, f, at).state.items.stored.Keys
        == s.items.stored.Keys + if id.Some? then {id.value} else {}
  {
    hide DecodeItemNotice, DecodeBody, ItemBindings, StoreItem, Decodable;
    var m := DecodeItemNotice(f, started);
    if m.Ok? && m.value.thread in s.bindings.sessions && Decodable(m.value.kind) {
      StoreItemStores(cfg, s, m.value, started, f);
    }
  }

  lemma StoreItemStores(cfg: Config, s: State, m: ItemNotice, started: bool, f: Fields)
    requires m.thread in s.bindings.sessions
    ensures
      var id := ItemBindings(cfg.runtime, s.bindings, m).items[m.item].id;
      StoreItem(cfg, s, m, started, f).state.items.stored.Keys
        == s.items.stored.Keys + if DecodeBody(f, m.kind, id, started, s.items.agentText).Ok? then {id} else {}
  {
    hide DecodeBody, ItemBindings, StoreDecoded;
    var id := ItemBindings(cfg.runtime, s.bindings, m).items[m.item].id;
    var decoded := DecodeBody(f, m.kind, id, started, s.items.agentText);
    if decoded.Ok? { CodexJoin.StoreDecodedState(cfg, s, m, decoded.value); }
  }

  lemma NotificationStores(cfg: Config, s: State, m: string, f: Fields, at: int)
    requires m != "item/started" && m != "item/completed"
    ensures ReduceNotification(cfg, s, m, f, at).state.items.stored.Keys == s.items.stored.Keys
  {
    hide ReduceTurnTransition, ReduceItem, Finish, DecodeDelta;
    if m == "turn/started" || m == "turn/completed" {
      CodexJoin.TurnTransitionQuiet(cfg, s, f, at);
      CodexJoin.TurnCompletedCloses(cfg, s, f, at);
      CodexJoin.FinishState(ReduceTurnTransition(cfg, s, false, f, at).state);
    }
  }

  lemma OtherFrameStores(cfg: Config, s: State, frame: Frame, at: int)
    requires !IsItemFrame(frame)
    ensures Dispatch(cfg, s, frame, at).state.items.stored.Keys == s.items.stored.Keys
  {
    hide ReduceNotification, ReduceClientResponse, FileApproval, ReduceApprovalReply;
    if frame.direction == ClientToServer {
      if frame.method_.None? && frame.id.Some? {
        CodexJoin.ApprovalReplyState(cfg, s, frame.id.value, frame.fields, at);
      }
    } else if frame.method_.Some? {
      if frame.id.Some? && frame.method_.value == APPROVAL_METHOD {
        var m := DecodeApproval(frame.fields);
        if m.Ok? && m.value.thread in s.bindings.sessions {
          CodexJoin.FileApprovalState(cfg, s, frame.id.value, m.value, at);
        }
      } else {
        NotificationStores(cfg, s, frame.method_.value, frame.fields, at);
      }
    } else if frame.id.Some? {
      CodexJoin.ClientResponseQuiet(cfg, s, frame.id.value, frame, at);
    }
  }

  lemma FrameStores(cfg: Config, s: State, frame: Frame, at: int)
    ensures
      Dispatch(cfg, s, frame, at).state.items.stored.Keys != s.items.stored.Keys
      <==> StoresFurther(cfg, s, Ingest(frame))
  {
    hide ReduceItem, StoredBy;
    if IsItemFrame(frame) {
      var started := frame.method_.value == "item/started";
      assert Dispatch(cfg, s, frame, at) == ReduceItem(cfg, s, started, frame.fields, at);
      ItemStores(cfg, s, started, frame.fields, at);
    } else {
      OtherFrameStores(cfg, s, frame, at);
    }
  }

  lemma SameStoring(cfg: Config, s: State, t: State, frame: Frame)
    requires t.bindings == s.bindings && t.items == s.items
    ensures StoresFurther(cfg, t, Ingest(frame)) <==> StoresFurther(cfg, s, Ingest(frame))
  {
    hide DecodeItemNotice, DecodeBody, ItemBindings, Decodable;
  }

  /** The keys of the stored items change exactly if the input stores a further item. */
  lemma StepStores(cfg: Config, s: State, input: Input)
    ensures Step(cfg, s, input).state.items.stored.Keys != s.items.stored.Keys <==> StoresFurther(cfg, s, input)
  {
    hide Dispatch, Finish, StoredBy;
    if input.Ingest? {
      var at := Saturate(cfg.baseAt + input.frame.offset);
      var t := Bootstrap(s.(live := s.live.(probe := s.live.probe.Advance(at))), at).state;
      SameStoring(cfg, s, t, input.frame);
      FrameStores(cfg, t, input.frame, at);
    } else if input.CloseWindow? {
      CodexJoin.FinishState(s);
    }
  }

  // ------------------------------------------------------------------ every run

  lemma {:induction false} RunIsNumbered(cfg: Config, inputs: seq<Input>)
    ensures Numbered(Execute(cfg, inputs).state.items)
    ensures Execute(cfg, inputs).state.items.nextSequence <= |inputs|
  {
    hide Step;
    if inputs != [] {
      var front, last := inputs[..|inputs| - 1], inputs[|inputs| - 1];
      RunIsNumbered(cfg, front);
      CodexMirror.StreamMirrorsState(cfg, front);
      var s := Execute(cfg, front).state;
      StepSteps(cfg, s, last);
      ItemsStepKeeps(s.items, Step(cfg, s, last).state.items);
    }
  }

  /** Input k stores a further item after the last number has been given out. */
  ghost predicate RepeatsAt(cfg: Config, inputs: seq<Input>, k: nat)
    requires k < |inputs|
  {
    var s := Execute(cfg, inputs[..k]).state;
    StoresFurther(cfg, s, inputs[k]) && LastTaken(s.items)
  }

  /**
   Every run: distinct stored items carry distinct numbers exactly if no further item is stored after
   the last number has been given out.
   */
  lemma {:induction false} ItemsNumberedDistinctly(cfg: Config, inputs: seq<Input>)
    ensures Distinct(Execute(cfg, inputs).state.items) <==> forall k | 0 <= k < |inputs| :: !RepeatsAt(cfg, inputs, k)
  {
    hide Step, StoresFurther, Distinct, LastTaken, ItemsStep, Numbered;
    if inputs == [] {
      InitialDistinct(cfg);
    } else {
      var n := |inputs| - 1;
      var front := inputs[..n];
      ItemsNumberedDistinctly(cfg, front);
      CodexMirror.StreamMirrorsState(cfg, front);
      RunIsNumbered(cfg, front);
      var s := Execute(cfg, front).state;
      StepSteps(cfg, s, inputs[n]);
      StepStores(cfg, s, inputs[n]);
      DistinctStep(s.items, Step(cfg, s, inputs[n]).state.items);
      assert RepeatsAt(cfg, inputs, n) <==> StoresFurther(cfg, s, inputs[n]) && LastTaken(s.items);
      forall k: nat | k < n ensures RepeatsAt(cfg, inputs, k) <==> RepeatsAt(cfg, front, k) {
        assert front[..k] == inputs[..k] && front[k] == inputs[k];
      }
    }
  }

  lemma InitialDistinct(cfg: Config)
    ensures Distinct(Execute(cfg, []).state.items)
  {
  }

  /** So numbers are distinct on every run of at most 2^64 - 1 inputs. */
  lemma ShortRunsAreDistinct(cfg: Config, inputs: seq<Input>)
    requires |inputs| <= U64_MAX
    ensures Distinct(Execute(cfg, inputs).state.items)
  {
    hide Execute, Distinct, StoresFurther;
    ItemsNumberedDistinctly(cfg, inputs);
    forall k | 0 <= k < |inputs| ensures !RepeatsAt(cfg, inputs, k) {
      RunIsNumbered(cfg, inputs[..k]);
    }
  }

  lemma KeepsTransitive(a: Items, b: Items, c: Items)
    requires KeepsNumbers(a, b) && KeepsNumbers(b, c)
    ensures KeepsNumbers(a, c)
  {
  }

  /** A stored item is never dropped, renumbered or given another creation time. */
  lemma {:induction false} ItemNumbersAreFinal(cfg: Config, inputs: seq<Input>, more: seq<Input>)
    ensures KeepsNumbers(Execute(cfg, inputs).state.items, Execute(cfg, inputs + more).state.items)
    decreases |more|
  {
    hide Step, KeepsNumbers;
    var start := Execute(cfg, inputs).state.items;
    if more == [] {
      assert inputs + more == inputs;
      KeepsReflexive(start);
    } else {
      var front, last := more[..|more| - 1], more[|more| - 1];
      ItemNumbersAreFinal(cfg, inputs, front);
      CodexJoin.ExecuteSplits(cfg, inputs, more);
      var s := Execute(cfg, inputs + front).state;
      CodexMirror.StreamMirrorsState(cfg, inputs + front);
      StepSteps(cfg, s, last);
      ItemsStepKeeps(s.items, Step(cfg, s, last).state.items);
      KeepsTransitive(start, s.items, Step(cfg, s, last).state.items);
    }
  }

  lemma KeepsReflexive(a: Items)
    ensures KeepsNumbers(a, a)
  {
  }

  // ------------------------------------------------------------------ a run that repeats a number

  /** Pairwise different item names. */
  function Name(i: nat): (name: string)
    ensures |name| == i
  {
    seq(i, _ => 'x')
  }

  /** A thread is opened, and n items arrive. */
  function Many(n: nat): (inputs: seq<Input>)
  {
    if n == 0 then CodexCollision.OpenThread(1, "t") else Many(n - 1) + [CodexCollision.Show("t", "u", Name(n - 1))]
  }

  function NumberOf(i: nat): nat { if i < U64_MAX then i else U64_MAX }

  /** The n items are stored under their numbers, and nothing else is. */
  ghost predicate Counted(s: State, n: nat) {
    && s.bindings.Minted() && "t" in s.bindings.sessions && s.items.nextSequence == NumberOf(n)
    && (forall raw | raw in s.bindings.items :: |raw| < n)
    && (forall id | id in s.items.stored :: |id.seed| < n)
    && (forall i: nat | i < n ::
          ItemId(Name(i)) in s.items.stored && s.items.stored[ItemId(Name(i))].sequence == NumberOf(i))
  }

  /** One more item is stored under the next number. */
  lemma ShowTakesNumber(cfg: Config, s: State, item: string)
    requires s.bindings.Minted() && "t" in s.bindings.sessions && item !in s.bindings.items
      && ItemId(item) !in s.items.stored
    requires forall id | id in s.items.stored :: s.items.stored[id].id == id
    ensures
      var s' := Step(cfg, s, CodexCollision.Show("t", "u", item)).state;
      && s'.bindings.Minted() && s'.bindings.sessions == s.bindings.sessions
        && s'.bindings.items.Keys == s.bindings.items.Keys + {item}
      && s'.items.stored.Keys == s.items.stored.Keys + {ItemId(item)} && KeepsNumbers(s.items, s'.items)
      && s'.items.stored[ItemId(item)].sequence == s.items.nextSequence
        && s'.items.nextSequence == NextAfter(s.items.nextSequence)
  {
    hide Step, StoreDecoded, ItemBindings;
    var input := CodexCollision.Show("t", "u", item);
    var m := CodexCollision.NoticeOf("t", "u", item);
    var t, decoded := CodexCollision.ShowStep(cfg, s, "t", "u", item);
    CodexCollision.BindingsOfItem(cfg.runtime, s.bindings, m);
    CodexJoin.StoreDecodedState(cfg, t, m, decoded);
    StepSteps(cfg, s, input);
    var items' := Step(cfg, s, input).state.items;
    ItemsStepKeeps(s.items, items');
    assert ItemId(item) in items'.stored.Keys && ItemId(item) !in s.items.stored.Keys;
    var stored :| StoresOne(s.items, items', stored);
    assert stored.id == ItemId(item);
  }

  lemma CountsOn(cfg: Config, s: State, n: nat)
    requires Counted(s, n) && forall id | id in s.items.stored :: s.items.stored[id].id == id
    ensures Counted(Step(cfg, s, CodexCollision.Show("t", "u", Name(n))).state, n + 1)
  {
    hide Step, Name, Bindings.Minted;
    ShowTakesNumber(cfg, s, Name(n));
    var s' := Step(cfg, s, CodexCollision.Show("t", "u", Name(n))).state;
    forall raw | raw in s'.bindings.items ensures |raw| < n + 1 { assert raw in s'.bindings.items.Keys; }
    forall id | id in s'.items.stored ensures |id.seed| < n + 1 { assert id in s'.items.stored.Keys; }
  }

  lemma {:induction false} ManyAreCounted(cfg: Config, n: nat)
    ensures Counted(Execute(cfg, Many(n)).state, n)
  {
    hide Step, Counted;
    if n == 0 {
      OpeningCounts(cfg);
    } else {
      ManyAreCounted(cfg, n - 1);
      CodexMirror.StreamMirrorsState(cfg, Many(n - 1));
      CountsOn(cfg, Execute(cfg, Many(n - 1)).state, n - 1);
      CodexCollision.RunSnoc(cfg, Many(n - 1), CodexCollision.Show("t", "u", Name(n - 1)));
    }
  }

  lemma OpeningCounts(cfg: Config)
    ensures Counted(Execute(cfg, Many(0)).state, 0)
  {
    hide Step, Execute;
    CodexCollision.ThreadOpens(cfg, [], 1, "t");
    assert [] + CodexCollision.OpenThread(1, "t") == CodexCollision.OpenThread(1, "t");
    CodexCollision.InitialCore(cfg);
  }

  /** A run in which 2^64 + 1 items arrive, and the last two carry the same number. */
  lemma LongRunRepeatsANumber(cfg: Config)
    ensures |Many(U64_MAX + 2)| == U64_MAX + 4 && !Distinct(Execute(cfg, Many(U64_MAX + 2)).state.items)
  {
    hide Execute;
    ManyAreCounted(cfg, U64_MAX + 2);
    ManyIsLong(U64_MAX + 2);
    var a, b := ItemId(Name(U64_MAX)), ItemId(Name(U64_MAX + 1));
    assert |a.seed| != |b.seed|;
  }

  lemma {:induction false} ManyIsLong(n: nat)
    ensures |Many(n)| == n + 2
  {
    if n > 0 { ManyIsLong(n - 1); }
  }
}
