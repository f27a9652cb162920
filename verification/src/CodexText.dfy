/**
 Streaming text, over every run of the Codex reducer (crates/kaleido-adapter-codex/src/reduce.rs): between two
 notifications of an agent message its text is what it was, followed by the accepted fragments in order.
 */
module CodexText {
  import opened Prelude
  import opened Canonical
  import opened Capability
  import opened CodexWire
  import opened CodexBindings
  import opened CodexStep
  import opened CodexRun
  import opened CodexJoin
  import opened CodexLedger
  import opened CodexHistory

  // ------------------------------------------------------------------ what an input is

  /** A fragment of an agent message. */
  predicate Streams(input: Input, d: Delta) {
    Notifies(input, "item/agentMessage/delta") && DecodeDelta(input.frame.fields) == Ok(d)
  }

  /** The item as a whole. */
  predicate Shows(input: Input, started: bool, m: ItemNotice) {
    && Notifies(input, if started then "item/started" else "item/completed")
    && DecodeItemNotice(input.frame.fields, started) == Ok(m)
  }

  // ------------------------------------------------------------------ the invariant

  /** The text being accumulated is the text shown, and every stored item is bound. */
  ghost predicate TextKept(s: State) {
    && s.bindings.Minted()
    && (forall id | id in s.items.stored :: id.seed in s.bindings.items)
    && (forall id | id in s.items.agentText :: id in s.items.stored)
    && (forall id | id in s.items.stored && s.items.stored[id].body.AgentMessage? ::
          id in s.items.agentText && s.items.agentText[id] == s.items.stored[id].body.content.text)
  }

  predicate IsMessage(s: State, raw: string) {
    ItemId(raw) in s.items.stored && s.items.stored[ItemId(raw)].body.AgentMessage?
  }

  function TextOf(s: State, raw: string): string
    requires IsMessage(s, raw)
  {
    s.items.stored[ItemId(raw)].body.content.text
  }

  // ------------------------------------------------------------------ one step

  /** Items are as they were, and nothing that was bound is lost. */
  ghost predicate ItemsKept(s: State, s': State) {
    && s'.items == s.items && s'.bindings.Extends(s.bindings) && s'.bindings.Minted()
  }

  lemma ItemsKeptText(s: State, s': State)
    requires TextKept(s) && ItemsKept(s, s')
    ensures TextKept(s')
  {
  }

  lemma QuietItems(rt: RuntimeId, s: State, s': State)
    requires TextKept(s) && Quiet(rt, s, s')
    ensures ItemsKept(s, s')
  {
    ScopeBoundGrows(rt, s.bindings, s'.bindings);
  }

  /** What a fragment does. */
  ghost predicate Appends(s: State, o: Outcome, d: Delta, at: int) {
    if d.thread !in s.bindings.sessions then o.result.Err? && o.state.items == s.items
    else
      && o.result.Ok?
      && if !IsMessage(s, d.item) then o.state.items == s.items
         else
           var id := ItemId(d.item);
           var old' := s.items.stored[id];
           var new' := old'.(body := AgentMessage(ContentRef(Markdown, TextOf(s, d.item) + d.fragment),
             old'.body.phase),
                             updatedAt := at);
           && o.state.items.stored == s.items.stored[id := new']
           && o.state.items.nextSequence == s.items.nextSequence
           && o.result.value == [ItemUpserted(new')]
  }

  lemma BoundTo(s: State, raw: string)
    requires TextKept(s)
    ensures raw in s.bindings.items ==> s.bindings.items[raw].id == ItemId(raw)
    ensures ItemId(raw) in s.items.stored ==> raw in s.bindings.items
    ensures IsMessage(s, raw) ==>
      ItemId(raw) in s.items.agentText && s.items.agentText[ItemId(raw)] == TextOf(s, raw)
  {
    if ItemId(raw) in s.items.stored { assert ItemId(raw).seed in s.bindings.items; }
  }

  lemma DeltaAppends(s: State, f: Fields, d: Delta, at: int)
    requires TextKept(s) && DecodeDelta(f) == Ok(d)
    ensures Appends(s, ReduceDelta(s, f, at), d, at)
  {
    BoundTo(s, d.item);
    hide DecodeDelta, TextKept;
  }

  lemma DeltaKept(s: State, f: Fields, at: int)
    requires TextKept(s)
    ensures TextKept(ReduceDelta(s, f, at).state)
  {
    hide DecodeDelta;
  }

  /** What a whole item does to the stored items. */
  ghost predicate Replaces(s: State, s': State, raw: string) {
    forall id | id != ItemId(raw) ::
      (id in s'.items.stored <==> id in s.items.stored) &&
      (id in s.items.stored ==> s'.items.stored[id] == s.items.stored[id])
  }

  lemma BodyText(f: Fields, kind: string, id: ItemId, started: bool, agentText: map<ItemId, string>)
    ensures
      var decoded := DecodeBody(f, kind, id, started, agentText);
      decoded.Ok? ==>
        && (decoded.value.body.AgentMessage? <==> kind == "agentMessage")
        && (forall i | i != id ::
              && (i in decoded.value.agentText <==> i in agentText)
              && (i in agentText ==> decoded.value.agentText[i] == agentText[i]))
        && (kind == "agentMessage" ==>
              && id in decoded.value.agentText && decoded.value.agentText[id] == decoded.value.body.content.text
              && decoded.value.body.content.text ==
                 (if started && id in agentText then agentText[id] else ReadText(f, AgentMessageText).value))
  {
  }

  lemma StoreDecodedItems(cfg: Config, s: State, m: ItemNotice, decoded: DecodedBody)
    requires m.thread in s.bindings.sessions
    ensures
      var s' := StoreDecoded(cfg, s, m, decoded).state;
      var b := ItemBindings(cfg.runtime, s.bindings, m);
      var id := b.items[m.item].id;
      && s'.bindings == b && s'.items.agentText == decoded.agentText
      && id in s'.items.stored && s'.items.stored[id].body == decoded.body
      && s'.items.stored == s.items.stored[id := s'.items.stored[id]]
  {
    hide ItemBindings, UpgradedAttention, UpgradeEffects;
  }

  /** The stored items after one of them was replaced. */
  lemma ReplacedText(s: State, s': State, raw: string, decoded: DecodedBody)
    requires TextKept(s) && s'.bindings.Minted() && s'.bindings.Extends(s.bindings) && raw in s'.bindings.items
    requires ItemId(raw) in s'.items.stored && s'.items.stored[ItemId(raw)].body == decoded.body
    requires s'.items.stored == s.items.stored[ItemId(raw) := s'.items.stored[ItemId(raw)]]
    requires s'.items.agentText == decoded.agentText
    requires forall i | i != ItemId(raw) ::
      && (i in decoded.agentText <==> i in s.items.agentText)
      && (i in s.items.agentText ==> decoded.agentText[i] == s.items.agentText[i])
    requires decoded.body.AgentMessage? ==>
      ItemId(raw) in decoded.agentText && decoded.agentText[ItemId(raw)] == decoded.body.content.text
    ensures TextKept(s') && Replaces(s, s', raw)
  {
  }

  lemma StoreItemText(cfg: Config, s: State, m: ItemNotice, started: bool, f: Fields)
    requires TextKept(s) && m.thread in s.bindings.sessions
    ensures
      var o := StoreItem(cfg, s, m, started, f);
      && TextKept(o.state) && Replaces(s, o.state, m.item)
      && (o.result.Err? ==> o.state.items.stored == s.items.stored)
      && (o.result.Ok? && m.kind == "agentMessage" ==>
            && IsMessage(o.state, m.item)
            && TextOf(o.state, m.item) ==
               if started && ItemId(m.item) in s.items.agentText then s.items.agentText[ItemId(m.item)]
               else ReadText(f, AgentMessageText).value)
  {
    hide DecodeBody, StoreDecoded, ItemBindings, ReadText;
    TextMints(s);
    ItemBindingsGrow(cfg.runtime, s.bindings, m);
    var b := ItemBindings(cfg.runtime, s.bindings, m);
    var id, o := b.items[m.item].id, StoreItem(cfg, s, m, started, f);
    assert id == ItemId(m.item);
    BodyText(f, m.kind, id, started, s.items.agentText);
    var decoded := DecodeBody(f, m.kind, id, started, s.items.agentText);
    if decoded.Ok? {
      StoreDecodedItems(cfg, s, m, decoded.value);
      hide TextKept, Replaces;
      ReplacedText(s, o.state, m.item, decoded.value);
    } else {
      assert o.state.bindings.Extends(s.bindings);
    }
  }

  lemma ItemText(cfg: Config, s: State, started: bool, f: Fields, at: int)
    requires TextKept(s)
    ensures
      var o, m := ReduceItem(cfg, s, started, f, at), DecodeItemNotice(f, started);
      && TextKept(o.state)
      && (m.Err? ==> o.state == s)
      && (m.Ok? ==> Replaces(s, o.state, m.value.item))
  {
    hide DecodeItemNotice, StoreItem, TextKept;
    var o, m := ReduceItem(cfg, s, started, f, at), DecodeItemNotice(f, started);
    if m.Ok? && m.value.thread in s.bindings.sessions {
      if Decodable(m.value.kind) {
        StoreItemText(cfg, s, m.value, started, f);
      } else {
        assert s.bindings.Minted() by { TextMints(s); }
        BindTurnGrows(cfg.runtime, s.bindings, m.value.turn, s.bindings.sessions[m.value.thread].id);
        ItemsKeptText(s, o.state);
      }
    }
  }

  lemma TextMints(s: State)
    requires TextKept(s)
    ensures s.bindings.Minted()
  {
  }

  lemma TurnTransitionItems(cfg: Config, s: State, completed: bool, f: Fields, at: int)
    requires TextKept(s)
    ensures ItemsKept(s, ReduceTurnTransition(cfg, s, completed, f, at).state)
  {
    hide ReduceTurnTransition, Finish;
    var open := ReduceTurnTransition(cfg, s, false, f, at);
    TurnTransitionQuiet(cfg, s, f, at);
    QuietItems(cfg.runtime, s, open.state);
    TurnCompletedCloses(cfg, s, f, at);
    if open.result.Ok? { FinishState(open.state); }
  }

  lemma FileApprovalItems(cfg: Config, s: State, id: int, m: ApprovalNotice, at: int)
    requires TextKept(s) && m.thread in s.bindings.sessions
    ensures ItemsKept(s, FileApproval(cfg, s, id, m, at).state)
  {
    hide FileApproval, ApprovalBindings;
    ApprovalBindingsGrow(cfg.runtime, s.bindings, m);
    FileApprovalState(cfg, s, id, m, at);
  }

  lemma ApprovalReplyItems(cfg: Config, s: State, id: int, f: Fields, at: int)
    requires TextKept(s)
    ensures ItemsKept(s, ReduceApprovalReply(cfg, s, id, f, at).state)
  {
    hide ReduceApprovalReply;
    ApprovalReplyState(cfg, s, id, f, at);
  }

  /** Only notifications of items and of fragments touch the items. */
  ghost predicate TouchesItems(frame: Frame) {
    && frame.direction == ServerToClient && frame.method_.Some?
    && frame.method_.value in ["item/started", "item/completed", "item/agentMessage/delta"]
  }

  lemma ItemsSame(s: State, s': State)
    requires TextKept(s) && s'.items == s.items && s'.bindings == s.bindings
    ensures ItemsKept(s, s')
  {
  }

  lemma NotificationItems(cfg: Config, s: State, m: string, f: Fields, at: int)
    requires TextKept(s) && m !in ["item/started", "item/completed", "item/agentMessage/delta"]
    ensures ItemsKept(s, ReduceNotification(cfg, s, m, f, at).state)
  {
    hide ReduceTurnTransition, ReduceItem, ReduceDelta, ReduceStatusChanged, ReduceThreadStarted, ItemsKept, TextKept;
    TurnTransitionItems(cfg, s, m == "turn/completed", f, at);
    StatusSame(s, f, at);
    StatusItems(s, f, at);
    ItemsSame(s, s);
    ItemsSame(s, ReduceStatusChanged(s, f, at).state);
    ItemsSame(s, DiagnoseOnly(s, UnknownUpstreamMessage, s.live.sessionId, None, at).state);
  }

  lemma StatusItems(s: State, f: Fields, at: int)
    ensures ReduceStatusChanged(s, f, at).state.items == s.items && ReduceThreadStarted(s, f).state == s
  {
    hide SessionStatusOf;
  }

  lemma AskItems(cfg: Config, s: State, id: int, f: Fields, at: int)
    requires TextKept(s)
    ensures ItemsKept(s, ReduceApprovalRequest(cfg, s, id, f, at).state)
  {
    hide FileApproval, DecodeApproval;
    var m := DecodeApproval(f);
    if m.Ok? && m.value.thread in s.bindings.sessions { FileApprovalItems(cfg, s, id, m.value, at); }
  }

  lemma ResponseItems(cfg: Config, s: State, id: int, frame: Frame, at: int)
    requires TextKept(s)
    ensures ItemsKept(s, ReduceClientResponse(cfg, s, id, frame, at).state)
  {
    hide ReduceClientResponse;
    ClientResponseQuiet(cfg, s, id, frame, at);
    QuietItems(cfg.runtime, s, ReduceClientResponse(cfg, s, id, frame, at).state);
  }

  lemma DispatchItems(cfg: Config, s: State, frame: Frame, at: int)
    requires TextKept(s) && !TouchesItems(frame)
    ensures ItemsKept(s, Dispatch(cfg, s, frame, at).state)
  {
    hide ReduceNotification, ReduceClientResponse, ReduceApprovalRequest, ReduceApprovalReply;
    if frame.id.Some? {
      ApprovalReplyItems(cfg, s, frame.id.value, frame.fields, at);
      AskItems(cfg, s, frame.id.value, frame.fields, at);
      ResponseItems(cfg, s, frame.id.value, frame, at);
    }
    if frame.direction == ServerToClient && frame.method_.Some? {
      NotificationItems(cfg, s, frame.method_.value, frame.fields, at);
    }
  }

  lemma IngestItems(cfg: Config, s: State, frame: Frame) returns (t: State)
    ensures t.bindings == s.bindings && t.items == s.items
    ensures
      var o, d := IngestFrame(cfg, s, frame), Dispatch(cfg, t, frame, TimeOf(cfg, frame));
      && o.state.bindings == d.state.bindings && o.state.items == d.state.items
      && o.result.Ok? == d.result.Ok?
  {
    hide Dispatch;
    var at := TimeOf(cfg, frame);
    t := Bootstrap(s.(live := s.live.(probe := s.live.probe.Advance(at))), at).state;
  }

  lemma SameItems(s: State, t: State)
    requires t.bindings == s.bindings && t.items == s.items && TextKept(s)
    ensures TextKept(t)
  {
  }

  lemma OtherText(cfg: Config, s: State, input: Input)
    requires TextKept(s) && (input.Ingest? ==> !TouchesItems(input.frame))
    ensures TextKept(Step(cfg, s, input).state) && Step(cfg, s, input).state.items == s.items
  {
    hide IngestFrame, Dispatch, Finish, TextKept, TouchesItems;
    var s' := Step(cfg, s, input).state;
    match input {
      case Ingest(frame) =>
        var t := IngestItems(cfg, s, frame);
        SameItems(s, t);
        DispatchItems(cfg, t, frame, TimeOf(cfg, frame));
        ItemsKeptText(t, Dispatch(cfg, t, frame, TimeOf(cfg, frame)).state);
        SameItems(Dispatch(cfg, t, frame, TimeOf(cfg, frame)).state, s');
      case CloseWindow =>
        FinishState(s);
        SameItems(s, s');
      case _ => SameItems(s, s');
    }
  }

  lemma DeltaDispatches(cfg: Config, s: State, frame: Frame, at: int)
    requires Notifies(Ingest(frame), "item/agentMessage/delta")
    ensures Dispatch(cfg, s, frame, at) == ReduceDelta(s, frame.fields, at)
  {
    hide ReduceDelta;
  }

  lemma ItemDispatches(cfg: Config, s: State, frame: Frame, started: bool, at: int)
    requires Notifies(Ingest(frame), if started then "item/started" else "item/completed")
    ensures Dispatch(cfg, s, frame, at) == ReduceItem(cfg, s, started, frame.fields, at)
  {
    hide ReduceItem;
  }

  lemma AppendedText(s: State, o: Outcome, d: Delta, at: int)
    requires Appends(s, o, d, at)
    ensures Replaces(s, o.state, d.item) && (o.result.Ok? <==> d.thread in s.bindings.sessions)
    ensures IsMessage(s, d.item) ==>
      && IsMessage(o.state, d.item)
      && TextOf(o.state, d.item) == TextOf(s, d.item) + if o.result.Ok? then d.fragment else ""
  {
    if IsMessage(s, d.item) { assert TextOf(s, d.item) + "" == TextOf(s, d.item); }
  }

  /** An accepted fragment goes to the end of its message, and to no other. */
  lemma DeltaStep(cfg: Config, s: State, input: Input, d: Delta)
    requires TextKept(s) && Streams(input, d)
    ensures
      var r := Step(cfg, s, input);
      && TextKept(r.state)
      && (Accepted(r.reply) <==> d.thread in s.bindings.sessions)
      && Replaces(s, r.state, d.item)
      && (IsMessage(s, d.item) ==>
            && IsMessage(r.state, d.item)
            && TextOf(r.state, d.item) == TextOf(s, d.item) + if Accepted(r.reply) then d.fragment else "")
  {
    hide Dispatch, IngestFrame, ReduceDelta, TextKept, DecodeDelta, Appends;
    var t := IngestItems(cfg, s, input.frame);
    SameItems(s, t);
    var at, f := TimeOf(cfg, input.frame), input.frame.fields;
    DeltaDispatches(cfg, t, input.frame, at);
    DeltaAppends(t, f, d, at);
    DeltaKept(t, f, at);
    AppendedText(t, ReduceDelta(t, f, at), d, at);
    SameItems(ReduceDelta(t, f, at).state, Step(cfg, s, input).state);
  }

  lemma UnreadDelta(cfg: Config, s: State, input: Input)
    requires TextKept(s) && Notifies(input, "item/agentMessage/delta") && forall d :: !Streams(input, d)
    ensures TextKept(Step(cfg, s, input).state) && Step(cfg, s, input).state.items == s.items
  {
    var t := IngestItems(cfg, s, input.frame);
    hide IngestFrame, TextKept, DecodeDelta;
    var m := DecodeDelta(input.frame.fields);
    assert m.Ok? ==> Streams(input, m.value);
    SameItems(s, Step(cfg, s, input).state);
  }

  /** A whole item replaces itself, and no other. */
  lemma ItemStep(cfg: Config, s: State, input: Input, started: bool)
    requires TextKept(s) && Notifies(input, if started then "item/started" else "item/completed")
    ensures TextKept(Step(cfg, s, input).state)
    ensures forall raw :: (forall m :: Shows(input, started, m) ==> m.item != raw) ==>
      (ItemId(raw) in Step(cfg, s, input).state.items.stored <==> ItemId(raw) in s.items.stored) &&
      (ItemId(raw) in s.items.stored ==>
         Step(cfg, s, input).state.items.stored[ItemId(raw)] == s.items.stored[ItemId(raw)])
  {
    var t := IngestItems(cfg, s, input.frame);
    SameItems(s, t);
    var at, f := TimeOf(cfg, input.frame), input.frame.fields;
    hide IngestFrame, ReduceItem, TextKept, DecodeItemNotice, Dispatch;
    ItemText(cfg, t, started, f, at);
    ItemDispatches(cfg, t, input.frame, started, at);
    SameItems(ReduceItem(cfg, t, started, f, at).state, Step(cfg, s, input).state);
    var m := DecodeItemNotice(f, started);
    assert m.Ok? ==> Shows(input, started, m.value);
  }

  // ------------------------------------------------------------------ every run

  /** Shown as a whole, started or completed. */
  ghost predicate Shown(input: Input, raw: string) {
    exists started, m :: Shows(input, started, m) && m.item == raw
  }

  /** What a step does to the text of a message that it does not show as a whole. */
  lemma TextStep(cfg: Config, s: State, input: Input)
    requires TextKept(s)
    ensures
      var r := Step(cfg, s, input);
      && TextKept(r.state)
      && forall raw | IsMessage(s, raw) && !Shown(input, raw) ::
           && IsMessage(r.state, raw)
           && TextOf(r.state, raw) == TextOf(s, raw) +
              if Accepted(r.reply) && (exists d :: Streams(input, d) && d.item == raw)
              then DecodeDelta(input.frame.fields).value.fragment else ""
  {
    hide Step, TextKept, DecodeDelta, DecodeItemNotice;
    var r := Step(cfg, s, input);
    forall raw | IsMessage(s, raw) ensures TextOf(s, raw) + "" == TextOf(s, raw) {}
    if d :| Streams(input, d) {
      DeltaStep(cfg, s, input, d);
      assert forall other :: Streams(input, other) ==> other == d;
    } else if Notifies(input, "item/agentMessage/delta") {
      UnreadDelta(cfg, s, input);
    } else if Notifies(input, "item/started") {
      ItemStep(cfg, s, input, true);
    } else if Notifies(input, "item/completed") {
      ItemStep(cfg, s, input, false);
    } else {
      OtherText(cfg, s, input);
    }
  }

  lemma {:induction false} TextAlways(cfg: Config, inputs: seq<Input>, n: nat)
    requires n <= |inputs|
    ensures TextKept(At(cfg, inputs, n))
  {
    hide Step, Execute;
    if n == 0 {
      AtStart(cfg, inputs);
    } else {
      TextAlways(cfg, inputs, n - 1);
      TextStep(cfg, At(cfg, inputs, n - 1), inputs[n - 1]);
      AtNext(cfg, inputs, n - 1);
    }
  }

  /** The accepted fragments of a message, in order. */
  ghost function Fragments(cfg: Config, inputs: seq<Input>, i: nat, j: nat, raw: string): string
    requires i <= j <= |inputs|
    decreases j
  {
    if i == j then ""
    else
      Fragments(cfg, inputs, i, j - 1, raw) +
      if Accepted(ReplyAt(cfg, inputs, j - 1)) && (exists d :: Streams(inputs[j - 1], d) && d.item == raw)
      then DecodeDelta(inputs[j - 1].frame.fields).value.fragment else ""
  }

  /** Until it is shown as a whole again, a message is what it was, followed by its fragments. */
  lemma {:induction false} TextIsWhatWasStreamed(cfg: Config, inputs: seq<Input>, i: nat, j: nat, raw: string)
    requires i <= j <= |inputs| && IsMessage(At(cfg, inputs, i), raw)
    requires forall k | i <= k < j :: !Shown(inputs[k], raw)
    ensures IsMessage(At(cfg, inputs, j), raw)
    ensures TextOf(At(cfg, inputs, j), raw) == TextOf(At(cfg, inputs, i), raw) + Fragments(cfg, inputs, i, j, raw)
    decreases j
  {
    hide Step, Execute, TextKept, Shown, IsMessage, Streams;
    if i == j {
      assert TextOf(At(cfg, inputs, i), raw) + "" == TextOf(At(cfg, inputs, i), raw);
    } else {
      TextIsWhatWasStreamed(cfg, inputs, i, j - 1, raw);
      TextAlways(cfg, inputs, j - 1);
      AtNext(cfg, inputs, j - 1);
      TextStep(cfg, At(cfg, inputs, j - 1), inputs[j - 1]);
    }
  }

  /** The text of a message that is shown as a whole: its own once completed, what was streamed until then. */
  lemma ShownText(cfg: Config, inputs: seq<Input>, n: nat, started: bool, m: ItemNotice)
    requires n < |inputs| && Shows(inputs[n], started, m) && m.kind == "agentMessage"
    requires Accepted(ReplyAt(cfg, inputs, n))
    ensures IsMessage(At(cfg, inputs, n + 1), m.item)
    ensures
      var s, text := At(cfg, inputs, n), TextOf(At(cfg, inputs, n + 1), m.item);
      && (started && IsMessage(s, m.item) ==> text == TextOf(s, m.item))
      && (!started || ItemId(m.item) !in s.items.stored ==>
            Ok(text) == ReadText(inputs[n].frame.fields, AgentMessageText))
  {
    hide Step, Execute, TextKept, ReadText, DecodeItemNotice;
    TextAlways(cfg, inputs, n);
    AtNext(cfg, inputs, n);
    ShownStep(cfg, At(cfg, inputs, n), inputs[n], started, m);
  }

  lemma ShownStep(cfg: Config, s: State, input: Input, started: bool, m: ItemNotice)
    requires TextKept(s) && Shows(input, started, m) && m.kind == "agentMessage"
    requires Accepted(Step(cfg, s, input).reply)
    ensures
      var s' := Step(cfg, s, input).state;
      && IsMessage(s', m.item)
      && (started && IsMessage(s, m.item) ==> TextOf(s', m.item) == TextOf(s, m.item))
      && (!started || ItemId(m.item) !in s.items.stored ==>
            Ok(TextOf(s', m.item)) == ReadText(input.frame.fields, AgentMessageText))
  {
    var t := IngestItems(cfg, s, input.frame);
    SameItems(s, t);
    var at, f := TimeOf(cfg, input.frame), input.frame.fields;
    hide IngestFrame, StoreItem, DecodeItemNotice, ReadText, Dispatch, ItemsKept;
    ItemDispatches(cfg, t, input.frame, started, at);
    assert m.thread in t.bindings.sessions;
    StoreItemText(cfg, t, m, started, f);
    StoredTextIsRead(cfg, t, m, started, f);
  }

  lemma StoredTextIsRead(cfg: Config, s: State, m: ItemNotice, started: bool, f: Fields)
    requires m.thread in s.bindings.sessions && m.kind == "agentMessage"
    ensures StoreItem(cfg, s, m, started, f).result.Ok? ==> ReadText(f, AgentMessageText).Ok?
  {
    hide ItemBindings, StoreDecoded, ReadText;
  }
}
