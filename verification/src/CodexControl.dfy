/**
 The order of evidence in the Codex effect stream, over every run: no session is shown as observed or
 controlled before the capability set that supports it, and none as controlled before a registered
 broker command has been carried to the runtime and acknowledged by it.
 */
module CodexControl {
  import opened Prelude
  import opened Canonical
  import opened Capability
  import opened CodexWire
  import opened CodexBindings
  import opened CodexStep
  import opened CodexRun
  import CodexJoin

  // ------------------------------------------------------------------ a monitor reading the log

  /** A command for one session. */
  datatype Order = Order(command: CommandId, session: SessionId)

  /**
   What a reader of the log has seen: whether it is live traffic, the latest capability set, and the
   commands that were registered, then carried by a turn, then acknowledged by the runtime for the
   session of that turn.
   */
  datatype Monitor = Monitor(
    live: bool,
    caps: Option<RuntimeCapabilities>,
    registered: set<CommandId>, turned: set<Order>, acked: set<Order>,
    ok: bool)

  function Watching(cfg: Config): Monitor { Monitor(cfg.evidence == ObservedInTraffic, None, {}, {}, {}, true) }

  /** The store's rule for a live binding (crates/kaleido-proto/src/session.rs:163-230). */
  predicate Supports(caps: Option<RuntimeCapabilities>, binding: LiveBinding)
    requires binding.IsLive()
  {
    && caps.Some?
    && binding.evidence.source == ObservedInTraffic
    && binding.runtime == caps.value.runtime
    && caps.value.Permits(LiveObserve)
    && (binding.Controlling? ==> caps.value.Permits(LiveControl))
  }

  function Next(m: Monitor, e: Event): Monitor {
    match e
    case Registration(_, c) => m.(registered := m.registered + {c})
    case Effected(effect) =>
      match effect
      case CapabilitiesUpdated(caps) => m.(caps := Some(caps))
      case TurnUpserted(turn) =>
        if turn.origin.RemoteCommand? && turn.origin.command in m.registered
        then m.(turned := m.turned + {Order(turn.origin.command, turn.session)}) else m
      case CommandAcknowledged(c, outcome, _) =>
        if outcome.AcceptedByRuntime? && Order(c, outcome.session) in m.turned
        then m.(acked := m.acked + {Order(c, outcome.session)}) else m
      case SessionUpserted(session) =>
        if session.liveBinding.IsLive()
        then m.(ok := && m.ok && m.live && Supports(m.caps, session.liveBinding)
                      && (session.liveBinding.Controlling? ==> exists o | o in m.acked :: o.session == session.id))
        else m
      case _ => m
  }

  function Watch(m: Monitor, log: seq<Event>): Monitor {
    if log == [] then m else Next(Watch(m, log[..|log| - 1]), log[|log| - 1])
  }

  lemma {:induction false} WatchAppend(m: Monitor, xs: seq<Event>, ys: seq<Event>)
    ensures Watch(m, xs + ys) == Watch(Watch(m, xs), ys)
  {
    if ys == [] {
      assert xs + ys == xs;
    } else {
      assert (xs + ys)[..|xs + ys| - 1] == xs + ys[..|ys| - 1];
      WatchAppend(m, xs, ys[..|ys| - 1]);
    }
  }

  lemma WatchOne(m: Monitor, e: Event)
    ensures Watch(m, [e]) == Next(m, e)
  {
    assert [e][..0] == [];
  }

  // ------------------------------------------------------------------ the invariant

  ghost predicate ProbeAgrees(cfg: Config, live: Live, caps: Option<RuntimeCapabilities>) {
    && live.probe.runtime == cfg.runtime && live.probe.source == cfg.evidence && live.probe.overrides == map[]
    && live.published == live.probe.proven
    && match caps
       case None => live.probe.proven == []
       case Some(c) => c.runtime == cfg.runtime && forall k :: c.Permits(k) <==> k in live.probe.proven
  }

  ghost predicate BindingProven(cfg: Config, live: Live) {
    && (live.session.Some? ==> live.sessionId == Some(live.session.value.id))
    && (live.session.Some? && live.session.value.liveBinding.IsLive() ==>
      && cfg.evidence == ObservedInTraffic
      && live.session.value.liveBinding.runtime == cfg.runtime
      && LiveObserve in live.probe.proven
      && (live.session.value.liveBinding.Controlling? ==> LiveControl in live.probe.proven))
  }

  ghost predicate ControlRegistered(cfg: Config, control: map<int, CommandId>, m: Monitor) {
    forall id | id in control :: control[id] in m.registered && cfg.evidence == ObservedInTraffic
  }

  ghost predicate ControlInvariant(cfg: Config, s: State, m: Monitor) {
    && m.ok && m.live == (cfg.evidence == ObservedInTraffic)
    && ProbeAgrees(cfg, s.live, m.caps)
    && BindingProven(cfg, s.live)
    && ControlRegistered(cfg, s.calls.control, m)
  }

  // ------------------------------------------------------------------ calm steps

  /** Says nothing about capabilities and shows no session as live. */
  predicate Tame(e: Effect) {
    && !e.CapabilitiesUpdated?
    && (e.SessionUpserted? ==> !e.session.liveBinding.IsLive())
  }

  predicate AllTame(effects: seq<Effect>) {
    forall i | 0 <= i < |effects| :: Tame(effects[i])
  }

  lemma {:induction false} WatchTame(m: Monitor, effects: seq<Effect>)
    requires AllTame(effects)
    ensures
      var m' := Watch(m, Lift(effects));
      m'.live == m.live && m'.caps == m.caps && m'.ok == m.ok && m'.registered == m.registered
  {
    if effects != [] {
      var front := effects[..|effects| - 1];
      assert Lift(effects)[..|effects| - 1] == Lift(front);
      assert Tame(effects[|effects| - 1]);
      WatchTame(m, front);
    }
  }

  /** Evidence is unchanged, and a live binding is one that was there before. */
  ghost predicate CalmLive(live: Live, live': Live) {
    && live'.probe.proven == live.probe.proven && live'.probe.overrides == live.probe.overrides
    && live'.probe.runtime == live.probe.runtime && live'.probe.source == live.probe.source
    && live'.published == live.published && live'.sessionId == live.sessionId
    && (live'.session.Some? ==> live.session.Some? && live'.session.value.id == live.session.value.id)
    && (live'.session.Some? && live'.session.value.liveBinding.IsLive() ==>
          live.session.Some? && live.session.value.liveBinding == live'.session.value.liveBinding)
  }

  ghost predicate SubControl(control: map<int, CommandId>, control': map<int, CommandId>) {
    forall id | id in control' :: id in control && control'[id] == control[id]
  }

  ghost predicate Calm(s: State, s': State, effects: seq<Effect>) {
    CalmLive(s.live, s'.live) && SubControl(s.calls.control, s'.calls.control) && AllTame(effects)
  }

  lemma CalmKeeps(cfg: Config, s: State, m: Monitor, s': State, effects: seq<Effect>)
    requires ControlInvariant(cfg, s, m) && Calm(s, s', effects)
    ensures ControlInvariant(cfg, s', Watch(m, Lift(effects)))
  {
    WatchTame(m, effects);
  }

  ghost predicate CalmOutcome(s: State, o: Outcome) {
    Calm(s, o.state, Said(o))
  }

  lemma {:induction false} UpgradeEffectsTame(b: Bindings, items: map<ItemId, Item>, raw: string, attention: Attention,
                                              local: set<AttentionId>, ids: seq<AttentionId>)
    ensures AllTame(UpgradeEffects(b, items, raw, attention, local, ids))
  {
    if ids != [] { UpgradeEffectsTame(b, items, raw, attention, local, ids[..|ids| - 1]); }
  }

  lemma {:induction false} ClosingEffectsTame(attention: Attention, d: Diagnostics, session: Option<SessionId>,
                                              local: set<AttentionId>, ids: seq<AttentionId>)
    ensures AllTame(ClosingEffects(attention, d, session, local, ids))
  {
    if ids != [] { ClosingEffectsTame(attention, d, session, local, ids[..|ids| - 1]); }
  }

  lemma FinishCalm(s: State)
    ensures Calm(s, Finish(s).state, Finish(s).effects)
  {
    ClosingEffectsTame(s.attention.stored, s.diagnostics, s.live.sessionId, s.approvals.locallyAnswered,
      Unresolved(s.attention.stored));
  }

  lemma TurnTransitionCalm(cfg: Config, s: State, completed: bool, f: Fields, at: int)
    ensures CalmOutcome(s, ReduceTurnTransition(cfg, s, completed, f, at))
  {
    hide DecodeTurnNotice, TurnStatusOf, Finish;
    var open := ReduceTurnTransition(cfg, s, false, f, at);
    assert CalmOutcome(s, open);
    if completed && open.result.Ok? {
      CodexJoin.TurnCompletedCloses(cfg, s, f, at);
      FinishCalm(open.state);
    }
  }

  lemma StoreDecodedCalm(cfg: Config, s: State, m: ItemNotice, decoded: DecodedBody)
    requires m.thread in s.bindings.sessions
    ensures Calm(s, StoreDecoded(cfg, s, m, decoded).state, StoreDecoded(cfg, s, m, decoded).effects)
  {
    var b := ItemBindings(cfg.runtime, s.bindings, m);
    var item := ItemFor(s.items, b, m, s.bindings.sessions[m.thread].id, decoded);
    UpgradeEffectsTame(b, s.items.stored[item.id := item], m.item, s.attention.stored,
                       s.approvals.locallyAnswered, FiledUnder(s.attention.byRawItem, m.item));
  }

  lemma StoreItemCalm(cfg: Config, s: State, m: ItemNotice, started: bool, f: Fields)
    requires m.thread in s.bindings.sessions
    ensures CalmOutcome(s, StoreItem(cfg, s, m, started, f))
  {
    hide StoreDecoded, DecodeBody;
    var b := ItemBindings(cfg.runtime, s.bindings, m);
    var decoded := DecodeBody(f, m.kind, b.items[m.item].id, started, s.items.agentText);
    if decoded.Ok? {
      StoreDecodedCalm(cfg, s, m, decoded.value);
    }
  }

  lemma ItemCalm(cfg: Config, s: State, started: bool, f: Fields, at: int)
    ensures CalmOutcome(s, ReduceItem(cfg, s, started, f, at))
  {
    hide DecodeItemNotice, StoreItem, Decodable;
    var m := DecodeItemNotice(f, started);
    if m.Ok? && m.value.thread in s.bindings.sessions {
      StoreItemCalm(cfg, s, m.value, started, f);
    }
  }

  lemma DeltaCalm(s: State, f: Fields, at: int)
    ensures CalmOutcome(s, ReduceDelta(s, f, at))
  {
    hide DecodeDelta;
  }

  lemma ThreadStartedCalm(s: State, f: Fields)
    ensures CalmOutcome(s, ReduceThreadStarted(s, f))
  {
    hide ReadText;
  }

  lemma StatusChangedCalm(s: State, f: Fields, at: int)
    ensures CalmOutcome(s, ReduceStatusChanged(s, f, at))
  {
    hide ReadText, SessionStatusOf;
  }

  lemma ApprovalReplyCalm(cfg: Config, s: State, requestId: int, f: Fields, at: int)
    ensures CalmOutcome(s, ReduceApprovalReply(cfg, s, requestId, f, at))
  {
    hide DecodeDecision;
  }

  lemma TurnCreatedCalm(cfg: Config, s: State, f: Fields, at: int, origin: TurnOrigin)
    ensures CalmOutcome(s, ReduceTurnCreated(cfg, s, f, at, origin))
    ensures
      var o := ReduceTurnCreated(cfg, s, f, at, origin);
      && o.state.live == s.live && o.state.calls == s.calls
      && (o.result.Ok? ==>
            && |o.result.value| == 1 && o.result.value[0].TurnUpserted? && o.result.value[0].turn.origin == origin
            && s.live.sessionId == Some(o.result.value[0].turn.session))
  {
    hide DecodeTurnCreated;
  }

  lemma NotificationCalm(cfg: Config, s: State, m: string, f: Fields, at: int)
    ensures CalmOutcome(s, ReduceNotification(cfg, s, m, f, at))
  {
    hide ReduceTurnTransition, ReduceItem, ReduceDelta, ReduceThreadStarted, ReduceStatusChanged;
    if m == "turn/started" || m == "turn/completed" {
      TurnTransitionCalm(cfg, s, m == "turn/completed", f, at);
    } else if m == "item/started" || m == "item/completed" {
      ItemCalm(cfg, s, m == "item/started", f, at);
    } else if m == "item/agentMessage/delta" {
      DeltaCalm(s, f, at);
    } else {
      ThreadStartedCalm(s, f);
      StatusChangedCalm(s, f, at);
    }
  }

  // ------------------------------------------------------------------ steps that publish evidence

  lemma LiftAppend(xs: seq<Effect>, ys: seq<Effect>)
    ensures Lift(xs + ys) == Lift(xs) + Lift(ys)
  {
  }

  /** Running the monitor over effects. */
  function WatchEffects(m: Monitor, effects: seq<Effect>): Monitor { Watch(m, Lift(effects)) }

  lemma WatchEffectsAppend(m: Monitor, xs: seq<Effect>, ys: seq<Effect>)
    ensures WatchEffects(m, xs + ys) == WatchEffects(WatchEffects(m, xs), ys)
  {
    LiftAppend(xs, ys);
    WatchAppend(m, Lift(xs), Lift(ys));
  }

  lemma WatchEffect(m: Monitor, e: Effect)
    ensures WatchEffects(m, [e]) == Next(m, Effected(e))
  {
    assert Lift([e]) == [Effected(e)];
    WatchOne(m, Effected(e));
  }

  lemma {:induction false} PlaceTame(effects: seq<Effect>, e: Effect)
    requires AllTame(effects)
    ensures Place(effects, e) == effects + [e]
  {
    if effects != [] {
      assert Tame(effects[0]);
      assert forall i | 0 <= i < |effects| - 1 :: effects[1..][i] == effects[i + 1];
      PlaceTame(effects[1..], e);
      assert effects == [effects[0]] + effects[1..];
    }
  }

  /** A capability set rendered from a probe without overrides permits exactly what is proven. */
  lemma RenderedAgrees(cfg: Config, live: Live)
    requires live.probe.runtime == cfg.runtime && live.probe.source == cfg.evidence && live.probe.overrides == map[]
    requires live.published == live.probe.proven
    ensures ProbeAgrees(cfg, live, Some(live.probe.ToCapabilities()))
  {
    forall k ensures live.probe.ToCapabilities().Permits(k) <==> k in live.probe.proven {
      RenderedPermits(live.probe, k);
    }
  }

  lemma CalmPublishes(cfg: Config, t: State, m: Monitor, o: Outcome)
    requires ControlInvariant(cfg, t, m) && CalmOutcome(t, o) && o.result.Ok?
    ensures
      var p := Publish(o.state, o.result.value);
      ControlInvariant(cfg, p.state, WatchEffects(m, p.effects))
  {
    CalmKeeps(cfg, t, m, o.state, o.result.value);
  }

  lemma FileApprovalShape(cfg: Config, s: State, requestId: int, m: ApprovalNotice, at: int)
    requires m.thread in s.bindings.sessions
    ensures
      var o := FileApproval(cfg, s, requestId, m, at);
      && o.result.Ok? && AllTame(o.result.value)
      && o.state.live == s.live.(probe := s.live.probe.Prove(InteractionApproval))
      && o.state.calls == s.calls
  {
  }

  /** The first approval on a connection publishes the capability after it. */
  lemma ApprovalPublishes(cfg: Config, t: State, m: Monitor, u: State, effects: seq<Effect>)
    requires ControlInvariant(cfg, t, m)
    requires u.live == t.live.(probe := t.live.probe.Prove(InteractionApproval)) && u.calls == t.calls
    requires AllTame(effects)
    ensures
      var p := Publish(u, effects);
      ControlInvariant(cfg, p.state, WatchEffects(m, p.effects))
  {
    var p := Publish(u, effects);
    WatchTame(m, effects);
    if InteractionApproval in t.live.probe.proven {
      assert p == Emission(u, effects);
    } else {
      var caps := CapabilitiesUpdated(u.live.probe.ToCapabilities());
      PlaceTame(effects, caps);
      WatchEffectsAppend(m, effects, [caps]);
      WatchEffect(WatchEffects(m, effects), caps);
      RenderedAgrees(cfg, p.state.live);
      assert p.state.live.probe == u.live.probe;
    }
  }

  lemma ProveSessionKeeps(cfg: Config, p: ProbeState)
    ensures
      var q := ProveSession(cfg, p);
      && q.runtime == p.runtime && q.source == p.source && (p.overrides == map[] ==> q.overrides == map[])
      && (cfg.evidence == ObservedInTraffic ==> LiveObserve in q.proven)
  {
  }

  lemma BootstrapSessionShape(cfg: Config, s: State, f: Fields, at: int)
    ensures
      var o := BootstrapSession(cfg, s, f, at);
      && o.state.calls == s.calls
      && (o.result.Err? ==> o.state == s)
      && (o.result.Ok? ==>
            && o.state.live.probe == ProveSession(cfg, s.live.probe)
              && o.state.live.published == o.state.live.probe.proven
            && o.state.live.session.Some? && o.state.live.session.value.liveBinding == LiveBindingFor(cfg, at)
            && o.state.live.sessionId == Some(o.state.live.session.value.id)
            && |o.result.value| == 3
            && o.result.value[0] == CapabilitiesUpdated(o.state.live.probe.ToCapabilities())
            && o.result.value[1].ProjectUpserted?
            && o.result.value[2] == SessionUpserted(o.state.live.session.value))
  {
    hide ReadText, ProveSession;
  }

  /** A new session is published after the capabilities that let it be observed. */
  lemma SessionPublishes(cfg: Config, t: State, m: Monitor, u: State, effects: seq<Effect>, at: int)
    requires ControlInvariant(cfg, t, m)
    requires u.calls == t.calls
    requires u.live.probe == ProveSession(cfg, t.live.probe) && u.live.published == u.live.probe.proven
    requires u.live.session.Some? && u.live.session.value.liveBinding == LiveBindingFor(cfg, at)
    requires u.live.sessionId == Some(u.live.session.value.id)
    requires |effects| == 3 && effects[0] == CapabilitiesUpdated(u.live.probe.ToCapabilities())
    requires effects[1].ProjectUpserted? && effects[2] == SessionUpserted(u.live.session.value)
    ensures
      var p := Publish(u, effects);
      ControlInvariant(cfg, p.state, WatchEffects(m, p.effects))
  {
    ProveSessionKeeps(cfg, t.live.probe);
    RenderedAgrees(cfg, u.live);
    var m1 := Next(m, Effected(effects[0]));
    var m2 := Next(m1, Effected(effects[1]));
    var m3 := Next(m2, Effected(effects[2]));
    WatchEffectsThree(m, effects[0], effects[1], effects[2]);
    assert effects == [effects[0], effects[1], effects[2]];
    assert m2 == m1;
    assert m3.ok;
  }

  lemma WatchEffectsThree(m: Monitor, a: Effect, b: Effect, c: Effect)
    ensures WatchEffects(m, [a, b, c]) == Next(Next(Next(m, Effected(a)), Effected(b)), Effected(c))
  {
    assert [a, b, c] == [a] + ([b] + [c]);
    WatchEffectsAppend(m, [a], [b] + [c]);
    WatchEffect(m, a);
    WatchEffectsAppend(Next(m, Effected(a)), [b], [c]);
    WatchEffect(Next(m, Effected(a)), b);
    WatchEffect(Next(Next(m, Effected(a)), Effected(b)), c);
  }

  // ------------------------------------------------------------------ control

  predicate AckOf(e: Effect, order: Order) {
    e.CommandAcknowledged? && e.command == order.command && e.outcome.AcceptedByRuntime?
      && e.outcome.session == order.session
  }

  predicate CarriesOrder(e: Effect, order: Order) {
    e.TurnUpserted? && e.turn.origin == RemoteCommand(order.command) && e.turn.session == order.session
  }

  /** What a runtime acceptance does: nothing when rejected, else acknowledge and perhaps take control. */
  lemma AcceptanceShape(cfg: Config, s: State, command: CommandId, at: int)
    requires s.live.probe.runtime == cfg.runtime && s.live.probe.source == cfg.evidence
    ensures
      var o := RuntimeAcceptance(cfg, s, command, at);
      && o.state.calls == s.calls
      && (o.result.Err? ==> o.state.live == s.live)
      && (o.result.Ok? ==>
            && BoundLiveHere(cfg, s.live.session) && cfg.evidence == ObservedInTraffic
            && o.state.live.probe == s.live.probe.Prove(LiveControl) && o.state.live.published == s.live.published
            && o.state.live.sessionId == s.live.sessionId
            && o.result.value != [] && AckOf(o.result.value[0], Order(command, s.live.session.value.id))
            && if s.live.session.value.liveBinding.Controlling?
               then |o.result.value| == 1 && o.state.live.session == s.live.session
               else
                 && |o.result.value| == 2
                 && o.state.live.session == Some(TakeControl(cfg, s.live.session.value, at))
                 && o.result.value[1] == SessionUpserted(o.state.live.session.value))
  {
  }

  lemma WatchTurnAndAck(m: Monitor, turn: Effect, ack: Effect, order: Order)
    requires order.command in m.registered && CarriesOrder(turn, order) && AckOf(ack, order)
    ensures
      var m' := WatchEffects(m, [turn, ack]);
      && m'.live == m.live && m'.caps == m.caps && m'.ok == m.ok && m'.registered == m.registered
      && order in m'.acked
  {
    assert [turn, ack] == [turn] + [ack];
    WatchEffectsAppend(m, [turn], [ack]);
    WatchEffect(m, turn);
    WatchEffect(Next(m, Effected(turn)), ack);
  }

  lemma PlaceBeforeControl(turn: Effect, ack: Effect, promote: Effect, e: Effect)
    requires !PromotesControl(turn) && !PromotesControl(ack) && PromotesControl(promote)
    ensures Place([turn, ack, promote], e) == [turn, ack] + [e, promote]
  {
    var all := [turn, ack, promote];
    assert all[1..] == [ack, promote] && all[1..][1..] == [promote];
    assert Place([promote], e) == [e] + [promote];
    assert Place(all[1..], e) == [ack] + Place([promote], e);
  }

  lemma WatchPromotion(m: Monitor, turn: Effect, ack: Effect, promote: Effect, order: Order)
    requires order.command in m.registered && CarriesOrder(turn, order) && AckOf(ack, order) && m.ok && m.live
    requires PromotesControl(promote) && promote.session.id == order.session
      && Supports(m.caps, promote.session.liveBinding)
    ensures
      var m' := WatchEffects(m, [turn, ack] + [promote]);
      m'.live == m.live && m'.caps == m.caps && m'.ok && m'.registered == m.registered
  {
    WatchTurnAndAck(m, turn, ack, order);
    WatchEffectsAppend(m, [turn, ack], [promote]);
    WatchEffect(WatchEffects(m, [turn, ack]), promote);
  }

  lemma WatchPublishedPromotion(m: Monitor, turn: Effect, ack: Effect, caps: RuntimeCapabilities, promote: Effect,
                                order: Order)
    requires order.command in m.registered && CarriesOrder(turn, order) && AckOf(ack, order) && m.ok && m.live
    requires PromotesControl(promote) && promote.session.id == order.session
      && Supports(Some(caps), promote.session.liveBinding)
    ensures
      var m' := WatchEffects(m, [turn, ack] + [CapabilitiesUpdated(caps), promote]);
      m'.live == m.live && m'.caps == Some(caps) && m'.ok && m'.registered == m.registered
  {
    var e := CapabilitiesUpdated(caps);
    var m1 := WatchEffects(m, [turn, ack]);
    WatchTurnAndAck(m, turn, ack, order);
    WatchEffectsAppend(m, [turn, ack], [e, promote]);
    assert [e, promote] == [e] + [promote];
    WatchEffectsAppend(m1, [e], [promote]);
    WatchEffect(m1, e);
    WatchEffect(Next(m1, Effected(e)), promote);
  }

  /** Taking control publishes the turn and its acknowledgement, then the capability, then the binding. */
  lemma ControlPublishes(cfg: Config, t: State, m: Monitor, u: State, turn: Effect, accepted: seq<Effect>, order: Order,
                         at: int)
    requires ControlInvariant(cfg, t, m)
    requires order.command in m.registered && CarriesOrder(turn, order)
    requires BoundLiveHere(cfg, t.live.session) && cfg.evidence == ObservedInTraffic
    requires order.session == t.live.session.value.id && u.live.sessionId == t.live.sessionId
    requires SubControl(t.calls.control, u.calls.control)
    requires u.live.probe == t.live.probe.Prove(LiveControl) && u.live.published == t.live.published
    requires accepted != [] && AckOf(accepted[0], order)
    requires |accepted| == 2 && u.live.session == Some(TakeControl(cfg, t.live.session.value, at))
    requires accepted[1] == SessionUpserted(u.live.session.value)
    ensures
      var p := Publish(u, [turn] + accepted);
      ControlInvariant(cfg, p.state, WatchEffects(m, p.effects))
  {
    hide Place, WatchEffects;
    var ack, promote := accepted[0], accepted[1];
    var effects := [turn] + accepted;
    assert effects == [turn, ack] + [promote] && effects == [turn, ack, promote];
    var p := Publish(u, effects);
    if LiveControl in t.live.probe.proven {
      assert u.live.probe.proven == t.live.probe.proven;
      WatchPromotion(m, turn, ack, promote, order);
    } else {
      var caps := u.live.probe.ToCapabilities();
      PlaceBeforeControl(turn, ack, promote, CapabilitiesUpdated(caps));
      assert p.state.live == u.live.(published := u.live.probe.proven);
      RenderedAgrees(cfg, p.state.live);
      assert Supports(Some(caps), promote.session.liveBinding);
      WatchPublishedPromotion(m, turn, ack, caps, promote, order);
    }
  }

  /** A repeated acceptance only acknowledges. */
  lemma RepeatedControlPublishes(cfg: Config, t: State, m: Monitor, u: State, turn: Effect, accepted: seq<Effect>,
                                 order: Order)
    requires ControlInvariant(cfg, t, m)
    requires CarriesOrder(turn, order)
    requires BoundLiveHere(cfg, t.live.session) && t.live.session.value.liveBinding.Controlling?
    requires SubControl(t.calls.control, u.calls.control)
    requires u.live.probe == t.live.probe.Prove(LiveControl) && u.live.published == t.live.published
    requires u.live.session == t.live.session && u.live.sessionId == t.live.sessionId
    requires |accepted| == 1 && AckOf(accepted[0], order)
    ensures
      var p := Publish(u, [turn] + accepted);
      ControlInvariant(cfg, p.state, WatchEffects(m, p.effects))
  {
    var effects := [turn] + accepted;
    assert effects == [turn, accepted[0]];
    assert u.live.probe.proven == t.live.probe.proven && u.live.probe.overrides == map[];
    assert Calm(t, u, effects);
    CalmKeeps(cfg, t, m, u, effects);
  }

  /** After the step: the state it leaves, published when it was accepted, with what the monitor then knows. */
  ghost predicate StepKeeps(cfg: Config, m: Monitor, o: Outcome) {
    if o.result.Ok? then
      var p := Publish(o.state, o.result.value);
      ControlInvariant(cfg, p.state, WatchEffects(m, p.effects))
    else ControlInvariant(cfg, o.state, m)
  }

  lemma CalmStepKeeps(cfg: Config, t: State, m: Monitor, o: Outcome)
    requires ControlInvariant(cfg, t, m) && CalmOutcome(t, o)
    ensures StepKeeps(cfg, m, o)
  {
    if o.result.Ok? {
      CalmPublishes(cfg, t, m, o);
    } else {
      CalmKeeps(cfg, t, m, o.state, []);
      assert WatchEffects(m, []) == m;
    }
  }

  lemma TurnResponseKeeps(cfg: Config, s: State, m: Monitor, id: int, frame: Frame, at: int)
    requires ControlInvariant(cfg, s, m)
    ensures StepKeeps(cfg, m, ReduceTurnResponse(cfg, s, id, frame, at))
  {
    hide ReduceTurnCreated, RuntimeAcceptance, StepKeeps, ControlInvariant;
    var o := ReduceTurnResponse(cfg, s, id, frame, at);
    var control := s.calls.control;
    var s1 := s.(calls := s.calls.(control := control - {id}));
    var origin := if id in control then RemoteCommand(control[id]) else cfg.turnOrigin;
    var created := ReduceTurnCreated(cfg, s1, frame.fields, at, origin);
    TurnCreatedCalm(cfg, s1, frame.fields, at, origin);
    if frame.hasError || created.result.Err? || id !in control {
      CalmStepKeeps(cfg, s, m, o);
    } else {
      AcceptedResponseKeeps(cfg, s, m, id, created, at);
    }
  }

  lemma AcceptedResponseKeeps(cfg: Config, s: State, m: Monitor, id: int, created: Outcome, at: int)
    requires ControlInvariant(cfg, s, m) && id in s.calls.control
    requires created.state.live == s.live && SubControl(s.calls.control, created.state.calls.control)
    requires created.result.Ok? && |created.result.value| == 1
    requires created.result.value[0].TurnUpserted? && created.result.value[0].turn.origin ==
      RemoteCommand(s.calls.control[id])
    requires s.live.sessionId == Some(created.result.value[0].turn.session)
    ensures
      var accepted := RuntimeAcceptance(cfg, created.state, s.calls.control[id], at);
      StepKeeps(cfg, m, if accepted.result.Err? then accepted
        else Done(accepted.state, created.result.value + accepted.result.value))
  {
    hide RuntimeAcceptance;
    var command := s.calls.control[id];
    var accepted := RuntimeAcceptance(cfg, created.state, command, at);
    AcceptanceShape(cfg, created.state, command, at);
    var turn := created.result.value[0];
    assert created.result.value == [turn];
    if accepted.result.Err? {
      CalmStepKeeps(cfg, s, m, accepted);
    } else if s.live.session.value.liveBinding.Controlling? {
      RepeatedControlPublishes(cfg, s, m, accepted.state, turn, accepted.result.value,
        Order(command, s.live.session.value.id));
    } else {
      ControlPublishes(cfg, s, m, accepted.state, turn, accepted.result.value, Order(command, s.live.session.value.id),
        at);
    }
  }

  lemma ClientResponseKeeps(cfg: Config, s: State, m: Monitor, id: int, frame: Frame, at: int)
    requires ControlInvariant(cfg, s, m)
    ensures StepKeeps(cfg, m, ReduceClientResponse(cfg, s, id, frame, at))
  {
    hide BootstrapSession, ReduceTurnResponse, StepKeeps;
    var o := ReduceClientResponse(cfg, s, id, frame, at);
    var s1 := s.(calls := s.calls.(client := s.calls.client - {id}));
    assert ControlInvariant(cfg, s1, m);
    if id in s.calls.client && s.calls.client[id].TurnStart? {
      TurnResponseKeeps(cfg, s1, m, id, frame, at);
    } else if id in s.calls.client && s.calls.client[id].ThreadStart? {
      BootstrapSessionKeeps(cfg, s1, m, frame.fields, at);
    } else {
      CalmStepKeeps(cfg, s, m, o);
    }
  }

  lemma BootstrapSessionKeeps(cfg: Config, s: State, m: Monitor, f: Fields, at: int)
    requires ControlInvariant(cfg, s, m)
    ensures StepKeeps(cfg, m, BootstrapSession(cfg, s, f, at))
  {
    hide BootstrapSession, ControlInvariant, ProveSession, LiveBindingFor;
    var o := BootstrapSession(cfg, s, f, at);
    BootstrapSessionShape(cfg, s, f, at);
    if o.result.Ok? {
      SessionPublishes(cfg, s, m, o.state, o.result.value, at);
    }
  }

  lemma DispatchKeeps(cfg: Config, s: State, m: Monitor, frame: Frame, at: int)
    requires ControlInvariant(cfg, s, m)
    ensures StepKeeps(cfg, m, Dispatch(cfg, s, frame, at))
  {
    hide ReduceNotification, ReduceClientResponse, FileApproval, ReduceApprovalReply, StepKeeps, ControlInvariant;
    var o := Dispatch(cfg, s, frame, at);
    if frame.direction == ClientToServer {
      if frame.method_.None? && frame.id.Some? {
        ApprovalReplyCalm(cfg, s, frame.id.value, frame.fields, at);
      }
      CalmStepKeeps(cfg, s, m, o);
    } else if frame.method_.Some? {
      if frame.id.Some? && frame.method_.value == APPROVAL_METHOD {
        var notice := DecodeApproval(frame.fields);
        if notice.Ok? && notice.value.thread in s.bindings.sessions {
          FileApprovalKeeps(cfg, s, m, frame.id.value, notice.value, at);
        } else {
          CalmStepKeeps(cfg, s, m, o);
        }
      } else {
        NotificationCalm(cfg, s, frame.method_.value, frame.fields, at);
        CalmStepKeeps(cfg, s, m, o);
      }
    } else if frame.id.Some? {
      ClientResponseKeeps(cfg, s, m, frame.id.value, frame, at);
    } else {
      CalmStepKeeps(cfg, s, m, o);
    }
  }

  lemma FileApprovalKeeps(cfg: Config, s: State, m: Monitor, requestId: int, notice: ApprovalNotice, at: int)
    requires ControlInvariant(cfg, s, m) && notice.thread in s.bindings.sessions
    ensures StepKeeps(cfg, m, FileApproval(cfg, s, requestId, notice, at))
  {
    hide FileApproval;
    FileApprovalShape(cfg, s, requestId, notice, at);
    var o := FileApproval(cfg, s, requestId, notice, at);
    ApprovalPublishes(cfg, s, m, o.state, o.result.value);
  }

  lemma BootstrapCalm(s: State, at: int)
    ensures
      var boot := Bootstrap(s.(live := s.live.(probe := s.live.probe.Advance(at))), at);
      Calm(s, boot.state, boot.effects) && Calm(s, boot.state, [])
  {
  }

  lemma WatchNothing(m: Monitor)
    ensures WatchEffects(m, []) == m
  {
  }

  lemma IngestKeeps(cfg: Config, s: State, m: Monitor, frame: Frame)
    requires ControlInvariant(cfg, s, m)
    ensures ControlInvariant(cfg, IngestFrame(cfg, s, frame).state, WatchEffects(m, Said(IngestFrame(cfg, s, frame))))
  {
    hide Dispatch, ControlInvariant, Watch, Calm;
    var at := Saturate(cfg.baseAt + frame.offset);
    var boot := Bootstrap(s.(live := s.live.(probe := s.live.probe.Advance(at))), at);
    var m1 := WatchEffects(m, boot.effects);
    BootstrapCalm(s, at);
    CalmKeeps(cfg, s, m, boot.state, boot.effects);
    var o := Dispatch(cfg, boot.state, frame, at);
    if o.result.Ok? {
      DispatchKeeps(cfg, boot.state, m1, frame, at);
      WatchEffectsAppend(m, boot.effects, Publish(o.state, o.result.value).effects);
    } else {
      var none: seq<Effect> := [];
      CalmKeeps(cfg, s, m, boot.state, none);
      WatchNothing(m);
      DispatchKeeps(cfg, boot.state, m, frame, at);
    }
  }

  lemma RegistrationWatched(cfg: Config, s: State, m: Monitor, id: int, command: CommandId)
    requires ControlInvariant(cfg, s, m)
    ensures
      var r := Step(cfg, s, RegisterTurnStart(id, command));
      ControlInvariant(cfg, r.state, Watch(m, EventsOf(RegisterTurnStart(id, command), r.reply)))
  {
    WatchOne(m, Registration(id, command));
  }

  lemma LifecycleCalm(cfg: Config, s: State, exitCode: Option<int>, at: int)
    ensures Calm(s, ProcessExited(cfg, s, exitCode, at).state, ProcessExited(cfg, s, exitCode, at).effects)
    ensures Calm(s, CleanDisconnected(s, at).state, CleanDisconnected(s, at).effects)
  {
  }

  lemma StepWatched(cfg: Config, s: State, m: Monitor, input: Input)
    requires ControlInvariant(cfg, s, m)
    ensures
      var r := Step(cfg, s, input);
      ControlInvariant(cfg, r.state, Watch(m, EventsOf(input, r.reply)))
  {
    hide IngestFrame, Finish, ProcessExited, CleanDisconnected, ControlInvariant, AnswerRegistrable;
    var r := Step(cfg, s, input);
    match input
    case Ingest(frame) => IngestKeeps(cfg, s, m, frame);
    case RegisterTurnStart(id, command) => RegistrationWatched(cfg, s, m, id, command);
    case CloseWindow =>
      FinishCalm(s);
      CalmKeeps(cfg, s, m, r.state, Finish(s).effects);
    case Exit(exitCode, at) =>
      LifecycleCalm(cfg, s, exitCode, at);
      CalmKeeps(cfg, s, m, r.state, EffectsOf(r.reply));
    case Disconnect(at) =>
      LifecycleCalm(cfg, s, None, at);
      CalmKeeps(cfg, s, m, r.state, EffectsOf(r.reply));
    case _ =>
      CalmKeeps(cfg, s, m, r.state, []);
      assert Lift([]) == [];
  }

  lemma {:induction false} RunWatched(cfg: Config, inputs: seq<Input>)
    ensures ControlInvariant(cfg, Execute(cfg, inputs).state, Watch(Watching(cfg), Execute(cfg, inputs).log))
  {
    hide Step;
    if inputs != [] {
      var front, last := inputs[..|inputs| - 1], inputs[|inputs| - 1];
      RunWatched(cfg, front);
      var before := Execute(cfg, front);
      StepWatched(cfg, before.state, Watch(Watching(cfg), before.log), last);
      WatchAppend(Watching(cfg), before.log, EventsOf(last, Step(cfg, before.state, last).reply));
    }
  }

  // ------------------------------------------------------------------ what the monitor's verdict means

  /** The last capability set published in a log. */
  function LatestCaps(log: seq<Event>): Option<RuntimeCapabilities> {
    if log == [] then None
    else
      var e := log[|log| - 1];
      if e.Effected? && e.effect.CapabilitiesUpdated? then Some(e.effect.capabilities) else LatestCaps(log[..|log| - 1])
  }

  predicate RegisteredAt(log: seq<Event>, h: int, command: CommandId) {
    0 <= h < |log| && log[h].Registration? && log[h].command == command
  }

  predicate CarriedAt(log: seq<Event>, i: int, order: Order) {
    0 <= i < |log| && log[i].Effected? && CarriesOrder(log[i].effect, order)
  }

  predicate AckedAt(log: seq<Event>, j: int, order: Order) {
    0 <= j < |log| && log[j].Effected? && AckOf(log[j].effect, order)
  }

  /** Registered, then carried by a turn of the session. */
  ghost predicate TurnedIn(log: seq<Event>, order: Order) {
    exists h, i :: RegisteredAt(log, h, order.command) && CarriedAt(log, i, order) && h < i
  }

  /** Registered, then carried by a turn of the session, then acknowledged for that session. */
  ghost predicate AckedIn(log: seq<Event>, order: Order) {
    exists h, i, j :: RegisteredAt(log, h, order.command) && CarriedAt(log, i, order) && AckedAt(log, j, order)
      && h < i < j
  }

  lemma OrdersKept(log: seq<Event>, o: Order)
    requires log != []
    ensures TurnedIn(log[..|log| - 1], o) ==> TurnedIn(log, o)
    ensures AckedIn(log[..|log| - 1], o) ==> AckedIn(log, o)
  {
    var front := log[..|log| - 1];
    if TurnedIn(front, o) {
      var h, i :| RegisteredAt(front, h, o.command) && CarriedAt(front, i, o) && h < i;
      assert RegisteredAt(log, h, o.command) && CarriedAt(log, i, o);
    }
    if AckedIn(front, o) {
      var h, i, j :| RegisteredAt(front, h, o.command) && CarriedAt(front, i, o) && AckedAt(front, j, o) && h < i < j;
      assert RegisteredAt(log, h, o.command) && CarriedAt(log, i, o) && AckedAt(log, j, o);
    }
  }

  lemma {:induction false} MonitorSaw(cfg: Config, log: seq<Event>)
    ensures
      var m := Watch(Watching(cfg), log);
      && m.live == (cfg.evidence == ObservedInTraffic) && m.caps == LatestCaps(log)
      && (forall c | c in m.registered :: exists h :: RegisteredAt(log, h, c))
      && (forall o | o in m.turned :: TurnedIn(log, o))
      && (forall o | o in m.acked :: AckedIn(log, o))
  {
    if log != [] {
      var front, n := log[..|log| - 1], |log| - 1;
      MonitorSaw(cfg, front);
      var m, m' := Watch(Watching(cfg), front), Watch(Watching(cfg), log);
      forall c | c in m'.registered ensures exists h :: RegisteredAt(log, h, c) {
        if c in m.registered {
          var h :| RegisteredAt(front, h, c);
          assert RegisteredAt(log, h, c);
        } else {
          assert RegisteredAt(log, n, c);
        }
      }
      forall o | o in m'.turned ensures TurnedIn(log, o) {
        if o in m.turned {
          OrdersKept(log, o);
        } else {
          var h :| RegisteredAt(front, h, o.command);
          assert RegisteredAt(log, h, o.command) && CarriedAt(log, n, o);
        }
      }
      forall o | o in m'.acked ensures AckedIn(log, o) {
        if o in m.acked {
          OrdersKept(log, o);
        } else {
          var h, i :| RegisteredAt(front, h, o.command) && CarriedAt(front, i, o) && h < i;
          assert RegisteredAt(log, h, o.command) && CarriedAt(log, i, o) && AckedAt(log, n, o);
        }
      }
    }
  }

  lemma {:induction false} VerdictHeldBefore(cfg: Config, log: seq<Event>, k: nat)
    requires k <= |log| && Watch(Watching(cfg), log).ok
    ensures Watch(Watching(cfg), log[..k]).ok
  {
    if k == |log| {
      assert log[..k] == log;
    } else {
      var front := log[..|log| - 1];
      VerdictHeldBefore(cfg, front, k);
      assert front[..k] == log[..k];
    }
  }

  /** Position `k` of a log shows a session as live. */
  predicate ShowsLive(log: seq<Event>, k: int) {
    0 <= k < |log| && log[k].Effected? && log[k].effect.SessionUpserted? && log[k].effect.session.liveBinding.IsLive()
  }

  /** The evidence a live session at position `k` needs before it. */
  ghost predicate Evidenced(cfg: Config, log: seq<Event>, k: nat)
    requires ShowsLive(log, k)
  {
    var before, binding := log[..k], log[k].effect.session.liveBinding;
    && cfg.evidence == ObservedInTraffic
    && Supports(LatestCaps(before), binding)
    && (binding.Controlling? ==> exists command :: AckedIn(before, Order(command, log[k].effect.session.id)))
  }

  lemma VerdictMeansEvidenced(cfg: Config, log: seq<Event>, k: nat)
    requires ShowsLive(log, k) && Watch(Watching(cfg), log).ok
    ensures Evidenced(cfg, log, k)
  {
    var before := log[..k];
    VerdictHeldBefore(cfg, log, k + 1);
    assert log[..k + 1][..k] == before;
    MonitorSaw(cfg, before);
    var m := Watch(Watching(cfg), before);
    assert Watch(Watching(cfg), log[..k + 1]) == Next(m, log[k]);
    if log[k].effect.session.liveBinding.Controlling? {
      var o :| o in m.acked && o.session == log[k].effect.session.id;
      assert AckedIn(before, Order(o.command, log[k].effect.session.id));
    }
  }

  /**
   Control evidence order. Wherever a run shows a session as live, the reducer is reading live traffic
   (evidence of any other source never shows one), and the latest capability set before it supports
   exactly that binding; and wherever it shows one as controlled, a registered command, the turn of that
   same session that carried it and the runtime's acknowledgement for it come before, in that order.
   */
  lemma ControlEvidence(cfg: Config, inputs: seq<Input>, k: nat)
    requires ShowsLive(Execute(cfg, inputs).log, k)
    ensures Evidenced(cfg, Execute(cfg, inputs).log, k)
  {
    hide Execute, Evidenced;
    RunWatched(cfg, inputs);
    VerdictMeansEvidenced(cfg, Execute(cfg, inputs).log, k);
  }
}
