/**
 The write-once binding store (crates/kaleido-adapter-codex/src/bindings.rs). `Bindings` is the store
 as a value, `BindingStore` the object whose insert-if-absent methods extend it.
 */
module CodexBindings {
  import opened Prelude
  import opened Canonical

  datatype SessionBinding = SessionBinding(id: SessionId, handle: Handle)
  datatype TurnBinding = TurnBinding(id: TurnId, handle: Handle, session: SessionId)
  datatype ItemBinding = ItemBinding(id: ItemId, handle: Handle, session: SessionId, turn: TurnId)
  datatype InteractionBinding = InteractionBinding(id: AttentionId, handle: Handle)

  datatype Bindings = Bindings(
    sessions: map<string, SessionBinding>,
    turns: map<string, TurnBinding>,
    items: map<string, ItemBinding>,
    interactions: map<string, InteractionBinding>)
  {
    function BindSession(rt: RuntimeId, raw: string): Bindings {
      if raw in sessions then this
      else this.(sessions := sessions[raw := SessionBinding(SessionId(raw), Handle(rt, SessionHandle, raw))])
    }

    function BindTurn(rt: RuntimeId, raw: string, session: SessionId): Bindings {
      if raw in turns then this
      else this.(turns := turns[raw := TurnBinding(TurnId(raw), Handle(rt, TurnHandle, raw), session)])
    }

    function BindItem(rt: RuntimeId, raw: string, session: SessionId, turn: TurnId): Bindings {
      if raw in items then this
      else this.(items := items[raw := ItemBinding(ItemId(raw), Handle(rt, ItemHandle, raw), session, turn)])
    }

    function BindInteraction(rt: RuntimeId, raw: string): Bindings {
      if raw in interactions then this
      else this.(interactions :=
        interactions[raw := InteractionBinding(ApprovalAttention(raw), Handle(rt, InteractionHandle, raw))])
    }

    /** Every binding carries the identifier minted from its own raw key. */
    ghost predicate Minted() {
      && (forall raw | raw in sessions :: sessions[raw].id == SessionId(raw))
      && (forall raw | raw in turns :: turns[raw].id == TurnId(raw))
      && (forall raw | raw in items :: items[raw].id == ItemId(raw))
      && (forall raw | raw in interactions :: interactions[raw].id == ApprovalAttention(raw))
    }

    /** Nothing that was bound is ever rebound. */
    ghost predicate Extends(earlier: Bindings) {
      && (forall raw | raw in earlier.sessions :: raw in sessions && sessions[raw] == earlier.sessions[raw])
      && (forall raw | raw in earlier.turns :: raw in turns && turns[raw] == earlier.turns[raw])
      && (forall raw | raw in earlier.items :: raw in items && items[raw] == earlier.items[raw])
      && (forall raw | raw in earlier.interactions ::
            raw in interactions && interactions[raw] == earlier.interactions[raw])
    }
  }

  const NoBindings := Bindings(map[], map[], map[], map[])

  class BindingStore {
    var sessions: map<string, SessionBinding>
    var turns: map<string, TurnBinding>
    var items: map<string, ItemBinding>
    var interactions: map<string, InteractionBinding>

    function View(): Bindings
      reads this
    {
      Bindings(sessions, turns, items, interactions)
    }

    constructor ()
      ensures View() == NoBindings
    {
      sessions, turns, items, interactions := map[], map[], map[], map[];
    }

    method BindSession(rt: RuntimeId, raw: string) returns (binding: SessionBinding)
      modifies this
      ensures View() == old(View()).BindSession(rt, raw)
      ensures View().Extends(old(View())) && (old(View()).Minted() ==> View().Minted())
      ensures raw in sessions && binding == sessions[raw]
      ensures raw in old(sessions) ==> binding == old(sessions)[raw] && View() == old(View())
    {
      if raw !in sessions {
        sessions := sessions[raw := SessionBinding(SessionId(raw), Handle(rt, SessionHandle, raw))];
      }
      binding := sessions[raw];
    }

    method BindTurn(rt: RuntimeId, raw: string, session: SessionId) returns (binding: TurnBinding)
      modifies this
      ensures View() == old(View()).BindTurn(rt, raw, session)
      ensures View().Extends(old(View())) && (old(View()).Minted() ==> View().Minted())
      ensures raw in turns && binding == turns[raw]
      ensures raw in old(turns) ==> binding == old(turns)[raw] && View() == old(View())
    {
      if raw !in turns {
        turns := turns[raw := TurnBinding(TurnId(raw), Handle(rt, TurnHandle, raw), session)];
      }
      binding := turns[raw];
    }

    method BindItem(rt: RuntimeId, raw: string, session: SessionId, turn: TurnId) returns (binding: ItemBinding)
      modifies this
      ensures View() == old(View()).BindItem(rt, raw, session, turn)
      ensures View().Extends(old(View())) && (old(View()).Minted() ==> View().Minted())
      ensures raw in items && binding == items[raw]
      ensures raw in old(items) ==> binding == old(items)[raw] && View() == old(View())
    {
      if raw !in items {
        items := items[raw := ItemBinding(ItemId(raw), Handle(rt, ItemHandle, raw), session, turn)];
      }
      binding := items[raw];
    }

    method BindInteraction(rt: RuntimeId, raw: string) returns (binding: InteractionBinding)
      modifies this
      ensures View() == old(View()).BindInteraction(rt, raw)
      ensures View().Extends(old(View())) && (old(View()).Minted() ==> View().Minted())
      ensures raw in interactions && binding == interactions[raw]
      ensures raw in old(interactions) ==> binding == old(interactions)[raw] && View() == old(View())
    {
      if raw !in interactions {
        interactions :=
          interactions[raw := InteractionBinding(ApprovalAttention(raw), Handle(rt, InteractionHandle, raw))];
      }
      binding := interactions[raw];
    }
  }
}
