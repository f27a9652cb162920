/**
 What one runtime connection has been observed to support (crates/kaleido-adapter/src/capability.rs).
 `ProbeState` is the probe as a value; `CapabilityProbe` is the object that is updated in place.
 The rendered set has exactly one entry per capability, so it is a map here and its order is not kept.
 */
module Capability {
  import opened Prelude
  import opened Canonical

  datatype Capability =
    | HistoryList | HistoryRead | HistoryResume
    | LiveObserve | LiveControl | LiveMultiSubscriber
    | TurnPrompt | TurnSteer | TurnInterrupt | TurnRetry
    | InteractionApproval | InteractionQuestion
    | StatePlan | StateTasks | StateDiff | StateToolLifecycle
    | QueueRead | QueueWrite | QueueReorder
    | WorkflowParticipate

  datatype UnavailableReason = RuntimeDisconnected | AuthenticationRequired | SubscriptionLostReason

  datatype CapabilityState = Supported | NotVerified | UnavailableOnThisConnection(reason: UnavailableReason)

  datatype CapabilityEntry = CapabilityEntry(state: CapabilityState, evidence: Evidence)

  datatype RuntimeCapabilities = RuntimeCapabilities(
    runtime: RuntimeId, negotiatedAt: int, entries: map<Capability, CapabilityEntry>)
  {
    predicate Permits(c: Capability) { c in entries && entries[c].state == Supported }
  }

  function AllUnavailable(reason: UnavailableReason): map<Capability, CapabilityState> {
    map c: Capability {:trigger IsCapability(c)} | IsCapability(c) :: UnavailableOnThisConnection(reason)
  }

  predicate IsCapability(c: Capability) { true }

  datatype ProbeState = ProbeState(
    runtime: RuntimeId,
    observedAt: int,
    proven: seq<Capability>,
    overrides: map<Capability, CapabilityState>,
    source: EvidenceSource)
  {
    /** An override only ever takes support away. */
    ghost predicate OnlyRevokes() {
      forall c | c in overrides :: overrides[c].UnavailableOnThisConnection?
    }

    function Prove(c: Capability): ProbeState {
      this.(overrides := overrides - {c},
            proven := if c in proven then proven else proven + [c])
    }

    function MarkUnavailable(reason: UnavailableReason): ProbeState {
      this.(proven := [], overrides := AllUnavailable(reason))
    }

    function Advance(at: int): ProbeState {
      if at > observedAt then this.(observedAt := at) else this
    }

    function Reset(at: int): ProbeState {
      this.(proven := [], overrides := map[]).Advance(at)
    }

    /** Only an acknowledgement minted for this runtime, seen in live traffic, proves control. */
    predicate AcceptsEvidence(outcome: CommandOutcome) {
      && outcome.AcceptedByRuntime?
      && source == ObservedInTraffic
      && outcome.handle.runtime == runtime
      && outcome.handle.kind == AcknowledgementHandle
    }

    function ObserveAcceptance(outcome: CommandOutcome): ProbeState {
      if AcceptsEvidence(outcome) then Prove(LiveControl) else this
    }

    function Entry(c: Capability): CapabilityEntry {
      CapabilityEntry(
        if c in overrides then overrides[c] else if c in proven then Supported else NotVerified,
        Evidence(if c in proven || c in overrides then source else Absent, observedAt))
    }

    function ToCapabilities(): RuntimeCapabilities {
      RuntimeCapabilities(runtime, observedAt, map c: Capability | true :: Entry(c))
    }
  }

  /** A rendered capability permits use exactly when it is proven and not overridden. */
  lemma RenderedPermits(p: ProbeState, c: Capability)
    requires p.OnlyRevokes()
    ensures p.ToCapabilities().Permits(c) <==> c in p.proven && c !in p.overrides
  {
  }

  /** The probe object. Each method's new value is the corresponding `ProbeState` operation. */
  class CapabilityProbe {
    const runtime: RuntimeId
    const source: EvidenceSource
    var observedAt: int
    var proven: seq<Capability>
    var overrides: map<Capability, CapabilityState>

    function View(): ProbeState
      reads this
    {
      ProbeState(runtime, observedAt, proven, overrides, source)
    }

    constructor (runtime: RuntimeId, observedAt: int, source: EvidenceSource)
      ensures View() == ProbeState(runtime, observedAt, [], map[], source)
    {
      this.runtime := runtime;
      this.source := source;
      this.observedAt := observedAt;
      proven, overrides := [], map[];
    }

    method Prove(c: Capability)
      modifies this
      ensures View() == old(View()).Prove(c)
      ensures old(proven) <= proven && (c in old(proven) ==> proven == old(proven))
      ensures forall d :: d in proven <==> d in old(proven) || d == c
      ensures old(View()).OnlyRevokes() ==> View().ToCapabilities().Permits(c)
    {
      overrides := overrides - {c};
      if c !in proven {
        proven := proven + [c];
      }
    }

    method MarkConnectionUnavailable(reason: UnavailableReason)
      modifies this
      ensures View() == old(View()).MarkUnavailable(reason)
      ensures forall c :: !View().ToCapabilities().Permits(c)
    {
      proven := [];
      overrides := AllUnavailable(reason);
    }

    method AdvanceObservation(at: int)
      modifies this
      ensures View() == old(View()).Advance(at)
    {
      if at > observedAt {
        observedAt := at;
      }
    }

    method ResetConnection(at: int)
      modifies this
      ensures View() == old(View()).Reset(at)
      ensures observedAt >= old(observedAt) && forall c :: !View().ToCapabilities().Permits(c)
    {
      proven, overrides := [], map[];
      AdvanceObservation(at);
    }

    method ObserveRuntimeAcceptance(outcome: CommandOutcome) returns (accepted: bool)
      modifies this
      ensures accepted == old(View()).AcceptsEvidence(outcome)
      ensures View() == old(View()).ObserveAcceptance(outcome)
      ensures if accepted then LiveControl in proven else View() == old(View())
    {
      if !outcome.AcceptedByRuntime? {
        return false;
      }
      if source != ObservedInTraffic || outcome.handle.runtime != runtime
         || outcome.handle.kind != AcknowledgementHandle
      {
        return false;
      }
      Prove(LiveControl);
      return true;
    }
  }
}
