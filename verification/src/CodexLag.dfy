/**
 When the stream lags behind a stored approval, over every run of the Codex reducer: exactly from a step
 that refreshes the approval silently until the next upsert of it. One run shows it happening.
 */
module CodexLag {
  import opened Prelude
  import opened Canonical
  import opened Capability
  import opened CodexWire
  import opened CodexBindings
  import opened CodexStep
  import opened CodexRun
  import opened CodexJoin
  import opened CodexCollision
  import CodexMirror

  /** The last upsert of a stored approval is not what is stored. */
  ghost predicate Lags(run: Run, id: AttentionId) {
    id in run.state.attention.stored && CodexMirror.LastEntry(run.stream, id) != Some(run.state.attention.stored[id])
  }

  /** The effects of the j-th step say nothing of the approval. */
  ghost predicate UnsaidAt(cfg: Config, inputs: seq<Input>, id: AttentionId, j: nat)
    requires j < |inputs|
  {
    CodexMirror.LastEntry(EffectsOf(Step(cfg, Execute(cfg, inputs[..j]).state, inputs[j]).reply), id).None?
  }

  /** Step k refreshes the approval silently, and no step since says anything of it. */
  ghost predicate LagsSince(cfg: Config, inputs: seq<Input>, id: AttentionId, k: nat)
    requires k < |inputs|
  {
    && id in CodexMirror.Quietly(cfg, Execute(cfg, inputs[..k]).state, inputs[k])
    && forall j | k < j < |inputs| :: UnsaidAt(cfg, inputs, id, j)
  }

  lemma LagsSinceSnoc(cfg: Config, inputs: seq<Input>, id: AttentionId, k: nat)
    requires k < |inputs| - 1
    ensures
      var n := |inputs| - 1;
      LagsSince(cfg, inputs, id, k) <==> LagsSince(cfg, inputs[..n], id, k) && UnsaidAt(cfg, inputs, id, n)
  {
    hide Execute, Step, CodexMirror.Quietly, CodexMirror.LastEntry;
    var n := |inputs| - 1;
    var front := inputs[..n];
    forall j: nat | j < n ensures UnsaidAt(cfg, front, id, j) <==> UnsaidAt(cfg, inputs, id, j) {
      assert front[..j] == inputs[..j] && front[j] == inputs[j];
    }
    assert front[..k] == inputs[..k] && front[k] == inputs[k];
  }

  /** One step: a silent refresh starts a lag, an upsert ends it, any other step keeps it as it is. */
  lemma StepLags(s: State, s': State, stream: seq<Effect>, effects: seq<Effect>, quiet: set<AttentionId>,
                 id: AttentionId)
    requires CodexMirror.Mirrors(s, s', effects, quiet) && id.ApprovalAttention?
    requires id in s.attention.stored <==> CodexMirror.LastEntry(stream, id).Some?
    requires
      id in s.attention.stored && CodexMirror.LastEntry(stream, id) != Some(s.attention.stored[id]) ==>
        !JoinDeferredIn(s.attention.stored[id])
    ensures
      var last, last' := CodexMirror.LastEntry(stream, id), CodexMirror.LastEntry(stream + effects, id);
      var lags := id in s.attention.stored && last != Some(s.attention.stored[id]);
      var lags' := id in s'.attention.stored && last' != Some(s'.attention.stored[id]);
      && (lags' <==> id in quiet || (lags && CodexMirror.LastEntry(effects, id).None?))
      && (lags' ==> !JoinDeferredIn(s'.attention.stored[id]))
      && (id in quiet ==> CodexMirror.LastEntry(effects, id).None?)
  {
    hide CodexMirror.LastEntry, CodexMirror.SameButJoin, CodexMirror.Filed;
    CodexMirror.LastEntryAppend(stream, effects, id);
    assert CodexMirror.EntryMirrored(s.attention.stored, s'.attention.stored, quiet, effects, id);
  }

  /** A stored approval that lags does not wait any more. */
  ghost predicate LagsSettled(run: Run, id: AttentionId) {
    Lags(run, id) ==> !JoinDeferredIn(run.state.attention.stored[id])
  }

  /**
   Every run: the last upsert of an approval differs from what is stored exactly if some step refreshed
   the approval silently and nothing has been said of it since.
   */
  lemma {:induction false} LagIff(cfg: Config, inputs: seq<Input>, id: AttentionId)
    requires id.ApprovalAttention?
    ensures Lags(Execute(cfg, inputs), id) <==> exists k | 0 <= k < |inputs| :: LagsSince(cfg, inputs, id, k)
    ensures LagsSettled(Execute(cfg, inputs), id)
  {
    hide Step, LagsSince, CodexMirror.Quietly, CodexMirror.LastEntry, CodexMirror.Mirrors, JoinDeferredIn;
    if inputs != [] {
      var n := |inputs| - 1;
      var front, input := inputs[..n], inputs[n];
      var before := Execute(cfg, front);
      LagIff(cfg, front, id);
      CodexMirror.StreamMirrorsState(cfg, front);
      CodexMirror.StepMirrors(cfg, before.state, input);
      var r, quiet := Step(cfg, before.state, input), CodexMirror.Quietly(cfg, before.state, input);
      StepLags(before.state, r.state, before.stream, EffectsOf(r.reply), quiet, id);
      LastLagsSince(cfg, inputs, id);
      forall k: nat | k < n
        ensures LagsSince(cfg, inputs, id, k) <==> LagsSince(cfg, front, id, k) && UnsaidAt(cfg, inputs, id, n)
      {
        LagsSinceSnoc(cfg, inputs, id, k);
      }
    }
  }

  lemma LastLagsSince(cfg: Config, inputs: seq<Input>, id: AttentionId)
    requires inputs != []
    ensures
      var n := |inputs| - 1;
      LagsSince(cfg, inputs, id, n) <==> id in CodexMirror.Quietly(cfg, Execute(cfg, inputs[..n]).state, inputs[n])
  {
    hide Execute, Step, CodexMirror.Quietly;
  }

  // ------------------------------------------------------------------ a run that lags

  /** The client answers a server request. */
  function Decide(id: int, decision: string): Input {
    Ingest(Frame(ClientToServer, 0, None, Some(id), false, map[ApprovalDecision := Text(decision)]))
  }

  /** The approval waits under its key, and is open under its request identifier with no answer registered. */
  ghost predicate WaitsOpen(s: State, requestId: int, id: AttentionId) {
    && id in s.attention.stored && JoinDeferredIn(s.attention.stored[id])
    && requestId in s.approvals.pending && s.approvals.pending[requestId].attention == id
    && id !in s.approvals.answers
  }

  lemma AskOpens(cfg: Config, s: State, requestId: int, m: ApprovalNotice)
    requires m.reason.None? && s.bindings.Minted() && m.thread in s.bindings.sessions && m.item !in s.bindings.items
    requires KeyOf(m) !in s.approvals.answers
    ensures WaitsOpen(Step(cfg, s, Ask(requestId, m)).state, requestId, KeyOf(m))
  {
    hide Step, Filed, FileApproval, Correlation, DecodeApproval;
    var frame := Ask(requestId, m).frame;
    Asks(cfg, s, requestId, m);
    ApprovalFiles(cfg, CoreOf(s), m);
    var t, at := IngestRecords(cfg, s, frame);
    assert Dispatch(cfg, t, frame, at) == FileApproval(cfg, t, requestId, m, at);
    FilingOpens(cfg, t, requestId, m, at);
  }

  lemma FilingOpens(cfg: Config, s: State, requestId: int, m: ApprovalNotice, at: int)
    requires s.bindings.Minted() && m.thread in s.bindings.sessions
    ensures
      var approvals := FileApproval(cfg, s, requestId, m, at).state.approvals;
      && requestId in approvals.pending && approvals.pending[requestId].attention == KeyOf(m)
      && approvals.answers == s.approvals.answers
  {
    hide Correlation, RecordFor, Summarise, IndexWith;
    BindingsOfApproval(cfg.runtime, s.bindings, m);
  }

  /** Registered, and then answered as registered: the approval is answered locally and waits on. */
  lemma AnswersLocally(cfg: Config, s: State, requestId: int, id: AttentionId, command: CommandId, decision: string)
    requires WaitsOpen(s, requestId, id) && command != "" && decision in APPROVAL_DECISIONS
    ensures
      var s1 := Step(cfg, s, RegisterAnswer(id, command, decision)).state;
      var s2 := Step(cfg, s1, Decide(requestId, decision)).state;
      id in s2.attention.stored && JoinDeferredIn(s2.attention.stored[id]) && id in s2.approvals.locallyAnswered
  {
    hide Dispatch, DecodeDecision;
    var s1 := Step(cfg, s, RegisterAnswer(id, command, decision)).state;
    DecisionReads(requestId, decision);
    assert s1 == s.(approvals := s.approvals.(answers := s.approvals.answers[id := PendingAnswer(command, decision)]));
    var frame := Decide(requestId, decision).frame;
    var t, at := IngestRecords(cfg, s1, frame);
    ReplyRecords(cfg, t, requestId, id, decision, frame, at);
  }

  lemma DecisionReads(requestId: int, decision: string)
    requires decision in APPROVAL_DECISIONS
    ensures decision != "" && DecodeDecision(Decide(requestId, decision).frame.fields) == Ok(decision)
  {
  }

  lemma ReplyRecords(cfg: Config, t: State, requestId: int, id: AttentionId, decision: string, frame: Frame, at: int)
    requires frame.direction == ClientToServer && frame.method_.None? && frame.id == Some(requestId)
    requires DecodeDecision(frame.fields) == Ok(decision)
    requires requestId in t.approvals.pending && t.approvals.pending[requestId].attention == id
    requires id in t.approvals.answers && t.approvals.answers[id].option == decision
    requires id in t.attention.stored && JoinDeferredIn(t.attention.stored[id])
    ensures
      var u := Dispatch(cfg, t, frame, at).state;
      id in u.attention.stored && JoinDeferredIn(u.attention.stored[id]) && id in u.approvals.locallyAnswered
  {
    hide DecodeDecision;
  }

  /** An approval is asked, answered by a local command, and then the window closes on it. */
  lemma ClosedAnswerLags(cfg: Config)
    ensures
      var m := ApprovalNotice("t", "u", "x", 0, None);
      var inputs := OpenThread(1, "t") + [Ask(2, m)] + [RegisterAnswer(KeyOf(m), "c", "accept")]
        + [Decide(2, "accept")];
      Lags(Execute(cfg, inputs + [CloseWindow]), KeyOf(m))
  {
    hide Step, Execute, Lags, Filed, Correlation;
    var m := ApprovalNotice("t", "u", "x", 0, None);
    var r0 := OpenThread(1, "t");
    InitialCore(cfg);
    assert [] + r0 == r0;
    ThreadOpens(cfg, [], 1, "t");
    assert Execute(cfg, r0).state.approvals.answers == map[] by { OpeningAnswersNothing(cfg); }
    AskOpens(cfg, Execute(cfg, r0).state, 2, m);
    RunSnoc(cfg, r0, Ask(2, m));
    var r1 := r0 + [Ask(2, m)];
    assert "accept" == APPROVAL_DECISIONS[0];
    AnswersLocally(cfg, Execute(cfg, r1).state, 2, KeyOf(m), "c", "accept");
    var register := RegisterAnswer(KeyOf(m), "c", "accept");
    RunSnoc(cfg, r1, register);
    RunSnoc(cfg, r1 + [register], Decide(2, "accept"));
    var inputs := r1 + [register] + [Decide(2, "accept")];
    var all := inputs + [CloseWindow];
    assert all[..|inputs|] == inputs && all[|inputs|] == CloseWindow;
    LastLagsSince(cfg, all, KeyOf(m));
    LagIff(cfg, all, KeyOf(m));
  }

  lemma OpeningAnswersNothing(cfg: Config)
    ensures Execute(cfg, OpenThread(1, "t")).state.approvals.answers == map[]
  {
    hide Step;
    var one := OpenThread(1, "t")[..1];
    assert one == [] + [Start(1)] && OpenThread(1, "t") == one + [Answer(1, "t")];
    RunSnoc(cfg, [], Start(1));
    RunSnoc(cfg, one, Answer(1, "t"));
    StartKeepsAnswers(cfg, Initial(cfg), 1);
    Starts(cfg, Initial(cfg), 1);
    AnswerKeepsAnswers(cfg, Execute(cfg, one).state, 1, "t");
  }

  lemma StartKeepsAnswers(cfg: Config, s: State, id: int)
    ensures Step(cfg, s, Start(id)).state.approvals == s.approvals
  {
  }

  lemma AnswerKeepsAnswers(cfg: Config, s: State, id: int, thread: string)
    requires id in s.calls.client && s.calls.client[id] == ThreadStart
    ensures Step(cfg, s, Answer(id, thread)).state.approvals == s.approvals
  {
  }
}
