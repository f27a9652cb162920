/**
 Who decided what, over every run of the Codex reducer: an approval is recorded as answered exactly if a reply
 decided it and nothing has happened to it since, with the reply's decision, and put down to the broker command
 registered for it at the time (crates/kaleido-adapter-codex/src/reduce.rs).
 */
module CodexAnswers {
  import opened Prelude
  import opened Canonical
  import opened CodexWire
  import opened CodexBindings
  import opened CodexStep
  import opened CodexRun
  import opened CodexJoin
  import opened CodexLedger
  import opened CodexHistory
  import opened Lasting

  // ------------------------------------------------------------------ one step

  predicate HasState(s: State, a: AttentionId, st: AttentionState) {
    a in s.attention.stored && s.attention.stored[a].state == st
  }

  lemma HasStateOf(s: State, a: AttentionId, st: AttentionState)
    ensures HasState(s, a, st) <==> a in StatesOf(s.attention.stored) && StatesOf(s.attention.stored)[a] == st
  {
  }

  ghost predicate AsksAnyhow(cfg: Config, s: State, input: Input, a: AttentionId) {
    exists id :: AsksNow(cfg, s, input, id, a)
  }

  /** An accepted decision, with what is recorded. */
  ghost predicate RecordsNow(cfg: Config, s: State, input: Input, a: AttentionId, st: AttentionState) {
    && Accepted(Step(cfg, s, input).reply) && input.Ingest? && DecidesNow(s, input, a) && st.Answered?
    && DecodeDecision(input.frame.fields) == Ok(st.option) && st.decidedAt == TimeOf(cfg, input.frame)
    && PutDownTo(cfg, s.approvals.answers, a, st.decidedAt, st.source)
  }

  lemma StatesKept(s: State, s': State, a: AttentionId, st: AttentionState)
    requires BooksKept(s, s')
    ensures HasState(s', a, st) <==> HasState(s, a, st)
  {
    HasStateOf(s, a, st);
    HasStateOf(s', a, st);
  }

  lemma StateAsked(cfg: Config, s: State, input: Input, id: int, m: ApprovalNotice, a: AttentionId, st: AttentionState)
    requires Kept(s) && Asks(input, id, m)
    ensures AsksAnyhow(cfg, s, input, a) <==> Accepted(Step(cfg, s, input).reply) && a == KeyOf(m)
    ensures HasState(Step(cfg, s, input).state, a, st) <==>
      if AsksAnyhow(cfg, s, input, a) then st == Open else HasState(s, a, st)
  {
    hide Step, Kept, KeyOf, DecodeApproval, HasState, StatesOf;
    AskStep(cfg, s, input, id, m);
    assert forall i, m' :: Asks(input, i, m') ==> i == id && m' == m;
    if Accepted(Step(cfg, s, input).reply) { assert AsksNow(cfg, s, input, id, KeyOf(m)); }
    HasStateOf(s, a, st);
    HasStateOf(Step(cfg, s, input).state, a, st);
    if !Accepted(Step(cfg, s, input).reply) { StatesKept(s, Step(cfg, s, input).state, a, st); }
  }

  lemma StateReplied(cfg: Config, s: State, input: Input, id: int, a: AttentionId, st: AttentionState)
    requires Kept(s) && Replies(input, id)
    ensures HasState(Step(cfg, s, input).state, a, st) <==>
      || RecordsNow(cfg, s, input, a, st)
      || (HasState(s, a, st) && forall other :: !RecordsNow(cfg, s, input, a, other))
  {
    hide Step, Kept, DecodeDecision, HasState, StatesOf, TimeOf;
    ReplyStep(cfg, s, input, id);
    var r, at := Step(cfg, s, input), TimeOf(cfg, input.frame);
    var decision := DecodeDecision(input.frame.fields);
    assert forall i, d :: Decides(input, i, d) ==> i == id && decision == Ok(d);
    HasStateOf(s, a, st);
    HasStateOf(r.state, a, st);
    if id !in s.approvals.pending {
      StatesKept(s, r.state, a, st);
    } else if r.reply.result.Ok? {
      var b := s.approvals.pending[id].attention;
      assert Decides(input, id, decision.value) && DecidesNow(s, input, b);
      var source :| PutDownTo(cfg, s.approvals.answers, b, at, source) &&
        StatesOf(r.state.attention.stored) == StatesOf(s.attention.stored)[b := Answered(decision.value, at, source)];
      assert RecordsNow(cfg, s, input, b, Answered(decision.value, at, source));
      assert forall x :: DecidesNow(s, input, x) ==> x == b;
      assert forall other :: RecordsNow(cfg, s, input, b, other) ==> other == Answered(decision.value, at, source);
    }
  }

  /** What a step does to the state of an approval. */
  lemma StateStep(cfg: Config, s: State, input: Input, a: AttentionId, st: AttentionState)
    requires Kept(s)
    ensures HasState(Step(cfg, s, input).state, a, st) <==>
      || (st == Open && AsksAnyhow(cfg, s, input, a))
      || RecordsNow(cfg, s, input, a, st)
      || (&& HasState(s, a, st) && !AsksAnyhow(cfg, s, input, a)
          && forall other :: !RecordsNow(cfg, s, input, a, other))
  {
    hide Step, Kept, FrameOf, BooksKept, HasState, KeyOf;
    OneFrame(input);
    if id :| Replies(input, id) {
      StateReplied(cfg, s, input, id, a, st);
      assert !AsksAnyhow(cfg, s, input, a);
    } else {
      assert !DecidesNow(s, input, a);
      if id, m :| Asks(input, id, m) {
        StateAsked(cfg, s, input, id, m, a, st);
      } else {
        assert !AsksAnyhow(cfg, s, input, a);
        StateOtherwise(cfg, s, input, a, st);
      }
    }
  }

  lemma StateOtherwise(cfg: Config, s: State, input: Input, a: AttentionId, st: AttentionState)
    requires Kept(s) && (forall id :: !Replies(input, id)) && forall id, m :: !Asks(input, id, m)
    ensures HasState(Step(cfg, s, input).state, a, st) <==> HasState(s, a, st)
  {
    hide Step, Kept, FrameOf, BooksKept;
    var s' := Step(cfg, s, input).state;
    if id, m :| Requests(input, id, m) {
      RequestStep(cfg, s, input, id, m);
      StatesKept(s.(calls := s'.calls), s', a, st);
    } else if id :| Responds(input, id) {
      RespondStep(cfg, s, input, id);
      StatesKept(s.(calls := s'.calls), s', a, st);
    } else if input.RegisterTurnStart? || input.CancelTurnStart? || input.RegisterAnswer? || input.ForgetAnswer? {
      BookingStep(cfg, s, input);
    } else {
      OtherStep(cfg, s, input);
      StatesKept(s, s', a, st);
    }
  }

  // ------------------------------------------------------------------ every run

  ghost predicate AskedAt(cfg: Config, inputs: seq<Input>, j: nat, a: AttentionId) {
    exists id :: AskedFor(cfg, inputs, j, id, a)
  }

  /** Who is to be named for a decision taken now. */
  ghost predicate Attributed(cfg: Config, inputs: seq<Input>, k: nat, a: AttentionId, at: int, source: AnswerSource) {
    || (exists answer :: OpenAnswer(cfg, inputs, k, a, answer) && source == LocalCommand(answer.command))
    || ((forall answer :: !OpenAnswer(cfg, inputs, k, a, answer)) && source == ObservedExternal(at, cfg.evidence))
  }

  /** An accepted reply that decided the approval, and what it decided. */
  ghost predicate RecordedAt(cfg: Config, inputs: seq<Input>, k: nat, a: AttentionId, st: AttentionState) {
    && k < |inputs| && Accepted(ReplyAt(cfg, inputs, k)) && inputs[k].Ingest? && DecisionOn(cfg, inputs, k, a)
    && st.Answered? && DecodeDecision(inputs[k].frame.fields) == Ok(st.option)
    && st.decidedAt == TimeOf(cfg, inputs[k].frame)
    && Attributed(cfg, inputs, k, a, st.decidedAt, st.source)
  }

  ghost predicate Overtakes(cfg: Config, inputs: seq<Input>, j: nat, a: AttentionId) {
    AskedAt(cfg, inputs, j, a) || exists st :: RecordedAt(cfg, inputs, j, a, st)
  }

  /** Decided so, and neither asked nor decided again. */
  ghost predicate Decided(cfg: Config, inputs: seq<Input>, n: nat, a: AttentionId, st: AttentionState) {
    Since(n, (k: nat) => RecordedAt(cfg, inputs, k, a, st), (j: nat) => Overtakes(cfg, inputs, j, a))
  }

  /** Asked for, and not decided since. */
  ghost predicate Undecided(cfg: Config, inputs: seq<Input>, n: nat, a: AttentionId) {
    Since(n, (k: nat) => AskedAt(cfg, inputs, k, a), (j: nat) => Overtakes(cfg, inputs, j, a))
  }

  lemma DecidedNext(cfg: Config, inputs: seq<Input>, n: nat, a: AttentionId, st: AttentionState)
    ensures Decided(cfg, inputs, n + 1, a, st) <==>
      RecordedAt(cfg, inputs, n, a, st) || (Decided(cfg, inputs, n, a, st) && !Overtakes(cfg, inputs, n, a))
    ensures Undecided(cfg, inputs, n + 1, a) <==>
      AskedAt(cfg, inputs, n, a) || (Undecided(cfg, inputs, n, a) && !Overtakes(cfg, inputs, n, a))
  {
    hide RecordedAt, AskedAt, Overtakes;
    SinceNext(n, (k: nat) => RecordedAt(cfg, inputs, k, a, st), (j: nat) => Overtakes(cfg, inputs, j, a));
    SinceNext(n, (k: nat) => AskedAt(cfg, inputs, k, a), (j: nat) => Overtakes(cfg, inputs, j, a));
  }

  lemma AttributedNow(cfg: Config, inputs: seq<Input>, k: nat, a: AttentionId, at: int, source: AnswerSource)
    requires k < |inputs|
    ensures Attributed(cfg, inputs, k, a, at, source) <==>
      PutDownTo(cfg, At(cfg, inputs, k).approvals.answers, a, at, source)
  {
    hide At, OpenAnswer;
    var answers := At(cfg, inputs, k).approvals.answers;
    forall answer ensures (a in answers && answers[a] == answer) <==> OpenAnswer(cfg, inputs, k, a, answer) {
      AnswersAreOpen(cfg, inputs, k, a, answer);
    }
    assert a in answers ==> OpenAnswer(cfg, inputs, k, a, answers[a]);
  }

  lemma RecordedNow(cfg: Config, inputs: seq<Input>, k: nat, a: AttentionId, st: AttentionState)
    requires k < |inputs|
    ensures RecordedAt(cfg, inputs, k, a, st) <==> RecordsNow(cfg, At(cfg, inputs, k), inputs[k], a, st)
  {
    hide Step, At, DecisionOn, DecidesNow, Attributed, PutDownTo, DecodeDecision;
    DecidedNow(cfg, inputs, k, a);
    if st.Answered? { AttributedNow(cfg, inputs, k, a, st.decidedAt, st.source); }
  }

  lemma AskedAnyhow(cfg: Config, inputs: seq<Input>, k: nat, a: AttentionId)
    requires k < |inputs|
    ensures AskedAt(cfg, inputs, k, a) <==> AsksAnyhow(cfg, At(cfg, inputs, k), inputs[k], a)
  {
    hide At, AskedFor, AsksNow;
    var s, input := At(cfg, inputs, k), inputs[k];
    forall id ensures AskedFor(cfg, inputs, k, id, a) <==> AsksNow(cfg, s, input, id, a) {
      AskedNow(cfg, inputs, k, id, a);
    }
  }

  /** An approval stands as answered exactly if it was decided so, and as open exactly if it was not decided. */
  lemma {:induction false} AnsweredExactly(cfg: Config, inputs: seq<Input>, n: nat, a: AttentionId, st: AttentionState)
    requires n <= |inputs|
    ensures HasState(At(cfg, inputs, n), a, st) <==>
      if st.Answered? then Decided(cfg, inputs, n, a, st) else Undecided(cfg, inputs, n, a)
  {
    hide Step, Execute, Kept, RecordedAt, RecordsNow, AskedAt, AsksAnyhow;
    if n == 0 {
      AtStart(cfg, inputs);
    } else {
      hide HasState, Decided, Undecided;
      var k := n - 1;
      var s, input := At(cfg, inputs, k), inputs[k];
      AnsweredExactly(cfg, inputs, k, a, st);
      KeptAlways(cfg, inputs, k);
      AtNext(cfg, inputs, k);
      StateStep(cfg, s, input, a, st);
      DecidedNext(cfg, inputs, k, a, st);
      AskedAnyhow(cfg, inputs, k, a);
      forall other ensures RecordedAt(cfg, inputs, k, a, other) <==> RecordsNow(cfg, s, input, a, other) {
        RecordedNow(cfg, inputs, k, a, other);
      }
      OpenIsNotRecorded(cfg, s, input, a);
    }
  }

  lemma OpenIsNotRecorded(cfg: Config, s: State, input: Input, a: AttentionId)
    ensures !RecordsNow(cfg, s, input, a, Open)
  {
  }

  /**
   A decision on an open approval is accepted exactly if it is the one registered for it, or nothing is and
   what was observed counts as evidence.
   */
  lemma DecisionAcceptedIff(cfg: Config, inputs: seq<Input>, n: nat, id: int, a: AttentionId, d: string)
    requires n < |inputs| && Decides(inputs[n], id, d) && OpenApproval(cfg, inputs, n, id, a)
    ensures Accepted(ReplyAt(cfg, inputs, n)) <==>
      || (exists answer :: OpenAnswer(cfg, inputs, n, a, answer) && answer.option == d)
      || ((forall answer :: !OpenAnswer(cfg, inputs, n, a, answer)) &&
          (cfg.evidence == ObservedInTraffic || cfg.evidence == RecordedFixture))
  {
    hide Step, At, OpenAnswer, OpenApproval, DecodeDecision, Kept;
    var s := At(cfg, inputs, n);
    KeptAlways(cfg, inputs, n);
    ApprovalsAreOpen(cfg, inputs, n, id, a);
    ReplyStep(cfg, s, inputs[n], id);
    var answers := s.approvals.answers;
    forall answer ensures (a in answers && answers[a] == answer) <==> OpenAnswer(cfg, inputs, n, a, answer) {
      AnswersAreOpen(cfg, inputs, n, a, answer);
    }
    assert a in answers ==> OpenAnswer(cfg, inputs, n, a, answers[a]);
  }
}
