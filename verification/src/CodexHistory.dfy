/**
 The books of the Codex reducer read off the inputs. At every point of every run, the open calls, the commands
 they carry, the open approval requests, the answers registered for them and the decisions recorded on them are
 exactly those the inputs so far left open or decided (crates/kaleido-adapter-codex/src/reduce.rs).
 */
module CodexHistory {
  import opened Prelude
  import opened Canonical
  import opened CodexWire
  import opened CodexBindings
  import opened CodexStep
  import opened CodexRun
  import opened CodexJoin
  import opened CodexLedger
  import opened Lasting

  // ------------------------------------------------------------------ runs

  /** The state before the input with this number. */
  function At(cfg: Config, inputs: seq<Input>, n: nat): State
    requires n <= |inputs|
  {
    Execute(cfg, inputs[..n]).state
  }

  function ReplyAt(cfg: Config, inputs: seq<Input>, n: nat): Reply
    requires n < |inputs|
  {
    Step(cfg, At(cfg, inputs, n), inputs[n]).reply
  }

  lemma AtNext(cfg: Config, inputs: seq<Input>, n: nat)
    requires n < |inputs|
    ensures At(cfg, inputs, n + 1) == Step(cfg, At(cfg, inputs, n), inputs[n]).state
  {
    hide Step;
    assert inputs[..n + 1][..n] == inputs[..n];
  }

  lemma AtStart(cfg: Config, inputs: seq<Input>)
    ensures At(cfg, inputs, 0) == Initial(cfg)
  {
  }

  lemma KeptStep(cfg: Config, s: State, input: Input)
    requires Kept(s)
    ensures Kept(Step(cfg, s, input).state)
  {
    hide Step, Kept, FrameOf;
    if id, m :| Requests(input, id, m) {
      RequestStep(cfg, s, input, id, m);
    } else if id :| Responds(input, id) {
      RespondStep(cfg, s, input, id);
    } else if id, m :| Asks(input, id, m) {
      AskStep(cfg, s, input, id, m);
    } else if id :| Replies(input, id) {
      ReplyStep(cfg, s, input, id);
    } else if input.RegisterTurnStart? || input.CancelTurnStart? || input.RegisterAnswer? || input.ForgetAnswer? {
      BookingStep(cfg, s, input);
    } else {
      OtherStep(cfg, s, input);
    }
  }

  /** Registering and withdrawing touch only what they name. */
  lemma BookingStep(cfg: Config, s: State, input: Input)
    requires Kept(s)
    requires input.RegisterTurnStart? || input.CancelTurnStart? || input.RegisterAnswer? || input.ForgetAnswer?
    ensures
      var r := Step(cfg, s, input);
      && Kept(r.state) && r.reply.Registered? && r.state.attention == s.attention
      && r.state.calls.client == s.calls.client && r.state.approvals.pending == s.approvals.pending
      && r.state.calls.control == (
           if input.CancelTurnStart? then s.calls.control - {input.requestId}
           else if input.RegisterTurnStart? && r.reply.accepted then s.calls.control[input.requestId := input.command]
           else s.calls.control)
      && r.state.approvals.answers == (
           if input.ForgetAnswer? then s.approvals.answers - {input.attention}
           else if input.RegisterAnswer? && r.reply.accepted
           then s.approvals.answers[input.attention := PendingAnswer(input.command, input.option)]
           else s.approvals.answers)
  {
    hide AnswerRegistrable, TurnRegistrable;
  }

  lemma {:induction false} KeptAlways(cfg: Config, inputs: seq<Input>, n: nat)
    requires n <= |inputs|
    ensures Kept(At(cfg, inputs, n))
  {
    hide Step, Execute;
    if n == 0 {
      AtStart(cfg, inputs);
    } else {
      KeptAlways(cfg, inputs, n - 1);
      KeptStep(cfg, At(cfg, inputs, n - 1), inputs[n - 1]);
      AtNext(cfg, inputs, n - 1);
    }
  }

  // ------------------------------------------------------------------ calls

  predicate TouchesCall(input: Input, id: int) {
    Responds(input, id) || (FrameOf(input, ClientToServer, true, id))
  }

  /** The client called the method under the identifier, and has had no response since. */
  ghost predicate OpenCall(inputs: seq<Input>, n: nat, id: int, m: string) {
    Since(n, (i: nat) => i < |inputs| && Requests(inputs[i], id, m), (j: nat) => j < |inputs|
      && TouchesCall(inputs[j], id))
  }

  lemma OpenCallNext(inputs: seq<Input>, n: nat, id: int, m: string)
    requires n < |inputs|
    ensures OpenCall(inputs, n + 1, id, m) <==>
      Requests(inputs[n], id, m) || (OpenCall(inputs, n, id, m) && !TouchesCall(inputs[n], id))
  {
    hide Requests, TouchesCall;
    SinceNext(n, (i: nat) => i < |inputs| && Requests(inputs[i], id, m), (j: nat) => j < |inputs|
      && TouchesCall(inputs[j], id));
  }

  predicate Names(m: string, call: ClientCall) {
    match call
    case ThreadStart => m == "thread/start"
    case TurnStart => m == "turn/start"
    case Unmodelled => m != "thread/start" && m != "turn/start"
  }

  /** What a step does to the open calls. */
  lemma CallStep(cfg: Config, s: State, input: Input, id: int, call: ClientCall)
    requires Kept(s)
    ensures
      var s' := Step(cfg, s, input).state;
      (id in s'.calls.client && s'.calls.client[id] == call) <==>
        if FrameOf(input, ClientToServer, true, id) then Names(input.frame.method_.value, call)
        else !Responds(input, id) && id in s.calls.client && s.calls.client[id] == call
  {
    hide Step, Kept, FrameOf;
    OneFrame(input);
    if FrameOf(input, ClientToServer, true, id) {
      RequestStep(cfg, s, input, id, input.frame.method_.value);
    } else if other, m :| Requests(input, other, m) {
      RequestStep(cfg, s, input, other, m);
    } else if other :| Responds(input, other) {
      RespondStep(cfg, s, input, other);
    } else if other, m :| Asks(input, other, m) {
      AskStep(cfg, s, input, other, m);
    } else if other :| Replies(input, other) {
      ReplyStep(cfg, s, input, other);
    } else if input.RegisterTurnStart? || input.CancelTurnStart? || input.RegisterAnswer? || input.ForgetAnswer? {
      BookingStep(cfg, s, input);
    } else {
      OtherStep(cfg, s, input);
    }
  }

  /** A frame has one direction and one identifier. */
  lemma OneFrame(input: Input)
    ensures forall d, named, id, d', named', id' ::
      FrameOf(input, d, named, id) && FrameOf(input, d', named', id') ==> d == d' && named == named' && id == id'
    ensures forall d, named, id :: FrameOf(input, d, named, id) ==> input.Ingest?
    ensures forall d, id :: FrameOf(input, d, true, id) ==> input.frame.method_.Some?
  {
  }

  /** The open calls are those without a response. */
  lemma {:induction false} CallsAreOpen(cfg: Config, inputs: seq<Input>, n: nat, id: int, call: ClientCall)
    requires n <= |inputs|
    ensures
      var client := At(cfg, inputs, n).calls.client;
      (id in client && client[id] == call) <==> exists m :: OpenCall(inputs, n, id, m) && Names(m, call)
  {
    hide Step, Execute, Names, FrameOf;
    if n == 0 {
      AtStart(cfg, inputs);
    } else {
      hide OpenCall;
      var s, input := At(cfg, inputs, n - 1), inputs[n - 1];
      CallsAreOpen(cfg, inputs, n - 1, id, call);
      KeptAlways(cfg, inputs, n - 1);
      AtNext(cfg, inputs, n - 1);
      CallStep(cfg, s, input, id, call);
      OneFrame(input);
      forall m
        ensures OpenCall(inputs, n, id, m) <==>
          Requests(input, id, m) || (OpenCall(inputs, n - 1, id, m) && !TouchesCall(input, id))
      {
        OpenCallNext(inputs, n - 1, id, m);
      }
      if FrameOf(input, ClientToServer, true, id) {
        assert Requests(input, id, input.frame.method_.value);
      }
    }
  }

  // ------------------------------------------------------------------ commands

  ghost predicate Granted(cfg: Config, inputs: seq<Input>, i: nat) {
    i < |inputs| && ReplyAt(cfg, inputs, i) == Registered(true)
  }

  /** A response to a turn that was started ends the command it carried. */
  ghost predicate EndsOrder(inputs: seq<Input>, j: nat, id: int) {
    j < |inputs| &&
    (inputs[j] == CancelTurnStart(id) || (Responds(inputs[j], id) && OpenCall(inputs, j, id, "turn/start")))
  }

  /** The command was registered for the call, and neither withdrawn nor answered since. */
  ghost predicate OpenOrder(cfg: Config, inputs: seq<Input>, n: nat, id: int, command: CommandId) {
    Since(n, (i: nat) => i < |inputs| && inputs[i] == RegisterTurnStart(id, command) && Granted(cfg, inputs, i),
          (j: nat) => EndsOrder(inputs, j, id))
  }

  lemma OpenOrderNext(cfg: Config, inputs: seq<Input>, n: nat, id: int, command: CommandId)
    requires n < |inputs|
    ensures OpenOrder(cfg, inputs, n + 1, id, command) <==>
      || (inputs[n] == RegisterTurnStart(id, command) && Granted(cfg, inputs, n))
      || (OpenOrder(cfg, inputs, n, id, command) && !EndsOrder(inputs, n, id))
  {
    hide Granted, EndsOrder;
    SinceNext(n, (i: nat) => i < |inputs| && inputs[i] == RegisterTurnStart(id, command) && Granted(cfg, inputs, i),
      (j: nat) => EndsOrder(inputs, j, id));
  }

  /** What a step does to the registered commands. */
  lemma OrderStep(cfg: Config, s: State, input: Input)
    requires Kept(s)
    ensures
      var r := Step(cfg, s, input);
      forall id, command :: id in r.state.calls.control && r.state.calls.control[id] == command <==>
        || (input == RegisterTurnStart(id, command) && r.reply == Registered(true))
        || (&& id in s.calls.control && s.calls.control[id] == command
            && input != CancelTurnStart(id)
            && !(Responds(input, id) && id in s.calls.client && s.calls.client[id].TurnStart?))
  {
    hide Step, Kept, FrameOf;
    OneFrame(input);
    if other, m :| Requests(input, other, m) {
      RequestStep(cfg, s, input, other, m);
    } else if other :| Responds(input, other) {
      RespondStep(cfg, s, input, other);
    } else if other, m :| Asks(input, other, m) {
      AskStep(cfg, s, input, other, m);
    } else if other :| Replies(input, other) {
      ReplyStep(cfg, s, input, other);
    } else if input.RegisterTurnStart? || input.CancelTurnStart? || input.RegisterAnswer? || input.ForgetAnswer? {
      BookingStep(cfg, s, input);
      if input.RegisterTurnStart? && Step(cfg, s, input).reply == Registered(true) { GrantedIsFresh(cfg, s, input); }
    } else {
      OtherStep(cfg, s, input);
    }
  }

  lemma GrantedIsFresh(cfg: Config, s: State, input: Input)
    requires input.RegisterTurnStart? && Step(cfg, s, input).reply == Registered(true)
    ensures input.requestId !in s.calls.control
  {
  }

  lemma StartsATurn(cfg: Config, inputs: seq<Input>, n: nat, id: int)
    requires n <= |inputs|
    ensures
      var client := At(cfg, inputs, n).calls.client;
      (id in client && client[id].TurnStart?) <==> OpenCall(inputs, n, id, "turn/start")
  {
    hide OpenCall, At;
    CallsAreOpen(cfg, inputs, n, id, TurnStart);
    assert forall m :: Names(m, TurnStart) <==> m == "turn/start";
  }

  /** The commands that calls carry are those registered and not yet ended. */
  lemma {:induction false} OrdersAreOpen(cfg: Config, inputs: seq<Input>, n: nat, id: int, command: CommandId)
    requires n <= |inputs|
    ensures
      var control := At(cfg, inputs, n).calls.control;
      (id in control && control[id] == command) <==> OpenOrder(cfg, inputs, n, id, command)
  {
    hide Step, Execute, OpenCall, Kept;
    if n == 0 {
      AtStart(cfg, inputs);
    } else {
      hide OpenOrder;
      OrdersAreOpen(cfg, inputs, n - 1, id, command);
      KeptAlways(cfg, inputs, n - 1);
      AtNext(cfg, inputs, n - 1);
      OrderStep(cfg, At(cfg, inputs, n - 1), inputs[n - 1]);
      StartsATurn(cfg, inputs, n - 1, id);
      OpenOrderNext(cfg, inputs, n - 1, id, command);
    }
  }

  /** A command is registered exactly if the traffic is live and neither it nor its call is taken. */
  lemma RegistrationGrantedIff(cfg: Config, inputs: seq<Input>, n: nat, id: int, command: CommandId)
    requires n < |inputs| && inputs[n] == RegisterTurnStart(id, command)
    ensures Granted(cfg, inputs, n) <==>
      && cfg.evidence == ObservedInTraffic && command != ""
      && (forall other :: !OpenOrder(cfg, inputs, n, id, other))
      && (forall other :: !OpenOrder(cfg, inputs, n, other, command))
  {
    hide At, OpenOrder;
    var control := At(cfg, inputs, n).calls.control;
    forall i, c ensures (i in control && control[i] == c) <==> OpenOrder(cfg, inputs, n, i, c) {
      OrdersAreOpen(cfg, inputs, n, i, c);
    }
    assert id in control ==> OpenOrder(cfg, inputs, n, id, control[id]);
    assert forall i | i in control && control[i] == command :: OpenOrder(cfg, inputs, n, i, command);
    assert forall i | OpenOrder(cfg, inputs, n, i, command) :: i in control && control[i] == command;
  }

  // ------------------------------------------------------------------ approval requests

  /** An accepted request for the approval. */
  ghost predicate AskedFor(cfg: Config, inputs: seq<Input>, i: nat, id: int, a: AttentionId) {
    i < |inputs| && Accepted(ReplyAt(cfg, inputs, i)) && exists m :: Asks(inputs[i], id, m) && KeyOf(m) == a
  }

  ghost predicate EndsAsking(cfg: Config, inputs: seq<Input>, j: nat, id: int) {
    j < |inputs| && (Replies(inputs[j], id) || exists a :: AskedFor(cfg, inputs, j, id, a))
  }

  /** The approval was requested under the identifier, which has seen no reply and no other request since. */
  ghost predicate OpenApproval(cfg: Config, inputs: seq<Input>, n: nat, id: int, a: AttentionId) {
    Since(n, (i: nat) => AskedFor(cfg, inputs, i, id, a), (j: nat) => EndsAsking(cfg, inputs, j, id))
  }

  lemma OpenApprovalNext(cfg: Config, inputs: seq<Input>, n: nat, id: int, a: AttentionId)
    requires n < |inputs|
    ensures OpenApproval(cfg, inputs, n + 1, id, a) <==>
      AskedFor(cfg, inputs, n, id, a) || (OpenApproval(cfg, inputs, n, id, a) && !EndsAsking(cfg, inputs, n, id))
  {
    hide AskedFor, EndsAsking;
    SinceNext(n, (i: nat) => AskedFor(cfg, inputs, i, id, a), (j: nat) => EndsAsking(cfg, inputs, j, id));
  }

  /** An accepted request, told from the step. */
  ghost predicate AsksNow(cfg: Config, s: State, input: Input, id: int, a: AttentionId) {
    Accepted(Step(cfg, s, input).reply) && exists m :: Asks(input, id, m) && KeyOf(m) == a
  }

  lemma PendingStep(cfg: Config, s: State, input: Input, id: int, a: AttentionId)
    requires Kept(s)
    ensures
      var pending := Step(cfg, s, input).state.approvals.pending;
      (id in pending && pending[id].attention == a) <==>
        || AsksNow(cfg, s, input, id, a)
        || (&& id in s.approvals.pending && s.approvals.pending[id].attention == a
            && !Replies(input, id) && forall b :: !AsksNow(cfg, s, input, id, b))
  {
    hide Step, Kept, FrameOf, KeyOf, BooksKept;
    OneFrame(input);
    if other, m :| Asks(input, other, m) {
      AskStep(cfg, s, input, other, m);
      PendingAsk(cfg, s, input, other, m, id, a);
    } else if other, m :| Requests(input, other, m) {
      RequestStep(cfg, s, input, other, m);
      PendingSame(s.(calls := Step(cfg, s, input).state.calls), Step(cfg, s, input).state);
    } else if other :| Responds(input, other) {
      RespondStep(cfg, s, input, other);
      PendingSame(s.(calls := Step(cfg, s, input).state.calls), Step(cfg, s, input).state);
    } else if other :| Replies(input, other) {
      ReplyStep(cfg, s, input, other);
      if other !in s.approvals.pending { PendingSame(s, Step(cfg, s, input).state); }
    } else if input.RegisterTurnStart? || input.CancelTurnStart? || input.RegisterAnswer? || input.ForgetAnswer? {
      BookingStep(cfg, s, input);
    } else {
      OtherStep(cfg, s, input);
      PendingSame(s, Step(cfg, s, input).state);
    }
  }

  lemma PendingSame(s: State, s': State)
    requires BooksKept(s, s')
    ensures s'.approvals.pending == s.approvals.pending && s'.approvals.answers == s.approvals.answers
  {
  }

  lemma PendingAsk(cfg: Config, s: State, input: Input, other: int, m: ApprovalNotice, id: int, a: AttentionId)
    requires Kept(s) && Asks(input, other, m)
    ensures
      var pending := Step(cfg, s, input).state.approvals.pending;
      (id in pending && pending[id].attention == a) <==>
        || AsksNow(cfg, s, input, id, a)
        || (&& id in s.approvals.pending && s.approvals.pending[id].attention == a
            && forall b :: !AsksNow(cfg, s, input, id, b))
  {
    hide Step, Kept, KeyOf, DecodeApproval;
    AskStep(cfg, s, input, other, m);
    assert forall i, m' :: Asks(input, i, m') ==> i == other && m' == m;
    if Accepted(Step(cfg, s, input).reply) {
      assert AsksNow(cfg, s, input, other, KeyOf(m));
    }
  }

  lemma AskedNow(cfg: Config, inputs: seq<Input>, n: nat, id: int, a: AttentionId)
    requires n < |inputs|
    ensures AskedFor(cfg, inputs, n, id, a) <==> AsksNow(cfg, At(cfg, inputs, n), inputs[n], id, a)
  {
    hide Step, Execute;
  }

  /** The open approval requests are those without a reply. */
  lemma {:induction false} ApprovalsAreOpen(cfg: Config, inputs: seq<Input>, n: nat, id: int, a: AttentionId)
    requires n <= |inputs|
    ensures
      var pending := At(cfg, inputs, n).approvals.pending;
      (id in pending && pending[id].attention == a) <==> OpenApproval(cfg, inputs, n, id, a)
  {
    hide Step, Execute, Kept, AsksNow, AskedFor, Replies;
    if n == 0 {
      AtStart(cfg, inputs);
    } else {
      hide OpenApproval;
      var k := n - 1;
      var s, input := At(cfg, inputs, k), inputs[k];
      ApprovalsAreOpen(cfg, inputs, k, id, a);
      KeptAlways(cfg, inputs, k);
      AtNext(cfg, inputs, k);
      PendingStep(cfg, s, input, id, a);
      OpenApprovalNext(cfg, inputs, k, id, a);
      forall b ensures AskedFor(cfg, inputs, k, id, b) <==> AsksNow(cfg, s, input, id, b) {
        AskedNow(cfg, inputs, k, id, b);
      }
    }
  }

  // ------------------------------------------------------------------ registered answers

  /** A decision on the approval, recordable or not. */
  ghost predicate DecisionOn(cfg: Config, inputs: seq<Input>, j: nat, a: AttentionId) {
    j < |inputs| && exists id, d :: Decides(inputs[j], id, d) && OpenApproval(cfg, inputs, j, id, a)
  }

  ghost predicate EndsAnswer(cfg: Config, inputs: seq<Input>, j: nat, a: AttentionId) {
    j < |inputs| && (inputs[j] == ForgetAnswer(a) || DecisionOn(cfg, inputs, j, a))
  }

  /** The answer was registered, and neither withdrawn nor used up by a decision since. */
  ghost predicate OpenAnswer(cfg: Config, inputs: seq<Input>, n: nat, a: AttentionId, answer: PendingAnswer) {
    Since(n, (i: nat) => i < |inputs| && inputs[i] == RegisterAnswer(a, answer.command, answer.option) &&
                         Granted(cfg, inputs, i),
          (j: nat) => EndsAnswer(cfg, inputs, j, a))
  }

  lemma OpenAnswerNext(cfg: Config, inputs: seq<Input>, n: nat, a: AttentionId, answer: PendingAnswer)
    requires n < |inputs|
    ensures OpenAnswer(cfg, inputs, n + 1, a, answer) <==>
      || (inputs[n] == RegisterAnswer(a, answer.command, answer.option) && Granted(cfg, inputs, n))
      || (OpenAnswer(cfg, inputs, n, a, answer) && !EndsAnswer(cfg, inputs, n, a))
  {
    hide Granted, EndsAnswer;
    SinceNext(n,
      (i: nat) => i < |inputs| && inputs[i] == RegisterAnswer(a, answer.command, answer.option) &&
                  Granted(cfg, inputs, i),
      (j: nat) => EndsAnswer(cfg, inputs, j, a));
  }

  /** A decision on the approval, told from the step. */
  ghost predicate DecidesNow(s: State, input: Input, a: AttentionId) {
    exists id, d :: Decides(input, id, d) && id in s.approvals.pending && s.approvals.pending[id].attention == a
  }

  lemma AnswerStep(cfg: Config, s: State, input: Input, a: AttentionId, answer: PendingAnswer)
    requires Kept(s)
    ensures
      var r := Step(cfg, s, input);
      (a in r.state.approvals.answers && r.state.approvals.answers[a] == answer) <==>
        || (input == RegisterAnswer(a, answer.command, answer.option) && r.reply == Registered(true))
        || (&& a in s.approvals.answers && s.approvals.answers[a] == answer
            && input != ForgetAnswer(a) && !DecidesNow(s, input, a))
  {
    hide Step, Kept, FrameOf, BooksKept;
    OneFrame(input);
    if other :| Replies(input, other) {
      AnswerReply(cfg, s, input, other, a, answer);
    } else if other, m :| Asks(input, other, m) {
      AskStep(cfg, s, input, other, m);
      if !Accepted(Step(cfg, s, input).reply) { PendingSame(s, Step(cfg, s, input).state); }
    } else if other, m :| Requests(input, other, m) {
      RequestStep(cfg, s, input, other, m);
      PendingSame(s.(calls := Step(cfg, s, input).state.calls), Step(cfg, s, input).state);
    } else if other :| Responds(input, other) {
      RespondStep(cfg, s, input, other);
      PendingSame(s.(calls := Step(cfg, s, input).state.calls), Step(cfg, s, input).state);
    } else if input.RegisterTurnStart? || input.CancelTurnStart? || input.RegisterAnswer? || input.ForgetAnswer? {
      BookingStep(cfg, s, input);
      if input.RegisterAnswer? && Step(cfg, s, input).reply == Registered(true) { AnswerIsFresh(cfg, s, input); }
    } else {
      OtherStep(cfg, s, input);
      PendingSame(s, Step(cfg, s, input).state);
    }
  }

  lemma AnswerIsFresh(cfg: Config, s: State, input: Input)
    requires input.RegisterAnswer? && Step(cfg, s, input).reply == Registered(true)
    ensures input.attention !in s.approvals.answers
  {
  }

  lemma AnswerReply(cfg: Config, s: State, input: Input, id: int, a: AttentionId, answer: PendingAnswer)
    requires Kept(s) && Replies(input, id)
    ensures
      var answers := Step(cfg, s, input).state.approvals.answers;
      (a in answers && answers[a] == answer) <==>
        a in s.approvals.answers && s.approvals.answers[a] == answer && !DecidesNow(s, input, a)
  {
    hide Step, Kept, DecodeDecision, BooksKept;
    ReplyStep(cfg, s, input, id);
    var decision := DecodeDecision(input.frame.fields);
    assert forall i, d :: Decides(input, i, d) ==> i == id && decision == Ok(d);
    if id in s.approvals.pending {
      assert decision.Ok? ==> Decides(input, id, decision.value);
    } else {
      PendingSame(s, Step(cfg, s, input).state);
    }
  }

  /** The registered answers are those not withdrawn and not used up. */
  lemma {:induction false} AnswersAreOpen(cfg: Config, inputs: seq<Input>, n: nat, a: AttentionId,
                                          answer: PendingAnswer)
    requires n <= |inputs|
    ensures
      var answers := At(cfg, inputs, n).approvals.answers;
      (a in answers && answers[a] == answer) <==> OpenAnswer(cfg, inputs, n, a, answer)
  {
    hide Step, Execute, OpenApproval, Kept, Decides;
    if n == 0 {
      AtStart(cfg, inputs);
    } else {
      hide OpenAnswer;
      AnswersAreOpen(cfg, inputs, n - 1, a, answer);
      KeptAlways(cfg, inputs, n - 1);
      AtNext(cfg, inputs, n - 1);
      AnswerStep(cfg, At(cfg, inputs, n - 1), inputs[n - 1], a, answer);
      OpenAnswerNext(cfg, inputs, n - 1, a, answer);
      DecidedNow(cfg, inputs, n - 1, a);
    }
  }

  lemma DecidedNow(cfg: Config, inputs: seq<Input>, n: nat, a: AttentionId)
    requires n < |inputs|
    ensures DecisionOn(cfg, inputs, n, a) <==> DecidesNow(At(cfg, inputs, n), inputs[n], a)
  {
    hide At, OpenApproval, Decides;
    var pending := At(cfg, inputs, n).approvals.pending;
    forall id ensures (id in pending && pending[id].attention == a) <==> OpenApproval(cfg, inputs, n, id, a) {
      ApprovalsAreOpen(cfg, inputs, n, id, a);
    }
  }

  /** An answer is registered exactly if its approval is open and has none yet. */
  lemma AnswerGrantedIff(cfg: Config, inputs: seq<Input>, n: nat, a: AttentionId, answer: PendingAnswer)
    requires n < |inputs| && inputs[n] == RegisterAnswer(a, answer.command, answer.option)
    ensures Granted(cfg, inputs, n) <==>
      && answer.command != "" && answer.option != ""
      && (exists id :: OpenApproval(cfg, inputs, n, id, a))
      && (forall other :: !OpenAnswer(cfg, inputs, n, a, other))
  {
    hide At, OpenApproval, OpenAnswer;
    var s := At(cfg, inputs, n);
    forall id
      ensures (id in s.approvals.pending && s.approvals.pending[id].attention == a) <==>
        OpenApproval(cfg, inputs, n, id, a)
    {
      ApprovalsAreOpen(cfg, inputs, n, id, a);
    }
    forall other
      ensures (a in s.approvals.answers && s.approvals.answers[a] == other) <==> OpenAnswer(cfg, inputs, n, a, other)
    {
      AnswersAreOpen(cfg, inputs, n, a, other);
    }
    assert a in s.approvals.answers ==> OpenAnswer(cfg, inputs, n, a, s.approvals.answers[a]);
  }
}
