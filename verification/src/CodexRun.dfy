/** Whole runs of the Codex reducer: any inputs, in any order, rejected ones included. */
module CodexRun {
  import opened Prelude
  import opened Canonical
  import opened CodexWire
  import opened CodexStep

  /** What an outside reader sees of a run: accepted registrations and emitted effects, in order. */
  datatype Event = Registration(requestId: int, command: CommandId) | Effected(effect: Effect)

  function Lift(effects: seq<Effect>): (events: seq<Event>)
    ensures |events| == |effects|
    ensures forall i | 0 <= i < |effects| :: events[i] == Effected(effects[i])
  {
    seq(|effects|, i requires 0 <= i < |effects| => Effected(effects[i]))
  }

  function EventsOf(input: Input, reply: Reply): seq<Event> {
    match reply
    case Reduced(result) => if result.Ok? then Lift(result.value) else []
    case Registered(accepted) =>
      if accepted && input.RegisterTurnStart? then [Registration(input.requestId, input.command)] else []
  }

  function EffectsOf(reply: Reply): seq<Effect> {
    if reply.Reduced? && reply.result.Ok? then reply.result.value else []
  }

  /** `stream` is everything emitted, `log` interleaves it with the accepted registrations. */
  datatype Run = Run(state: State, stream: seq<Effect>, log: seq<Event>, replies: seq<Reply>)

  function Execute(cfg: Config, inputs: seq<Input>): (run: Run)
    ensures |run.replies| == |inputs|
  {
    if inputs == [] then Run(Initial(cfg), [], [], [])
    else
      var before := Execute(cfg, inputs[..|inputs| - 1]);
      var input := inputs[|inputs| - 1];
      var r := Step(cfg, before.state, input);
      Run(r.state, before.stream + EffectsOf(r.reply), before.log + EventsOf(input, r.reply),
        before.replies + [r.reply])
  }

  predicate Accepted(reply: Reply) {
    reply.Reduced? ==> reply.result.Ok?
  }

  predicate AllAccepted(replies: seq<Reply>) {
    forall i | 0 <= i < |replies| :: Accepted(replies[i])
  }
}
