/**
 * The command handler and the supervisor loop side by side: a process is
 * the shared run state plus, while a supervisor loop is alive, the
 * strategy it runs. Inputs are commands from the chat and events of the
 * loop, taken one at a time in the order given.
 */
module System {
  import Basics
  import opened RunState
  import opened Commands
  import opened Supervisor

  /** A command waiting for the loop's answer, with the run state it read before asking. */
  datatype Asked = Asked(state: BotState, cmd: Command)

  /**
   * The shared state; the live loop's strategy (`None` once no loop holds
   * the request queue); and the commands whose status requests are queued
   * for the loop, oldest first.
   */
  datatype Process = Process(shared: BotState, runner: Basics.Option<Strategy>, pending: seq<Asked>)

  /** Requests are only ever queued for a live loop. */
  predicate Consistent(p: Process)
  {
    p.runner.None? ==> p.pending == []
  }

  /** One input: a chat command, or an event the loop wakes up for. */
  datatype Input = User(cmd: Command) | Loop(event: Event)

  datatype Outcome = Outcome(process: Process, effects: seq<Effect>)

  /** Start-up from a given shared state, with nothing queued. */
  function Boot(shared: BotState, init: InitOutcome): (p: Process)
    ensures Consistent(p)
  {
    var l := Launch(shared, init);
    Process(l.shared, l.strategy, [])
  }

  /** The reply a waiting command sends once its status request has fared as `channel`. */
  function Reply(asked: Asked, channel: StatusChannel): string
  {
    HandleCommand(asked.state, asked.cmd, channel).replies[0]
  }

  /** The replies of waiting commands whose requests the loop never answered, in queue order. */
  function DroppedReplies(pending: seq<Asked>): (texts: seq<string>)
    ensures |texts| == |pending|
  {
    seq(|pending|, i requires 0 <= i < |pending| => Reply(pending[i], ReplyDropped))
  }

  /** Command replies as chat messages. */
  function Replies(texts: seq<string>): (effects: seq<Effect>)
    ensures Messages(effects) == texts
    ensures Executions(effects) == 0
    ensures forall state :: Apply(effects, state) == state
    decreases |texts|
  {
    Empty();
    if |texts| == 0 then []
    else
      Peel(Send(texts[0]), Replies(texts[1..]));
      assert [texts[0]] + texts[1..] == texts;
      [Send(texts[0])] + Replies(texts[1..])
  }

  /**
   * Whether a loop event can reach the loop: a loop is alive, a status
   * request has a queued request to take, and the queue reports itself
   * closed only once it is empty.
   */
  predicate Delivered(p: Process, e: Event)
  {
    p.runner.Some? && (e.StatusRequest? ==> p.pending != []) && (e.ChannelClosed? ==> p.pending == [])
  }

  /**
   * One input.
   *
   * A command changes the shared state as the handler does and never starts
   * or stops a loop. A command that asks a live loop for its status queues
   * the request and replies only once it is answered or dropped; every other
   * command replies at once, a status request with no loop being refused.
   *
   * A loop event that cannot reach the loop does nothing. Otherwise it is
   * one loop step: a status request answers the oldest waiting command from
   * the strategy; a step that ends the loop drops the queue, and every
   * waiting command then replies that the reply slot was dropped.
   */
  function ProcessStep(p: Process, input: Input): (o: Outcome)
    ensures Consistent(p) ==> Consistent(o.process)
    ensures input.User? ==> o.process.runner == p.runner
    ensures input.User? && p.runner.Some? && HandleCommand(p.shared, input.cmd, NoRunner).statusRequested ==>
      o == Outcome(p.(pending := p.pending + [Asked(p.shared, input.cmd)]), [])
    ensures input.User? && !(p.runner.Some? && HandleCommand(p.shared, input.cmd, NoRunner).statusRequested) ==>
      var h := HandleCommand(p.shared, input.cmd, NoRunner);
      && o.process == p.(shared := h.state)
      && Messages(o.effects) == h.replies
    ensures input.Loop? && !Delivered(p, input.event) ==> o == Outcome(p, [])
    ensures input.Loop? && Delivered(p, input.event) ==>
      var r := Step(Runner(p.shared, p.runner.value), input.event);
      && r.effects <= o.effects
      && o.process.shared == r.runner.shared
      && (o.process.runner.None? <==> r.terminated)
      && (!r.terminated ==> o.process.runner.value == r.runner.strategy)
      && Executions(o.effects) == Executions(r.effects)
      && (r.terminated ==>
            o.process.pending == [] && Messages(o.effects) == Messages(r.effects) + DroppedReplies(p.pending))
      && (input.event.StatusRequest? ==>
            && o.process.pending == p.pending[1..]
            && Messages(o.effects) == [Reply(p.pending[0], Answered(p.runner.value.status))])
      && (input.event.Tick? && !r.terminated ==> o.process.pending == p.pending && o.effects == r.effects)
    ensures Executions(o.effects) > 0 ==> p.runner.Some? && input.Loop?
  {
    match input
    case User(cmd) =>
      var h := HandleCommand(p.shared, cmd, NoRunner);
      if p.runner.Some? && h.statusRequested then
        Empty();
        Outcome(p.(pending := p.pending + [Asked(p.shared, cmd)]), [])
      else
        Outcome(p.(shared := h.state), Replies(h.replies))
    case Loop(event) =>
      if !Delivered(p, event) then Empty(); Outcome(p, [])
      else
        var r := Step(Runner(p.shared, p.runner.value), event);
        if r.terminated then
          var dropped := Replies(DroppedReplies(p.pending));
          Append(r.effects, dropped);
          Outcome(Process(r.runner.shared, Basics.None, []), r.effects + dropped)
        else if event.StatusRequest? then
          var answer := Replies([Reply(p.pending[0], Answered(p.runner.value.status))]);
          QuietEvents(Runner(p.shared, p.runner.value), event);
          Append(r.effects, answer);
          Outcome(Process(r.runner.shared, Basics.Some(r.runner.strategy), p.pending[1..]), r.effects + answer)
        else
          Outcome(Process(r.runner.shared, Basics.Some(r.runner.strategy), p.pending), r.effects)
  }

  /** A sequence of inputs, each applied to the process the previous one left. */
  function ProcessRun(p: Process, inputs: seq<Input>): Outcome
    decreases |inputs|
  {
    if |inputs| == 0 then Outcome(p, [])
    else
      var first := ProcessStep(p, inputs[0]);
      var rest := ProcessRun(first.process, inputs[1..]);
      Outcome(rest.process, first.effects + rest.effects)
  }

  /** A run of inputs followed by more inputs is the first run, then the second from where it left off. */
  lemma ProcessRunAppend(p: Process, a: seq<Input>, b: seq<Input>)
    ensures var ra := ProcessRun(p, a);
      var rb := ProcessRun(ra.process, b);
      ProcessRun(p, a + b) == Outcome(rb.process, ra.effects + rb.effects)
  {
    var step := (q: Process, input: Input) => ProcessStep(q, input);
    var ra := ProcessRun(p, a);
    RunsAgree(step, p, a + b);
    RunsAgree(step, p, a);
    RunsAgree(step, ra.process, b);
    RunWithAppend(step, p, a, b);
  }

  /**
   * Inputs applied one at a time by an arbitrary `step`: the shape of
   * `ProcessRun`, without what a process step promises.
   */
  function RunWith(step: (Process, Input) -> Outcome, p: Process, inputs: seq<Input>): Outcome
    decreases |inputs|
  {
    if |inputs| == 0 then Outcome(p, [])
    else
      var first := step(p, inputs[0]);
      var rest := RunWith(step, first.process, inputs[1..]);
      Outcome(rest.process, first.effects + rest.effects)
  }

  lemma {:induction false} RunsAgree(step: (Process, Input) -> Outcome, p: Process, inputs: seq<Input>)
    requires forall q, input :: step(q, input) == ProcessStep(q, input)
    ensures ProcessRun(p, inputs) == RunWith(step, p, inputs)
    decreases |inputs|
  {
    if |inputs| > 0 {
      RunsAgree(step, ProcessStep(p, inputs[0]).process, inputs[1..]);
    }
  }

  lemma {:induction false} RunWithAppend(step: (Process, Input) -> Outcome, p: Process, a: seq<Input>, b: seq<Input>)
    ensures var ra := RunWith(step, p, a);
      var rb := RunWith(step, ra.process, b);
      RunWith(step, p, a + b) == Outcome(rb.process, ra.effects + rb.effects)
    decreases |a|
  {
    if |a| == 0 {
      assert a + b == b;
    } else {
      var first := step(p, a[0]);
      var ra' := RunWith(step, first.process, a[1..]);
      var rb := RunWith(step, ra'.process, b);
      RunWithAppend(step, first.process, a[1..], b);
      AppendTail(a, b);
      assert first.effects + (ra'.effects + rb.effects) == (first.effects + ra'.effects) + rb.effects;
    }
  }

  /** The head and the tail of a concatenation whose first part is non-empty. */
  lemma AppendTail<T>(a: seq<T>, b: seq<T>)
    requires |a| > 0
    ensures (a + b)[0] == a[0] && (a + b)[1..] == a[1..] + b
  {
  }

  /**
   * A failed start-up leaves the run flag cleared and no loop, and no
   * later input, a `startbot` command included, ever executes the strategy:
   * nothing reconstructs it.
   */
  lemma FailedBootNeverExecutes(shared: BotState, reason: string, inputs: seq<Input>)
    ensures !Boot(shared, ConstructionFailed(reason)).shared.isRunning
    ensures var o := ProcessRun(Boot(shared, ConstructionFailed(reason)), inputs);
      o.process.runner.None? && Executions(o.effects) == 0
  {
    NoLoopNoExecution(Boot(shared, ConstructionFailed(reason)), inputs);
  }

  lemma {:induction false} NoLoopNoExecution(p: Process, inputs: seq<Input>)
    requires p.runner.None?
    ensures var o := ProcessRun(p, inputs);
      o.process.runner.None? && Executions(o.effects) == 0
    decreases |inputs|
  {
    if |inputs| > 0 {
      var first := ProcessStep(p, inputs[0]);
      NoLoopNoExecution(first.process, inputs[1..]);
      Append(first.effects, ProcessRun(first.process, inputs[1..]).effects);
    }
  }

  /** A tick whose execution returns or times out. */
  predicate QuietTick(input: Input)
  {
    input.Loop? && input.event.Tick? && !input.event.outcome.Failed?
  }

  /** Quiet ticks on a running loop: each executes the strategy once and nothing else changes. */
  lemma {:induction false} QuietTicks(p: Process, ticks: seq<Input>)
    requires p.runner.Some? && p.shared.isRunning
    requires forall i :: 0 <= i < |ticks| ==> QuietTick(ticks[i])
    ensures var o := ProcessRun(p, ticks);
      o.process == p && Messages(o.effects) == [] && Executions(o.effects) == |ticks|
    decreases |ticks|
  {
    if |ticks| > 0 {
      var first := ProcessStep(p, ticks[0]);
      QuietEvents(Runner(p.shared, p.runner.value), ticks[0].event);
      QuietTicks(p, ticks[1..]);
      Append(first.effects, ProcessRun(p, ticks[1..]).effects);
    }
  }

  /**
   * A running loop ticks successfully any number of times, then `stopbot` is
   * sent: the next tick ends the loop. The chat sees the reply to `stopbot`
   * and the stop announcement once, and the strategy ran once per tick
   * before the stop and not after.
   */
  lemma StopAfterQuietTicks(p: Process, ticks: seq<Input>, next: Event)
    requires p.runner.Some? && p.shared.isRunning
    requires forall i :: 0 <= i < |ticks| ==> QuietTick(ticks[i])
    requires next.Tick?
    ensures var o := ProcessRun(p, ticks + [User(StopBot), Loop(next)]);
      && o.process.runner.None?
      && !o.process.shared.isRunning
      && o.process.pending == []
      && Messages(o.effects) == ["Trading bot stopped.", StoppedMessage] + DroppedReplies(p.pending)
      && Executions(o.effects) == |ticks|
  {
    var tail := [User(StopBot), Loop(next)];
    QuietTicks(p, ticks);
    ProcessRunAppend(p, ticks, tail);
    StopThenTick(p, next);
    Append(ProcessRun(p, ticks).effects, ProcessRun(p, tail).effects);
  }

  /** `stopbot` on a running loop, then a tick: the loop ends after the two replies, executing nothing. */
  lemma StopThenTick(p: Process, next: Event)
    requires p.runner.Some? && p.shared.isRunning
    requires next.Tick?
    ensures var o := ProcessRun(p, [User(StopBot), Loop(next)]);
      && o.process.runner.None?
      && !o.process.shared.isRunning
      && o.process.pending == []
      && Messages(o.effects) == ["Trading bot stopped.", StoppedMessage] + DroppedReplies(p.pending)
      && Executions(o.effects) == 0
  {
    var stop := ProcessStep(p, User(StopBot));
    var q := stop.process;
    assert q == p.(shared := p.shared.(isRunning := false));
    assert Messages(stop.effects) == ["Trading bot stopped."] && Executions(stop.effects) == 0;
    var last := ProcessStep(q, Loop(next));
    StoppingTick(q, next);
    ProcessRunTwo(p, User(StopBot), Loop(next));
    Append(stop.effects, last.effects);
    var d := DroppedReplies(p.pending);
    assert Messages(stop.effects + last.effects) == ["Trading bot stopped."] + ([StoppedMessage] + d);
    AppendPair("Trading bot stopped.", StoppedMessage, d);
  }

  /** A run of two inputs is the first input's step, then the second's from where it left off. */
  lemma ProcessRunTwo(p: Process, a: Input, b: Input)
    ensures var first := ProcessStep(p, a);
      var second := ProcessStep(first.process, b);
      ProcessRun(p, [a, b]) == Outcome(second.process, first.effects + second.effects)
  {
    var first := ProcessStep(p, a);
    ProcessRunSingle(first.process, b);
    assert [a, b][1..] == [b];
  }

  /**
   * Two texts, then more: the last step of `StopThenTick`, kept apart so
   * that the solver proves it without that lemma's large context.
   */
  lemma AppendPair(x: string, y: string, rest: seq<string>)
    ensures [x] + ([y] + rest) == [x, y] + rest
  {
  }

  /** A run of one input is that input's step. */
  lemma ProcessRunSingle(p: Process, input: Input)
    ensures ProcessRun(p, [input]) == ProcessStep(p, input)
  {
  }

  /**
   * The code as written after a failed reconstruction: the loop is still
   * alive with the old strategy, so a `startbot` before the next tick sets the
   * run flag again and that tick executes the old strategy once more.
   */
  lemma StartRevivesOldStrategy(p: Process, reason: string, err: string, next: Input)
    requires p.runner.Some? && p.shared.isRunning
    requires QuietTick(next)
    ensures var o := ProcessRun(p, [Loop(Tick(Failed(reason), ConstructionFailed(err))), User(StartBot), next]);
      && o.process.runner == p.runner
      && o.process.shared.isRunning
      && Executions(o.effects) == 2
  {
    var failing := Loop(Tick(Failed(reason), ConstructionFailed(err)));
    var tail := [User(StartBot), next];
    var fail := ProcessStep(p, failing);
    FailedTick(Runner(p.shared, p.runner.value), reason, ConstructionFailed(err));
    assert fail.process.runner == p.runner && Executions(fail.effects) == 1;
    StartThenTick(fail.process, next);
    var last := ProcessRun(fail.process, tail);
    assert last.process.runner == p.runner && last.process.shared.isRunning && Executions(last.effects) == 1;
    assert [failing, User(StartBot), next] == [failing] + tail;
    ProcessRunCons(p, failing, tail);
    Append(fail.effects, last.effects);
  }

  /** A run of inputs that starts with `a` is `a`'s step, then the rest from where it left off. */
  lemma ProcessRunCons(p: Process, a: Input, rest: seq<Input>)
    ensures var first := ProcessStep(p, a);
      var later := ProcessRun(first.process, rest);
      ProcessRun(p, [a] + rest) == Outcome(later.process, first.effects + later.effects)
  {
    assert ([a] + rest)[0] == a && ([a] + rest)[1..] == rest;
  }

  /** `startbot` on a live loop, then a tick that returns or times out: the loop keeps its strategy and runs it once. */
  lemma StartThenTick(p: Process, next: Input)
    requires p.runner.Some?
    requires QuietTick(next)
    ensures var o := ProcessRun(p, [User(StartBot), next]);
      && o.process == p.(shared := p.shared.(isRunning := true))
      && Executions(o.effects) == 1
  {
    var start := ProcessStep(p, User(StartBot));
    var q := start.process;
    var last := ProcessStep(q, next);
    QuietEvents(Runner(q.shared, q.runner.value), next.event);
    ProcessRunSingle(q, next);
    assert [User(StartBot), next][1..] == [next];
    Append(start.effects, last.effects);
  }

  /**
   * `update` asks a live loop for its status whatever the run flag says:
   * the request is queued behind those already waiting and nothing is
   * replied yet. With no loop it is refused at once.
   */
  lemma UpdateQueued(p: Process)
    ensures p.runner.Some? ==>
      ProcessStep(p, User(Update)) == Outcome(p.(pending := p.pending + [Asked(p.shared, Update)]), [])
    ensures p.runner.None? ==>
      && ProcessStep(p, User(Update)).process == p
      && Messages(ProcessStep(p, User(Update)).effects) ==
           ["Unable to retrieve status from running bot: Bot runner unavailable"]
  {
    if p.runner.None? {
      var h := HandleCommand(p.shared, Update, NoRunner);
      assert h.replies == ["Unable to retrieve status from running bot: " + "Bot runner unavailable"];
      UnavailableUpdateText();
    }
  }

  /** The refusal text spelled out, kept apart because comparing string literals is costly in a large context. */
  lemma UnavailableUpdateText()
    ensures "Unable to retrieve status from running bot: " + "Bot runner unavailable"
         == "Unable to retrieve status from running bot: Bot runner unavailable"
  {
  }

  /**
   * `update` with nothing else waiting, then the loop takes the request:
   * the chat sees the strategy's status, even while stopped, and the
   * process is back where it was.
   */
  lemma UpdateAnswers(p: Process)
    requires p.runner.Some? && p.pending == []
    ensures var o := ProcessRun(p, [User(Update), Loop(StatusRequest)]);
      && o.process == p
      && Messages(o.effects) == ["Current status:\n" + p.runner.value.status]
  {
    var ask := ProcessStep(p, User(Update));
    var q := ask.process;
    var answer := ProcessStep(q, Loop(StatusRequest));
    ProcessRunSingle(q, Loop(StatusRequest));
    assert [User(Update), Loop(StatusRequest)][1..] == [Loop(StatusRequest)];
    Append(ask.effects, answer.effects);
  }

  /**
   * `update` while the run flag is cleared, and the loop takes a tick
   * before the request: the loop ends, and after the stop message the
   * update reports that the reply slot was dropped.
   */
  lemma UpdateDroppedAtStop(p: Process, next: Event)
    requires p.runner.Some? && !p.shared.isRunning && p.pending == []
    requires next.Tick?
    ensures var o := ProcessRun(p, [User(Update), Loop(next)]);
      && o.process.runner.None?
      && o.process.pending == []
      && Messages(o.effects) ==
           [StoppedMessage, "Unable to retrieve status from running bot: " + "Bot runner dropped status channel"]
  {
    var ask := ProcessStep(p, User(Update));
    var q := ask.process;
    UpdateQueued(p);
    assert p.pending + [Asked(p.shared, Update)] == [Asked(p.shared, Update)];
    var last := ProcessStep(q, Loop(next));
    StoppingTick(q, next);
    assert DroppedReplies(q.pending) ==
      ["Unable to retrieve status from running bot: " + "Bot runner dropped status channel"];
    ProcessRunTwo(p, User(Update), Loop(next));
    assert ask.effects + last.effects == last.effects;
  }

  /**
   * A tick that finds the run flag cleared on a live loop: the loop ends
   * after the stop message, and every waiting command then replies that
   * its reply slot was dropped.
   */
  lemma StoppingTick(p: Process, next: Event)
    requires p.runner.Some? && !p.shared.isRunning
    requires next.Tick?
    ensures var o := ProcessStep(p, Loop(next));
      && o.process.runner.None?
      && o.process.shared == p.shared
      && o.process.pending == []
      && Messages(o.effects) == [StoppedMessage] + DroppedReplies(p.pending)
      && Executions(o.effects) == 0
  {
    StoppedTick(Runner(p.shared, p.runner.value), next);
    assert Delivered(p, next);
  }

  /** An `update` whose request the loop never answered reports the dropped reply slot. */
  lemma DroppedUpdate(state: BotState)
    ensures Reply(Asked(state, Update), ReplyDropped) ==
      "Unable to retrieve status from running bot: Bot runner dropped status channel"
  {
    assert Reply(Asked(state, Update), ReplyDropped) ==
      "Unable to retrieve status from running bot: " + "Bot runner dropped status channel";
    DroppedUpdateText();
  }

  /** The dropped-slot text spelled out, kept apart for the same reason as `UnavailableUpdateText`. */
  lemma DroppedUpdateText()
    ensures "Unable to retrieve status from running bot: " + "Bot runner dropped status channel"
         == "Unable to retrieve status from running bot: Bot runner dropped status channel"
  {
  }
}
