/**
 * The supervisor loop of `init_and_run_bot` (src/bot.rs): start-up, and
 * one step per event of the loop body, as pure functions. The waiting,
 * the timer, the lock and the queue are abstracted into the events a step
 * receives; what a step does is returned as an ordered log of effects.
 */
module Supervisor {
  import Basics
  import opened RunState

  /**
   * A strategy instance, opaque apart from what the loop reads from it:
   * its status text, its configuration path and its tick period.
   */
  datatype Strategy = Strategy(status: string, configPath: string, intervalSeconds: nat)

  /** The outcome of constructing a strategy (`T::new()`). */
  datatype InitOutcome = Constructed(strategy: Strategy) | ConstructionFailed(reason: string)

  /**
   * The outcome of one strategy execution under the timeout: it returned
   * `Ok`, it returned `Err`, or it did not finish within the timeout.
   */
  datatype TickOutcome = Completed | Failed(reason: string) | TimedOut

  /**
   * What the loop wakes up for: a status request, the request queue
   * reporting that every sender is gone, or a timer tick. A tick carries
   * how the strategy execution would end, and how a reconstruction would
   * end should the execution fail.
   */
  datatype Event = StatusRequest | ChannelClosed | Tick(outcome: TickOutcome, reinit: InitOutcome)

  /** What a step does that others can observe, in the order it does it. */
  datatype Effect =
    | Send(text: string)                                    // a chat message (a send failure is only logged)
    | SetRunning(running: bool)                             // a write of the run flag
    | RecordStrategy(configPath: string, intervalSeconds: nat) // a write of what the strategy declared
    | ArmTimer(periodSeconds: nat)                          // a new timer, its immediate first tick consumed
    | ExecuteStrategy(timeoutSeconds: nat)                  // one strategy execution under a timeout
    | Cooldown(seconds: nat)                                // a sleep
    | AnswerStatus(status: string)                          // the reply to a status request

  const StrategyTimeoutSeconds: nat := 60
  const RestartCooldownSeconds: nat := 5

  const InitializedMessage: string := "Trading bot has initialized and is now running."
  const InitFailedPrefix: string := "Failed to initialize bot: "
  const StoppedMessage: string := "Trading bot has been stopped."
  const ExecutionFailedPrefix: string := "Strategy execution failed: "
  const RestartingMessage: string := "Stopping and restarting the bot due to error..."
  const RestartedMessage: string := "Bot has been restarted."
  const ReinitializedMessage: string := "Trading bot has been re-initialized."
  const ReinitFailedPrefix: string := "Failed to re-initialize bot: "

  // ---------------------------------------------------------------------
  // Reading an effect log
  // ---------------------------------------------------------------------

  /** The shared state after one effect: only the two kinds of write change it. */
  function Write(e: Effect, state: BotState): BotState
  {
    match e
    case SetRunning(running) => state.(isRunning := running)
    case RecordStrategy(path, interval) =>
      state.(configPath := Basics.Some(path), intervalSeconds := Basics.Some(interval))
    case _ => state
  }

  /** The chat message of one effect, if it is one. */
  function Said(e: Effect): seq<string>
  {
    if e.Send? then [e.text] else []
  }

  /** One effect, kept when it is a message, a run-flag write or a sleep. */
  function Told(e: Effect): seq<Effect>
  {
    if e.Send? || e.SetRunning? || e.Cooldown? then [e] else []
  }

  /** The shared state after the writes in `effects`, applied in order. */
  function Apply(effects: seq<Effect>, state: BotState): BotState
    decreases |effects|
  {
    if |effects| == 0 then state else Apply(effects[1..], Write(effects[0], state))
  }

  /** The chat messages in `effects`, in order. */
  function Messages(effects: seq<Effect>): seq<string>
    decreases |effects|
  {
    if |effects| == 0 then [] else Said(effects[0]) + Messages(effects[1..])
  }

  /** The messages, run-flag writes and sleeps in `effects`, in order. */
  function Narrative(effects: seq<Effect>): seq<Effect>
    decreases |effects|
  {
    if |effects| == 0 then [] else Told(effects[0]) + Narrative(effects[1..])
  }

  /** How many strategy executions `effects` holds. */
  function Executions(effects: seq<Effect>): nat
    decreases |effects|
  {
    if |effects| == 0 then 0
    else (if effects[0].ExecuteStrategy? then 1 else 0) + Executions(effects[1..])
  }

  /** Every reader of a log, on a log that starts with `e`. */
  lemma Peel(e: Effect, rest: seq<Effect>)
    ensures forall state :: Apply([e] + rest, state) == Apply(rest, Write(e, state))
    ensures Messages([e] + rest) == Said(e) + Messages(rest)
    ensures Narrative([e] + rest) == Told(e) + Narrative(rest)
    ensures Executions([e] + rest) == (if e.ExecuteStrategy? then 1 else 0) + Executions(rest)
  {
  }

  /** Every reader of the empty log. */
  lemma Empty()
    ensures forall state :: Apply([], state) == state
    ensures Messages([]) == [] && Narrative([]) == [] && Executions([]) == 0
  {
  }

  /** Every reader of a concatenation is the combination of the readers of the parts. */
  lemma Append(a: seq<Effect>, b: seq<Effect>)
    ensures forall state :: Apply(a + b, state) == Apply(b, Apply(a, state))
    ensures Messages(a + b) == Messages(a) + Messages(b)
    ensures Narrative(a + b) == Narrative(a) + Narrative(b)
    ensures Executions(a + b) == Executions(a) + Executions(b)
  {
    forall state
      ensures Apply(a + b, state) == Apply(b, Apply(a, state))
    {
      AppendApply(a, b, state);
    }
    AppendMessages(a, b);
    AppendNarrative(a, b);
    AppendExecutions(a, b);
  }

  lemma {:induction false} AppendApply(a: seq<Effect>, b: seq<Effect>, state: BotState)
    ensures Apply(a + b, state) == Apply(b, Apply(a, state))
    decreases |a|
  {
    if |a| == 0 {
      assert a + b == b;
    } else {
      assert (a + b)[0] == a[0] && (a + b)[1..] == a[1..] + b;
      AppendApply(a[1..], b, Write(a[0], state));
    }
  }

  lemma {:induction false} AppendMessages(a: seq<Effect>, b: seq<Effect>)
    ensures Messages(a + b) == Messages(a) + Messages(b)
    decreases |a|
  {
    if |a| == 0 {
      assert a + b == b;
    } else {
      assert (a + b)[0] == a[0] && (a + b)[1..] == a[1..] + b;
      AppendMessages(a[1..], b);
    }
  }

  lemma {:induction false} AppendNarrative(a: seq<Effect>, b: seq<Effect>)
    ensures Narrative(a + b) == Narrative(a) + Narrative(b)
    decreases |a|
  {
    if |a| == 0 {
      assert a + b == b;
    } else {
      assert (a + b)[0] == a[0] && (a + b)[1..] == a[1..] + b;
      AppendNarrative(a[1..], b);
    }
  }

  lemma {:induction false} AppendExecutions(a: seq<Effect>, b: seq<Effect>)
    ensures Executions(a + b) == Executions(a) + Executions(b)
    decreases |a|
  {
    if |a| == 0 {
      assert a + b == b;
    } else {
      assert (a + b)[0] == a[0] && (a + b)[1..] == a[1..] + b;
      AppendExecutions(a[1..], b);
    }
  }

  // ---------------------------------------------------------------------
  // Start-up
  // ---------------------------------------------------------------------

  /** The state after start-up and the strategy the loop runs, if any. */
  datatype Launched = Launched(shared: BotState, strategy: Basics.Option<Strategy>, effects: seq<Effect>)

  /**
   * Start-up: construct the strategy. On success record what it declares,
   * announce it, arm the timer and hand it to the loop; the run flag is
   * left as it was. On failure report it, clear the run flag and run no
   * loop at all. No strategy is executed either way.
   */
  function Launch(shared: BotState, init: InitOutcome): (l: Launched)
    ensures l.shared == Apply(l.effects, shared)
    ensures l.strategy.Some? <==> init.Constructed?
    ensures Executions(l.effects) == 0
    ensures init.Constructed? ==>
      && l.strategy.value == init.strategy
      && l.shared == shared.(configPath := Basics.Some(init.strategy.configPath),
                             intervalSeconds := Basics.Some(init.strategy.intervalSeconds))
      && Messages(l.effects) == [InitializedMessage]
    ensures init.ConstructionFailed? ==>
      && l.shared == shared.(isRunning := false)
      && Messages(l.effects) == [InitFailedPrefix + init.reason]
  {
    match init
    case Constructed(strategy) =>
      var arm := ArmTimer(strategy.intervalSeconds);
      var announce := Send(InitializedMessage);
      var record := RecordStrategy(strategy.configPath, strategy.intervalSeconds);
      Empty(); Peel(arm, []); Peel(announce, [arm]); Peel(record, [announce, arm]);
      Launched(
        shared.(configPath := Basics.Some(strategy.configPath), intervalSeconds := Basics.Some(strategy.intervalSeconds)),
        Basics.Some(strategy),
        [record, announce, arm])
    case ConstructionFailed(reason) =>
      var report := Send(InitFailedPrefix + reason);
      Empty(); Peel(SetRunning(false), []); Peel(report, [SetRunning(false)]);
      Launched(shared.(isRunning := false), Basics.None, [report, SetRunning(false)])
  }

  // ---------------------------------------------------------------------
  // The loop body
  // ---------------------------------------------------------------------

  /** What the loop holds between events: the shared state as it sees it and its strategy. */
  datatype Runner = Runner(shared: BotState, strategy: Strategy)

  /**
   * The result of one step: the new loop state, its effects, whether the
   * strategy instance was replaced, and whether the loop ended.
   */
  datatype StepResult = StepResult(runner: Runner, effects: seq<Effect>, replaced: bool, terminated: bool)

  /** The announcements and run-flag cycle every restart begins with. */
  function RestartCycle(reason: string): seq<Effect>
  {
    [Send(ExecutionFailedPrefix + reason), Send(RestartingMessage),
     SetRunning(false), Cooldown(RestartCooldownSeconds), SetRunning(true),
     Send(RestartedMessage)]
  }

  /** The restart cycle as the shared state and the chat see it. */
  lemma RestartCycleReaders(reason: string)
    ensures forall state :: Apply(RestartCycle(reason), state) == state.(isRunning := true)
    ensures Narrative(RestartCycle(reason)) == RestartCycle(reason)
    ensures Executions(RestartCycle(reason)) == 0
  {
    var c := RestartCycle(reason);
    Empty();
    Peel(c[5], []);
    assert c[4..] == [c[4]] + c[5..];
    Peel(c[4], c[5..]);
    assert c[3..] == [c[3]] + c[4..];
    Peel(c[3], c[4..]);
    assert c[2..] == [c[2]] + c[3..];
    Peel(c[2], c[3..]);
    assert c[1..] == [c[1]] + c[2..];
    Peel(c[1], c[2..]);
    assert c == [c[0]] + c[1..];
    Peel(c[0], c[1..]);
  }

  /** What follows the restart cycle when a new strategy was constructed. */
  function Reinstall(renewed: Strategy): seq<Effect>
  {
    [RecordStrategy(renewed.configPath, renewed.intervalSeconds), ArmTimer(renewed.intervalSeconds),
     Send(ReinitializedMessage)]
  }

  /** What follows the restart cycle when the construction failed. */
  function GiveUp(err: string): seq<Effect>
  {
    [Send(ReinitFailedPrefix + err), SetRunning(false)]
  }

  /** A reinstall records the new strategy's details, announces it and executes nothing. */
  lemma ReinstallReaders(renewed: Strategy)
    ensures forall state :: (Apply(Reinstall(renewed), state) ==
      state.(configPath := Basics.Some(renewed.configPath), intervalSeconds := Basics.Some(renewed.intervalSeconds)))
    ensures Narrative(Reinstall(renewed)) == [Send(ReinitializedMessage)]
    ensures Executions(Reinstall(renewed)) == 0
  {
    var t := Reinstall(renewed);
    Empty();
    Peel(t[2], []);
    assert t[1..] == [t[1], t[2]];
    Peel(t[1], [t[2]]);
    assert t == [t[0]] + t[1..];
    Peel(t[0], t[1..]);
  }

  /** Giving up reports the failure, clears the run flag and executes nothing. */
  lemma GiveUpReaders(err: string)
    ensures forall state :: Apply(GiveUp(err), state) == state.(isRunning := false)
    ensures Narrative(GiveUp(err)) == GiveUp(err)
    ensures Executions(GiveUp(err)) == 0
  {
    var t := GiveUp(err);
    Empty();
    Peel(t[1], []);
    assert t == [t[0]] + [t[1]];
    Peel(t[0], [t[1]]);
  }

  /**
   * The recovery after a strategy execution reported an error: report it,
   * announce the restart, clear the run flag, sleep, set the flag again,
   * announce the restart done, and construct a new strategy. A new strategy
   * replaces the old one and its declarations are recorded; a failed
   * construction is reported and clears the run flag, the old strategy
   * stays, and the loop goes on either way.
   */
  function Recover(s: Runner, reason: string, reinit: InitOutcome): (r: StepResult)
    ensures r.runner.shared == Apply(r.effects, s.shared)
    ensures Executions(r.effects) == 0
    ensures !r.terminated
    ensures r.replaced <==> reinit.Constructed?
    ensures r.runner.strategy == (if reinit.Constructed? then reinit.strategy else s.strategy)
    ensures Narrative(r.effects) == RestartCycle(reason) +
      (if reinit.Constructed? then [Send(ReinitializedMessage)]
       else [Send(ReinitFailedPrefix + reinit.reason), SetRunning(false)])
  {
    RestartCycleReaders(reason);
    var cycle := RestartCycle(reason);
    match reinit
    case Constructed(renewed) =>
      ReinstallReaders(renewed);
      Append(cycle, Reinstall(renewed));
      var shared := s.shared.(isRunning := true,
                              configPath := Basics.Some(renewed.configPath),
                              intervalSeconds := Basics.Some(renewed.intervalSeconds));
      StepResult(Runner(shared, renewed), cycle + Reinstall(renewed), true, false)
    case ConstructionFailed(err) =>
      GiveUpReaders(err);
      Append(cycle, GiveUp(err));
      StepResult(Runner(s.shared.(isRunning := false), s.strategy), cycle + GiveUp(err), false, false)
  }

  /**
   * One iteration of the loop. The shared state after the step is what its
   * logged writes make of the state before; the loop ends exactly on a
   * closed queue or on a tick that finds the run flag cleared; the strategy
   * is executed exactly once on a tick that finds the flag set and never
   * otherwise; and the strategy is replaced exactly when such an execution
   * failed and a new one was constructed.
   */
  function Step(s: Runner, e: Event): (r: StepResult)
    ensures r.runner.shared == Apply(r.effects, s.shared)
    ensures r.terminated <==> e.ChannelClosed? || (e.Tick? && !s.shared.isRunning)
    ensures Executions(r.effects) == (if e.Tick? && s.shared.isRunning then 1 else 0)
    ensures r.replaced <==> e.Tick? && s.shared.isRunning && e.outcome.Failed? && e.reinit.Constructed?
    ensures r.runner.strategy == (if r.replaced then e.reinit.strategy else s.strategy)
  {
    Empty();
    match e
    case StatusRequest =>
      Peel(AnswerStatus(s.strategy.status), []);
      StepResult(s, [AnswerStatus(s.strategy.status)], false, false)
    case ChannelClosed =>
      StepResult(s, [], false, true)
    case Tick(outcome, reinit) =>
      if !s.shared.isRunning then
        Peel(Send(StoppedMessage), []);
        StepResult(s, [Send(StoppedMessage)], false, true)
      else
        var execute := [ExecuteStrategy(StrategyTimeoutSeconds)];
        Peel(execute[0], []);
        match outcome
        case Completed => StepResult(s, execute, false, false)
        case TimedOut => StepResult(s, execute, false, false)
        case Failed(reason) =>
          var rec := Recover(s, reason, reinit);
          Append(execute, rec.effects);
          StepResult(rec.runner, execute + rec.effects, rec.replaced, rec.terminated)
  }

  /**
   * Events that leave the loop as it is: a status request, whatever the run
   * flag says, is answered from the strategy; a tick that finds the flag set
   * and whose execution returns or times out does nothing but execute.
   */
  lemma QuietEvents(s: Runner, e: Event)
    requires e.StatusRequest? || (s.shared.isRunning && e.Tick? && !e.outcome.Failed?)
    ensures Step(s, e).runner == s
    ensures !Step(s, e).replaced && !Step(s, e).terminated
    ensures Messages(Step(s, e).effects) == []
    ensures e.StatusRequest? ==> Step(s, e).effects == [AnswerStatus(s.strategy.status)]
    ensures e.Tick? ==> Step(s, e).effects == [ExecuteStrategy(StrategyTimeoutSeconds)]
  {
  }

  /** A tick that finds the run flag cleared announces the stop once and ends the loop unchanged. */
  lemma StoppedTick(s: Runner, e: Event)
    requires e.Tick? && !s.shared.isRunning
    ensures Step(s, e).terminated
    ensures Step(s, e).runner == s
    ensures Messages(Step(s, e).effects) == [StoppedMessage]
    ensures Executions(Step(s, e).effects) == 0
  {
  }

  /**
   * A failed execution: the failure and the restart are announced before
   * the run flag is cleared, the sleep comes between clearing and setting
   * it, and the restart is announced after. A constructed strategy then
   * replaces the old one, its declarations are recorded and the flag stays
   * set; a failed construction is announced, the flag is cleared, the old
   * strategy is kept and the loop does not end.
   */
  lemma FailedTick(s: Runner, reason: string, reinit: InitOutcome)
    requires s.shared.isRunning
    ensures var r := Step(s, Tick(Failed(reason), reinit));
      && Narrative(r.effects) ==
           [Send(ExecutionFailedPrefix + reason), Send(RestartingMessage),
            SetRunning(false), Cooldown(RestartCooldownSeconds), SetRunning(true),
            Send(RestartedMessage)]
           + (if reinit.Constructed? then [Send(ReinitializedMessage)]
              else [Send(ReinitFailedPrefix + reinit.reason), SetRunning(false)])
      && !r.terminated
      && (reinit.Constructed? ==>
            && r.replaced
            && r.runner == Runner(s.shared.(configPath := Basics.Some(reinit.strategy.configPath),
                                            intervalSeconds := Basics.Some(reinit.strategy.intervalSeconds)),
                                  reinit.strategy))
      && (reinit.ConstructionFailed? ==>
            && !r.replaced
            && r.runner == Runner(s.shared.(isRunning := false), s.strategy))
  {
  }

  // ---------------------------------------------------------------------
  // Runs of several events
  // ---------------------------------------------------------------------

  datatype RunResult = RunResult(runner: Runner, effects: seq<Effect>, terminated: bool)

  /**
   * The loop over a sequence of events, up to the step that ends it: the
   * shared state follows the logged writes, the strategy runs at most once
   * per event, and the loop can only have ended after some event.
   */
  function Run(s: Runner, events: seq<Event>): (r: RunResult)
    ensures r.runner.shared == Apply(r.effects, s.shared)
    ensures Executions(r.effects) <= |events|
    ensures r.terminated ==> |events| > 0
    decreases |events|
  {
    if |events| == 0 then Empty(); RunResult(s, [], false)
    else
      var first := Step(s, events[0]);
      if first.terminated then RunResult(first.runner, first.effects, true)
      else
        var rest := Run(first.runner, events[1..]);
        Append(first.effects, rest.effects);
        RunResult(rest.runner, first.effects + rest.effects, rest.terminated)
  }

  /** Once a run has ended, later events change nothing: the loop stops at the step that ends it. */
  lemma {:induction false} RunStopsAtEnd(s: Runner, a: seq<Event>, b: seq<Event>)
    requires Run(s, a).terminated
    ensures Run(s, a + b) == Run(s, a)
    decreases |a|
  {
    assert (a + b)[0] == a[0] && (a + b)[1..] == a[1..] + b;
    var first := Step(s, a[0]);
    if !first.terminated {
      RunStopsAtEnd(first.runner, a[1..], b);
    }
  }

  /**
   * The code as written: when reconstruction fails the loop goes on with
   * the old strategy and the run flag cleared; it keeps answering status
   * requests from the old strategy, and the next tick ends it with the stop
   * message and no further execution.
   */
  lemma ReinitFailureStopsAtNextTick(s: Runner, reason: string, err: string,
                                     requests: seq<Event>, next: Event)
    requires s.shared.isRunning
    requires forall i :: 0 <= i < |requests| ==> requests[i] == StatusRequest
    requires next.Tick?
    ensures var first := Step(s, Tick(Failed(reason), ConstructionFailed(err)));
      var rest := Run(first.runner, requests + [next]);
      && !first.terminated
      && rest.terminated
      && rest.runner.strategy == s.strategy
      && rest.effects == Answers(s.strategy.status, |requests|) + [Send(StoppedMessage)]
      && Messages(rest.effects) == [StoppedMessage]
      && Executions(rest.effects) == 0
  {
    var first := Step(s, Tick(Failed(reason), ConstructionFailed(err)));
    FailedTick(s, reason, ConstructionFailed(err));
    RequestsThenStoppedTick(first.runner, requests, next);
  }

  /** `n` answers to status requests, each with `status`. */
  function Answers(status: string, n: nat): seq<Effect>
  {
    seq(n, _ => AnswerStatus(status))
  }

  /** Status requests followed by a tick, with the run flag cleared: answered, then the loop ends. */
  lemma {:induction false} RequestsThenStoppedTick(s: Runner, requests: seq<Event>, next: Event)
    requires !s.shared.isRunning
    requires forall i :: 0 <= i < |requests| ==> requests[i] == StatusRequest
    requires next.Tick?
    ensures var rest := Run(s, requests + [next]);
      && rest.terminated
      && rest.runner == s
      && rest.effects == Answers(s.strategy.status, |requests|) + [Send(StoppedMessage)]
      && Messages(rest.effects) == [StoppedMessage]
      && Executions(rest.effects) == 0
    decreases |requests|
  {
    var events := requests + [next];
    var status := s.strategy.status;
    if |requests| == 0 {
      assert events == [next];
      StoppedTick(s, next);
      Empty();
      Append(Step(s, next).effects, []);
      assert Step(s, next).effects == [Send(StoppedMessage)];
    } else {
      var later := requests[1..] + [next];
      assert events == [StatusRequest] + later;
      RequestsThenStoppedTick(s, requests[1..], next);
      QuietEvents(s, StatusRequest);
      RunCons(s, StatusRequest, later);
      var rest := Run(s, later);
      Append([AnswerStatus(status)], rest.effects);
      Peel(AnswerStatus(status), []);
      Empty();
      assert [AnswerStatus(status)] + Answers(status, |requests| - 1) == Answers(status, |requests|);
    }
  }

  /** A run that starts with an event which neither changes nor ends the loop. */
  lemma RunCons(s: Runner, e: Event, events: seq<Event>)
    requires Step(s, e).runner == s && !Step(s, e).terminated
    ensures var rest := Run(s, events);
      Run(s, [e] + events) == RunResult(rest.runner, Step(s, e).effects + rest.effects, rest.terminated)
  {
  }
}
