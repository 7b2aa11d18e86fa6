# telegram_bot: a verified model of the notification and supervisor core

`telegram_bot` is a Rust crate. It drives a trading strategy from a Telegram
chat. Users send control commands (`/startbot`, `/stopbot`, `/status`,
`/notify <level>`, `/update`: the lower-cased names of the `Command`
variants). A supervisor loop runs the strategy on a timer, restarts it when it
fails and reports to the chat. Outbound notifications are filtered by a
verbosity threshold, cut into chunks that fit Telegram's message limit,
wrapped in `<pre>…</pre>` and sent in order.

This project models that core of `src/bot.rs` as pure Dafny functions and
proves properties of them:

- `chunking.dfy`: `split_message_chunks`, with its line splitting
  (`split_inclusive('\n')`), greedy packing and hard splitting of long lines.
- `levels.dfy`: `NotificationLevel`, `level_is_sufficient`, and the parsing of
  the `notify` argument.
- `run_state.dfy`: `BotState` and its default.
- `notification.dfy`: `send_telegram_notification`. The transport is a
  function from the index of a send to its reply.
- `commands.dfy`: the `startbot`, `stopbot`, `status`, `notify` and `update` arms of
  `handle_command`, and `request_status`.
- `supervisor.dfy`: the start-up and the loop body of `init_and_run_bot`, as
  one step per event.
  - The events are a status request, the request queue closing, or a timer
    tick. A tick carries the strategy's outcome and the outcome of a
    reconstruction.
  - A step returns an ordered log of effects: chat messages, run-flag writes,
    recorded strategy details, timer arming, strategy executions, sleeps and
    status answers.
  - Readers of the log (`Apply`, `Messages`, `Narrative`, `Executions`) give
    the shared state, the chat transcript, the observable order and the
    number of executions.
- `system.dfy`: commands and loop events interleaved over the shared run
  state, for properties that span both. A `status` or `update` sent to a
  live loop waits in the request queue and replies when the loop answers
  it; when the loop ends first, the request is dropped and the command
  replies that the status channel was dropped.
- `basics.dfy`: `Option` and `Result`.

The two construction failures end differently in the source, and the model
keeps the difference. A failed construction at start-up reports the error,
clears the run flag and never enters the loop (`src/bot.rs:647-659`). A failed
reconstruction after a strategy error also reports and clears the flag, but
does not `break` (`src/bot.rs:620-636`). The loop keeps the old strategy and
keeps answering status requests. It ends at the next tick's flag check
(`src/bot.rs:527-535`). A `startbot` command sent before that tick revives it
with the old strategy. See `Supervisor.ReinitFailureStopsAtNextTick` and
`System.StartRevivesOldStrategy`.

A step of the loop is atomic with respect to commands here: a command is
handled either before a whole step or after it. The loop's own messages and
writes are in the effect log. What the strategy itself writes or sends while
it executes is not (see "## Left out").

## Model

| member | source | states |
|---|---|---|
| `Levels.LevelIsSufficient` | src/bot.rs:762-774 | A real severity passes exactly when the threshold is not `None` and the severity ranks at least as high (All < Important < Critical). A message tagged `None` passes only the `All` threshold. |
| `Levels.ThresholdMonotone` | src/bot.rs:762-774 | Raising the threshold never lets more messages through. |
| `Levels.ParseLevel` | src/bot.rs:167-195 | A level is returned only when the lower-cased argument is that level's keyword. No level is returned when it matches no keyword. |
| `Levels.KeywordRoundTrip` | src/bot.rs:167-187 | Parsing a level's keyword gives back that level, so no two levels share a keyword. |
| `Levels.ParseIgnoresCase` | src/bot.rs:167 | Two arguments that agree after ASCII lower-casing parse to the same result. |
| `RunState.DefaultThreshold` | src/bot.rs:47-56 | The default state is stopped, and its threshold (`Important`) delivers exactly the `Critical` and `Important` messages. |
| `Chunking.Lines` | src/bot.rs:681 | The pieces of a string concatenate back to it. The empty string has no pieces. Each piece is non-empty with a newline at most at its end, and every piece but the last ends with a newline. |
| `Chunking.HardSplit` | src/bot.rs:698-717 | The character loop loses and reorders nothing: the emitted chunks followed by the final buffer spell the old chunks, the old buffer and the line. |
| `Chunking.HardSplitPieces` | src/bot.rs:698-717 | With a positive limit, the old chunks are kept. Every new chunk holds exactly `maxLen` characters, and the final buffer holds at most `maxLen` and is non-empty once a character was read. The character counts add up. |
| `Chunking.PackLine` | src/bot.rs:681-718 | One iteration of the outer loop keeps what was read: the chunks followed by the current chunk spell the input so far plus the line. |
| `Chunking.PackLines` | src/bot.rs:681-718 | The whole outer loop keeps the same invariant over all lines. |
| `Chunking.PackLinesWellSized` | src/bot.rs:684-717 | With a positive limit, the loop keeps every emitted chunk non-empty and within the limit, and the current chunk within the limit. |
| `Chunking.SplitMessageChunks` | src/bot.rs:672-725 | The chunks concatenate back to the message exactly. The empty message has no chunks. For a positive limit every chunk is non-empty and at most `maxLen` characters. |
| `Chunking.SingleLongLine` | src/bot.rs:684-724 | A message that is one line of L > `maxLen` characters gives ceil(L / `maxLen`) chunks, all but the last exactly `maxLen` long. |
| `Chunking.GreedyLinePacking` | src/bot.rs:684-697 | When every line fits the limit, each chunk is a run of consecutive whole lines and the runs are the lines in order. Each chunk but the last could not take the first line of the next chunk without exceeding the limit. |
| `Notification.SendChunks` | src/bot.rs:743-755 | The texts sent are the `<pre>`-wrapped chunks, in order. The result is `Ok` exactly when every chunk was sent and accepted. On `Err`, the last text sent is the first refused, nothing after it is sent, and the error is `"Telegram error: "` followed by the refusal. |
| `Notification.SendTelegramNotification` | src/bot.rs:727-759 | Nothing is sent and the result is `Ok` when the level filter rejects the message or the message is empty. Otherwise at least one text is sent, and the chunks of the message with the 4085-character limit are sent as `SendChunks` does. |
| `Notification.PayloadsFit` | src/bot.rs:736-744 | Every text given to the transport, wrapper included, is at most 4096 characters. |
| `Notification.DeliveredInFull` | src/bot.rs:735-755 | After a successful delivery of a message that passes the filter, the texts inside the wrappers spell the message exactly. |
| `Commands.RequestStatus` | src/bot.rs:94-102 | The status is returned exactly when the runner answered. With no runner the error is "Bot runner unavailable". When the reply slot is dropped the error is "Bot runner dropped status channel". |
| `Commands.HandleCommand` | src/bot.rs:117-196 | Every command sends exactly one reply. `startbot` leaves the run flag set and `stopbot` leaves it cleared; no other command touches it. Only a `notify` that names a level changes the threshold, to that level. The strategy details are untouched. A status request goes out exactly for `update`, and for `status` while running. |
| `Commands.NotifyKeyword` | src/bot.rs:165-187 | `notify` with a level's keyword in any letter case sets exactly that level and confirms it. |
| `Commands.NotifyOtherWord` | src/bot.rs:188-194 | `notify` with any other word leaves the state unchanged and replies with the usage hint. |
| `Commands.StatusWhileStopped` | src/bot.rs:140-162 | While stopped, the `status` reply does not depend on the runner, which is not asked. |
| `Supervisor.Launch` | src/bot.rs:476-659 | The `match` on the construction result, whose success arm is at src/bot.rs:480-505 and failure arm at src/bot.rs:647-659. A constructed strategy has its configuration path and interval recorded and is announced; the run flag is left as it was and the loop gets the strategy. A failed construction is reported, clears the run flag and starts no loop. Nothing is executed. |
| `Supervisor.RestartCycleReaders` | src/bot.rs:549-587 | The restart cycle sends the failure, the restart notice, clears the flag, sleeps 5 seconds, sets the flag and announces the restart, in that order. It leaves the flag set and executes nothing. |
| `Supervisor.Recover` | src/bot.rs:549-637 | After the restart cycle, the strategy is replaced exactly when reconstruction succeeds, followed by "re-initialized". Otherwise the failure is reported, the flag is cleared and the old strategy is kept. The loop never ends here. |
| `Supervisor.Step` | src/bot.rs:507-645 | The shared state after a step is what the loop's own logged writes make of it. The loop ends exactly on a closed queue or on a tick that finds the flag cleared. The strategy runs once exactly on a tick with the flag set. It is replaced exactly when that run failed and reconstruction succeeded. |
| `Supervisor.QuietEvents` | src/bot.rs:509-548 | A status request, whatever the run flag, is answered with the strategy's status and nothing else. A tick that finds the flag set and whose execution returns or times out does nothing but execute the strategy once. In both cases the loop itself sends no chat message, writes nothing and keeps its strategy. |
| `Supervisor.StoppedTick` | src/bot.rs:521-536 | A tick that finds the flag cleared sends "Trading bot has been stopped." once, executes nothing and ends the loop. |
| `Supervisor.FailedTick` | src/bot.rs:549-637 | A failed execution produces the messages and flag writes in the source's order. Re-initialisation then either replaces the strategy and records its details, or reports the failure, clears the flag and keeps the old strategy. The loop does not end. |
| `Supervisor.Run` | src/bot.rs:507-645 | Over a sequence of events the shared state follows the logged writes, the strategy runs at most once per event, and the loop can only have ended after some event. |
| `Supervisor.RunStopsAtEnd` | src/bot.rs:509-536 | The loop stops at the step that ends it: once a run of events has ended, any further events leave the run exactly as it was. |
| `Supervisor.ReinitFailureStopsAtNextTick` | src/bot.rs:620-636 | After a failed reconstruction the loop goes on with the old strategy. Its effects are exactly one answer with the old strategy's status per queued request, then the stop message at the next tick. Nothing is executed and the loop ends. |
| `Supervisor.RequestsThenStoppedTick` | src/bot.rs:509-536 | With the flag cleared, any number of status requests and then a tick leave the loop unchanged. Their effects are exactly one status answer per request followed by the stop message, and the loop ends. |
| `System.ProcessStep` | src/bot.rs:463-645 | The handler and the loop share the run state, and requests are queued only for a live loop. A command never starts or stops a loop. A command that asks a live loop for its status is queued and replies nothing yet; any other command replies at once. A loop event that cannot reach the loop does nothing; otherwise it is one loop step, after which the loop is gone exactly when the step ended it. A status request answers the oldest waiting command from the strategy. A step that ends the loop empties the queue, and every waiting command then replies that the reply slot was dropped, in queue order. Only a loop event can execute the strategy. |
| `System.ProcessRunAppend` | src/bot.rs:507-645 | Inputs are taken one at a time: running two sequences of inputs in turn is running their concatenation, with the effects in order. |
| `System.FailedBootNeverExecutes` | src/bot.rs:647-659 | After a failed start-up the flag is cleared, and no later sequence of commands or events, `startbot` included, ever executes the strategy. |
| `System.QuietTicks` | src/bot.rs:521-548 | Any number of ticks that succeed or time out on a running loop execute the strategy once each. The loop itself sends no chat message and writes nothing, so the process is left unchanged. |
| `System.StoppingTick` | src/bot.rs:521-536 | A tick that finds the flag cleared on a live loop ends it after "Trading bot has been stopped.", leaves the shared state as it was and executes nothing. The queue is emptied and every waiting command then replies that its reply slot was dropped, in queue order. |
| `System.StopAfterQuietTicks` | src/bot.rs:527-535 | Quiet ticks, then `stopbot`, then a tick: the loop is gone, the flag is cleared and the queue is empty. The chat sees "Trading bot stopped.", "Trading bot has been stopped." and then the dropped-channel reply of every command still waiting, and the strategy ran once per quiet tick only. |
| `System.StartRevivesOldStrategy` | src/bot.rs:589-636 | After a failed reconstruction, a `startbot` and then a successful tick run the old strategy again. The loop is alive with it, the flag is left set by `startbot` (no write of the loop clears it), and there were two executions. |
| `System.UpdateQueued` | src/bot.rs:209-226 | `update` queues a request to a live loop whatever the run flag, behind those already waiting, and replies nothing yet. With no loop it replies at once that the runner is unavailable. |
| `System.UpdateAnswers` | src/bot.rs:209-214 | `update`, then the loop taking the request: the chat sees "Current status:" and the live loop's status, even while stopped, and the process is as before. |
| `System.UpdateDroppedAtStop` | src/bot.rs:209-224 | `update` while the flag is cleared, and the loop takes a tick first: the loop ends, and after the stop message the update replies that the runner dropped the status channel. |
| `System.DroppedUpdate` | src/bot.rs:215-223 | An `update` whose request was dropped unanswered replies "Unable to retrieve status from running bot: Bot runner dropped status channel". |

## Left out

- The Telegram transport (`bot.send_message`, parse modes). Delivery is a function from the index of a send to `Accepted` or `Rejected(reason)`. The loop's own messages are logged as `Send` effects; their send failures are only printed by the source and change nothing, so they are not modelled. Every command reply is modelled as delivered too. In the source a failed reply makes `handle_command` return `Err` (`src/bot.rs:123-193`, `212-223`); each state write comes before its reply, so nothing but the reply is lost.
- Concurrency and time: the thread, the tokio runtime, `select!`, the mutex, the `mpsc`/`oneshot` channels, the 60-second timeout, the 5-second sleep and the interval timer. They appear as abstract events and as constants inside effects. Which event wins a `select!` race is the caller's choice of event order.
- Commands during a step: a loop step is atomic with respect to commands, which are handled only between whole steps. In the source the loop holds no lock while the strategy executes or while it sleeps (`src/bot.rs:538-546`, `572`). So a `stopbot` sent during an execution that then fails is overwritten by `is_running = true` at `src/bot.rs:574-577`. A `stopbot` sent during the 5-second sleep is answered "Bot is not running." and is then overwritten the same way. Either way the bot keeps running. The model cannot show this lost stop.
- What the strategy does through the handles it is given: `execute_strategy` receives the shared state, the bot and the chat id (`src/bot.rs:540-544`). Its own writes to the run state and its own chat messages are not modelled; an execution is one `ExecuteStrategy` effect that changes nothing. The claims that a step or tick "sends no message" or "writes nothing" are about the loop's own effects.
- Console output (`println!`, `eprintln!`) has no observable effect on the model.
- The `help` command and the symbol commands (`handle_add_symbol`, `handle_remove_symbol`, `handle_show_symbols`, `src/bot.rs:232-460`). They are file I/O, JSON and table rendering, outside the modelled core.
- src/traits.rs, src/error.rs and src/lib.rs: declarations, an error wrapper and re-exports with no logic. The strategy is an opaque value carrying its status text, configuration path and interval. Its status is treated as fixed for the lifetime of an instance.
- Levels.ParseLevel: lower-cases ASCII letters only, where Rust's `to_lowercase` is full Unicode. For these four keywords the decision is the same. The only non-ASCII characters that lower-case to ASCII letters are U+212A KELVIN SIGN (to `k`, which no keyword contains) and U+0130 (to two characters, `i` and a combining dot, which no keyword spells).
- Chunking.SplitMessageChunks: bounds chunk sizes only for a positive limit. With a limit of 0 the source emits empty chunks; the model computes the same chunks but states only that they concatenate back to the message. The caller always passes 4085.
- Lengths count Unicode scalar values (`chars().count()`). Telegram's own length rule (UTF-16 units, after HTML parsing) and HTML escaping of the chunk text are not modelled.
- The interval is a `u64` in the source and a `nat` here; no arithmetic is done on it. A zero interval, which makes `tokio::time::interval` panic, is not modelled.
- The request channel closing is an event. When it happens (every handler dropped) is outside the model. It reaches the loop only once no request is queued, as `recv` returns `None` only on an empty, closed queue.
