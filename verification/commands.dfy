/**
 * The control commands that touch the run state (`handle_command` in
 * src/bot.rs) and the status request they send to the supervisor
 * (`request_status`).
 */
module Commands {
  import Basics
  import opened Levels
  import opened RunState

  /** The commands modelled here; `arg` is the text after `notify`. */
  datatype Command = StartBot | StopBot | Status | Notify(arg: string) | Update

  /**
   * What happens to a status request: no supervisor holds the receiving
   * end of the request queue, the supervisor dropped the reply slot without
   * answering, or it answered with its strategy's status.
   */
  datatype StatusChannel = NoRunner | ReplyDropped | Answered(status: string)

  /** `request_status`: the status string, or the reason it is unavailable. */
  function RequestStatus(channel: StatusChannel): (r: Basics.Result<string, string>)
    ensures r.Ok? <==> channel.Answered?
    ensures r.Ok? ==> r.value == channel.status
    ensures channel.NoRunner? ==> r == Basics.Err("Bot runner unavailable")
    ensures channel.ReplyDropped? ==> r == Basics.Err("Bot runner dropped status channel")
  {
    match channel
    case NoRunner => Basics.Err("Bot runner unavailable")
    case ReplyDropped => Basics.Err("Bot runner dropped status channel")
    case Answered(status) => Basics.Ok(status)
  }

  /**
   * The result of one command: the new run state, the replies sent to the
   * chat (in order), and whether a status request was sent.
   */
  datatype Handled = Handled(state: BotState, replies: seq<string>, statusRequested: bool)

  /** The reply to `notify` for a level it was set to. */
  function LevelSetReply(level: NotificationLevel): string
  {
    match level
    case All => "Notification level set to All"
    case Important => "Notification level set to Important"
    case Critical => "Notification level set to Critical"
    case None => "Notifications disabled"
  }

  const InvalidLevelReply: string := "Invalid level. Use: all, important, critical, or none"

  /** The reply to `status` while running, given the outcome of the status request. */
  function RunningStatusReply(level: NotificationLevel, status: Basics.Result<string, string>): string
  {
    match status
    case Ok(text) => "Bot is running.\nNotification level: " + DebugName(level) + "\n\n" + text
    case Err(err) => "Bot is running, but failed to retrieve status: " + err
  }

  /** The reply to `status` while stopped. */
  function StoppedStatusReply(level: NotificationLevel): string
  {
    "Bot is stopped.\nNotification level: " + DebugName(level)
  }

  /**
   * One command. `channel` says how a status request would fare if the
   * command sent one. Every command sends exactly one reply; only `startbot`
   * and `stopbot` touch the run flag (and leave it on and off); only a `notify`
   * whose argument names a level, in any letter case, changes the
   * threshold; nothing touches the recorded strategy details; a status
   * request goes out for `update`, and for `status` only while running.
   */
  function HandleCommand(state: BotState, cmd: Command, channel: StatusChannel): (h: Handled)
    ensures |h.replies| == 1
    ensures h.state.isRunning == (if cmd.StartBot? then true else if cmd.StopBot? then false else state.isRunning)
    ensures cmd.Notify? && ParseLevel(cmd.arg).Some? ==> h.state.notificationLevel == ParseLevel(cmd.arg).value
    ensures !(cmd.Notify? && ParseLevel(cmd.arg).Some?) ==> h.state.notificationLevel == state.notificationLevel
    ensures h.state.configPath == state.configPath && h.state.intervalSeconds == state.intervalSeconds
    ensures h.statusRequested <==> cmd.Update? || (cmd.Status? && state.isRunning)
  {
    match cmd
    case StartBot =>
      if !state.isRunning then Handled(state.(isRunning := true), ["Trading bot started!"], false)
      else Handled(state, ["Bot is already running."], false)
    case StopBot =>
      if state.isRunning then Handled(state.(isRunning := false), ["Trading bot stopped."], false)
      else Handled(state, ["Bot is not running."], false)
    case Status =>
      if state.isRunning then
        Handled(state, [RunningStatusReply(state.notificationLevel, RequestStatus(channel))], true)
      else
        Handled(state, [StoppedStatusReply(state.notificationLevel)], false)
    case Notify(arg) =>
      (match ParseLevel(arg)
       case Some(level) => Handled(state.(notificationLevel := level), [LevelSetReply(level)], false)
       case None => Handled(state, [InvalidLevelReply], false))
    case Update =>
      match RequestStatus(channel)
      case Ok(text) => Handled(state, ["Current status:\n" + text], true)
      case Err(err) => Handled(state, ["Unable to retrieve status from running bot: " + err], true)
  }

  /** `notify` with a level's keyword, whatever its letter case, sets that level. */
  lemma NotifyKeyword(state: BotState, arg: string, level: NotificationLevel, channel: StatusChannel)
    requires AsciiLower(arg) == Keyword(level)
    ensures HandleCommand(state, Notify(arg), channel).state == state.(notificationLevel := level)
    ensures HandleCommand(state, Notify(arg), channel).replies == [LevelSetReply(level)]
  {
  }

  /** `notify` with any other word leaves the state as it was. */
  lemma NotifyOtherWord(state: BotState, arg: string, channel: StatusChannel)
    requires forall level :: AsciiLower(arg) != Keyword(level)
    ensures HandleCommand(state, Notify(arg), channel).state == state
    ensures HandleCommand(state, Notify(arg), channel).replies == [InvalidLevelReply]
  {
  }

  /** A stopped bot answers `status` from the run state alone, whatever the channel. */
  lemma StatusWhileStopped(state: BotState, channel: StatusChannel, other: StatusChannel)
    requires !state.isRunning
    ensures HandleCommand(state, Status, channel) == HandleCommand(state, Status, other)
  {
  }
}
