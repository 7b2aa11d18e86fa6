/** The run state shared by the command handler and the supervisor loop. */
module RunState {
  import Basics
  import opened Levels

  /**
   * `BotState` of src/bot.rs: the stop/run flag, the chat's notification
   * threshold, and what the last (re)initialised strategy declared.
   * The interval is a `u64` in the source; nothing here does arithmetic on it.
   */
  datatype BotState = BotState(
    isRunning: bool,
    notificationLevel: NotificationLevel,
    configPath: Basics.Option<string>,
    intervalSeconds: Basics.Option<nat>)

  /** `BotState::default()`: stopped, `Important`, nothing recorded. */
  function DefaultState(): BotState
  {
    BotState(false, Important, Basics.None, Basics.None)
  }

  /** With the default threshold exactly the `Critical` and `Important` messages are delivered. */
  lemma DefaultThreshold(msgLevel: NotificationLevel)
    ensures !DefaultState().isRunning
    ensures LevelIsSufficient(msgLevel, DefaultState().notificationLevel) <==> msgLevel == Critical || msgLevel == Important
  {
  }
}
