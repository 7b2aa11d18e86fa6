/**
 * Outbound notifications (`send_telegram_notification` in src/bot.rs):
 * filter by level, chunk the text, wrap each chunk in `<pre>…</pre>` and
 * send the chunks in order, stopping at the first failed send.
 */
module Notification {
  import Basics
  import opened Levels
  import opened Chunking

  /** The transport's limit on one message, in characters. */
  const TelegramMaxMessageLength: nat := 4096

  const PreOpen: string := "<pre>"
  const PreClose: string := "</pre>"

  /** Characters the monospace wrapper adds to a chunk. */
  const PreWrapOverhead: nat := |PreOpen + PreClose|

  /** `usize::saturating_sub`. */
  function SaturatingSub(a: nat, b: nat): nat
  {
    if a >= b then a - b else 0
  }

  /** The chunk limit: the transport limit less the wrapper, 4085 characters. */
  const MaxPayloadLen: nat := SaturatingSub(TelegramMaxMessageLength, PreWrapOverhead)

  /** The text sent for one chunk. */
  function Wrap(chunk: string): string
  {
    PreOpen + chunk + PreClose
  }

  /** The transport's answer to one send. */
  datatype SendReply = Accepted | Rejected(reason: string)

  /**
   * The outcome of one delivery: the texts handed to the transport, in
   * order, and whether the delivery as a whole succeeded.
   */
  datatype Delivery = Delivery(attempted: seq<string>, result: Basics.Result<(), string>)

  /** Every transport reply up to (not including) `n` accepted its send. */
  ghost predicate AcceptedBefore(transport: nat -> SendReply, n: nat)
  {
    forall i: nat :: i < n ==> transport(i).Accepted?
  }

  /** Accepting the first `n + 1` sends is accepting the first, then `n` more. */
  lemma AcceptedShift(transport: nat -> SendReply, later: nat -> SendReply, n: nat)
    requires forall i: nat :: later(i) == transport(i + 1)
    ensures AcceptedBefore(transport, n + 1) <==> transport(0).Accepted? && AcceptedBefore(later, n)
  {
    if transport(0).Accepted? && AcceptedBefore(later, n) {
      forall i: nat | i < n + 1
        ensures transport(i).Accepted?
      {
        if i > 0 { assert later(i - 1) == transport(i); }
      }
    }
  }

  /**
   * The send loop. `transport(i)` is the reply to the `i`-th send. The
   * texts sent are the wrapped chunks, in order; the delivery succeeds
   * exactly when every chunk was sent and accepted; otherwise the last text
   * sent is the first one refused, and nothing after it is sent.
   */
  function SendChunks(chunks: seq<string>, transport: nat -> SendReply): (d: Delivery)
    ensures |d.attempted| <= |chunks|
    ensures forall i :: 0 <= i < |d.attempted| ==> d.attempted[i] == Wrap(chunks[i])
    ensures d.result.Ok? <==> |d.attempted| == |chunks| && AcceptedBefore(transport, |chunks|)
    ensures d.result.Err? ==>
      && |d.attempted| > 0
      && AcceptedBefore(transport, |d.attempted| - 1)
      && transport(|d.attempted| - 1).Rejected?
      && d.result.error == "Telegram error: " + transport(|d.attempted| - 1).reason
    decreases |chunks|
  {
    if |chunks| == 0 then Delivery([], Basics.Ok(()))
    else
      match transport(0)
      case Rejected(reason) => Delivery([Wrap(chunks[0])], Basics.Err("Telegram error: " + reason))
      case Accepted =>
        var later := (i: nat) => transport(i + 1);
        var rest := SendChunks(chunks[1..], later);
        AcceptedShift(transport, later, |chunks| - 1);
        AcceptedShift(transport, later, |rest.attempted|);
        AcceptedShift(transport, later, if rest.attempted != [] then |rest.attempted| - 1 else 0);
        Delivery([Wrap(chunks[0])] + rest.attempted, rest.result)
  }

  /**
   * `send_telegram_notification`: nothing is sent and the result is success
   * when the level filter rejects the message or the message is empty;
   * otherwise the chunks of the message are sent as `SendChunks` does.
   */
  function SendTelegramNotification(level: NotificationLevel, currentLevel: NotificationLevel,
                                    message: string, transport: nat -> SendReply): (d: Delivery)
    ensures !LevelIsSufficient(level, currentLevel) || message == [] ==> d == Delivery([], Basics.Ok(()))
    ensures LevelIsSufficient(level, currentLevel) && message != [] ==>
      d == SendChunks(SplitMessageChunks(message, MaxPayloadLen), transport) && d.attempted != []
  {
    if LevelIsSufficient(level, currentLevel) then
      var chunks := SplitMessageChunks(message, MaxPayloadLen);
      if |chunks| == 0 then Delivery([], Basics.Ok(()))
      else SendChunks(chunks, transport)
    else Delivery([], Basics.Ok(()))
  }

  /** Every text handed to the transport fits its limit. */
  lemma PayloadsFit(level: NotificationLevel, currentLevel: NotificationLevel,
                    message: string, transport: nat -> SendReply)
    ensures var d := SendTelegramNotification(level, currentLevel, message, transport);
      forall i :: 0 <= i < |d.attempted| ==> |d.attempted[i]| <= TelegramMaxMessageLength
  {
  }

  /**
   * A successful delivery of a message that passes the filter sends every
   * chunk, and the chunks inside the wrappers spell the message exactly.
   */
  lemma DeliveredInFull(level: NotificationLevel, currentLevel: NotificationLevel,
                        message: string, transport: nat -> SendReply)
    requires LevelIsSufficient(level, currentLevel)
    requires SendTelegramNotification(level, currentLevel, message, transport).result.Ok?
    ensures var d := SendTelegramNotification(level, currentLevel, message, transport);
      exists chunks: seq<string> ::
        && |chunks| == |d.attempted|
        && (forall i :: 0 <= i < |chunks| ==> d.attempted[i] == Wrap(chunks[i]))
        && Flatten(chunks) == message
  {
  }
}
