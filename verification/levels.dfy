/**
 * Notification levels: the verbosity a message carries and the threshold a
 * chat is configured with, the filter between the two, and the parsing of
 * the argument of the `notify` command.
 */
module Levels {
  import Basics

  /** The four levels of `NotificationLevel` in src/bot.rs. */
  datatype NotificationLevel = All | Important | Critical | None

  /** Position of a level in the order All < Important < Critical < None. */
  function Rank(level: NotificationLevel): nat
  {
    match level
    case All => 0
    case Important => 1
    case Critical => 2
    case None => 3
  }

  /**
   * Whether a message of level `msgLevel` reaches a chat whose threshold is
   * `currentLevel`. For a real message severity (anything but `None`) this
   * is "at least as severe as the threshold", with `None` as a threshold
   * that nothing reaches; a message tagged `None` passes only the `All`
   * threshold.
   */
  function LevelIsSufficient(msgLevel: NotificationLevel, currentLevel: NotificationLevel): (ok: bool)
    ensures msgLevel != None ==> (ok <==> currentLevel != None && Rank(msgLevel) >= Rank(currentLevel))
    ensures msgLevel == None ==> (ok <==> currentLevel == All)
  {
    match currentLevel
    case None => false
    case Critical => msgLevel == Critical
    case Important => msgLevel == Critical || msgLevel == Important
    case All => true
  }

  /** Raising the threshold never lets more messages through. */
  lemma ThresholdMonotone(msgLevel: NotificationLevel, lower: NotificationLevel, higher: NotificationLevel)
    requires Rank(lower) <= Rank(higher)
    requires LevelIsSufficient(msgLevel, higher)
    ensures LevelIsSufficient(msgLevel, lower)
  {
  }

  /** The lower-case word the `notify` command accepts for each level. */
  function Keyword(level: NotificationLevel): string
  {
    match level
    case All => "all"
    case Important => "important"
    case Critical => "critical"
    case None => "none"
  }

  /** The `{:?}` rendering of a level, as used in status replies. */
  function DebugName(level: NotificationLevel): string
  {
    match level
    case All => "All"
    case Important => "Important"
    case Critical => "Critical"
    case None => "None"
  }

  /** ASCII lower-casing of one character. */
  function LowerChar(c: char): char
  {
    if 'A' <= c <= 'Z' then ((c as int) + 32) as char else c
  }

  /** ASCII lower-casing of a string, character by character. */
  function AsciiLower(s: string): (t: string)
    ensures |t| == |s|
    ensures forall i :: 0 <= i < |s| ==> t[i] == LowerChar(s[i])
  {
    seq(|s|, i requires 0 <= i < |s| => LowerChar(s[i]))
  }

  /**
   * The level named by the argument of `notify`, compared after
   * lower-casing; `None` (of `Option`) for any other word.
   */
  function ParseLevel(arg: string): (r: Basics.Option<NotificationLevel>)
    ensures r.Some? ==> AsciiLower(arg) == Keyword(r.value)
    ensures r.None? ==> forall level :: AsciiLower(arg) != Keyword(level)
  {
    var word := AsciiLower(arg);
    if word == "all" then Basics.Some(All)
    else if word == "important" then Basics.Some(Important)
    else if word == "critical" then Basics.Some(Critical)
    else if word == "none" then Basics.Some(None)
    else Basics.None
  }

  /** No two levels share a keyword, so parsing a keyword gives back its level. */
  lemma KeywordRoundTrip(level: NotificationLevel)
    ensures ParseLevel(Keyword(level)) == Basics.Some(level)
  {
  }

  /** Parsing ignores the case of ASCII letters. */
  lemma ParseIgnoresCase(a: string, b: string)
    requires |a| == |b|
    requires forall i :: 0 <= i < |a| ==> LowerChar(a[i]) == LowerChar(b[i])
    ensures ParseLevel(a) == ParseLevel(b)
  {
    assert AsciiLower(a) == AsciiLower(b);
  }
}
