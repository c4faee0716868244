/** The alert warnings (`getWarnings`) and the staleness rule (`isStale`).
    The clock is a parameter `now`, and the `Date` constructor is an abstract
    function `dateMs` from a calendar date to its time value in milliseconds. */
module Alerts {
  import opened Text
  import opened EntryDate

  const RadarWarning := "⚠️ RADAR STOCK - Review before acting"
  const PausedWarning := "\U{1F6D1} ENTRY PAUSED"
  const StaleWarning := "⏰ STALE ANALYSIS - Refresh before acting"

  /** Milliseconds in a day. */
  const MsPerDay: int := 1000 * 60 * 60 * 24

  /** `isStale`: the age in days, a real quotient, is more than seven. For
      whole milliseconds this is the same as an age of more than seven days'
      worth of milliseconds. */
  function IsStale(now: int, entryMs: int): (r: bool)
    ensures r <==> now - entryMs > 7 * MsPerDay
  {
    (now - entryMs) as real / MsPerDay as real > 7.0
  }

  /** Staleness is strict and grows with time: exactly seven days is not
      stale, one millisecond more is, a date in the future never is, and a
      stale date stays stale later on and for every earlier date. */
  lemma StalenessIsStrict(now: int, entryMs: int)
    ensures !IsStale(entryMs + 7 * MsPerDay, entryMs)
    ensures IsStale(entryMs + 7 * MsPerDay + 1, entryMs)
    ensures entryMs >= now ==> !IsStale(now, entryMs)
    ensures IsStale(now, entryMs) ==>
      forall later, earlier :: later >= now && earlier <= entryMs ==> IsStale(later, earlier)
  {
  }

  /** The entry-condition text asks not to enter (case-sensitive). */
  predicate IsPaused(entryConditions: string)
  {
    Contains(entryConditions, "PAUSED") || Contains(entryConditions, "DO NOT ENTER")
  }

  /** The paused test is case-sensitive: lower-case wording does not count. */
  lemma PausedIsCaseSensitive()
    ensures IsPaused("PAUSED") && IsPaused("DO NOT ENTER")
    ensures !IsPaused("paused") && !IsPaused("do not enter")
  {
    assert "PAUSED" <= "PAUSED"[0..];
    assert "DO NOT ENTER" <= "DO NOT ENTER"[0..];
    LowerCaseHasNoCapital("paused", "PAUSED");
    LowerCaseHasNoCapital("paused", "DO NOT ENTER");
    LowerCaseHasNoCapital("do not enter", "PAUSED");
    LowerCaseHasNoCapital("do not enter", "DO NOT ENTER");
  }

  /** Text without capital letters does not contain a word starting with one. */
  lemma LowerCaseHasNoCapital(s: string, t: string)
    requires |t| > 0 && IsAsciiUpper(t[0])
    requires forall k :: 0 <= k < |s| ==> !IsAsciiUpper(s[k])
    ensures !Contains(s, t)
  {
    forall i | 0 <= i <= |s| ensures !(t <= s[i..]) {
      if i < |s| {
        assert s[i..][0] == s[i];
      }
    }
  }

  /** The stale test on the entry date as intended: a parsed entry date older
      than seven days. */
  predicate EntryStale(entryConditions: string, now: int, dateMs: CalendarDate -> int)
  {
    match ParseEntryDateStrict(entryConditions)
    case None => false
    case Some(d) => IsStale(now, dateMs(d))
  }

  /** The stale test as written: `entryDate && isStale(entryDate)`. An invalid
      `Date` is truthy, but its time value is NaN and the comparison with NaN
      is false. */
  predicate EntryStaleAsWritten(entryConditions: string, now: int, dateMs: CalendarDate -> int)
  {
    match ParseEntryDate(entryConditions)
    case NoDate => false
    case InvalidDate => false
    case ValidDate(d) => IsStale(now, dateMs(d))
  }

  /** The inherited month keys never change the warnings: the invalid date
      they produce is never stale. */
  lemma StaleTestUnaffected(entryConditions: string, now: int, dateMs: CalendarDate -> int)
    ensures EntryStaleAsWritten(entryConditions, now, dateMs) == EntryStale(entryConditions, now, dateMs)
  {
    ParseEntryDateAgrees(entryConditions);
  }

  /** The three warnings `getWarnings` can emit. */
  datatype Warning = Radar | Paused | Stale

  /** The text of each warning. */
  function Message(w: Warning): (m: string)
    ensures |m| > 0
    ensures w == Radar <==> m == RadarWarning
    ensures w == Paused <==> m == PausedWarning
    ensures w == Stale <==> m == StaleWarning
  {
    WarningsDistinct();
    match w
    case Radar => RadarWarning
    case Paused => PausedWarning
    case Stale => StaleWarning
  }

  lemma WarningsDistinct()
    ensures RadarWarning != PausedWarning && RadarWarning != StaleWarning && PausedWarning != StaleWarning
  {
    assert RadarWarning[0] != PausedWarning[0];
    assert RadarWarning[0] != StaleWarning[0];
    assert PausedWarning[0] != StaleWarning[0];
  }

  /** The texts of a list of warnings, in order. */
  function Messages(ws: seq<Warning>): (ms: seq<string>)
    ensures |ms| == |ws|
    ensures forall i :: 0 <= i < |ws| ==> ms[i] == Message(ws[i])
  {
    seq(|ws|, i requires 0 <= i < |ws| => Message(ws[i]))
  }

  /** The warnings selected by the three conditions, pushed in the order
      Radar, paused, stale. */
  function WarningList(radar: bool, paused: bool, stale: bool): (ws: seq<Warning>)
    ensures |ws| <= 3
  {
    PushIf(PushIf(PushIf([], radar, Radar), paused, Paused), stale, Stale)
  }

  /** Each warning is present exactly when its condition holds, and the
      warnings come in the order Radar, paused, stale without repetition. */
  lemma WarningListContents(radar: bool, paused: bool, stale: bool)
    ensures var ws := WarningList(radar, paused, stale);
      (Radar in ws <==> radar) && (Paused in ws <==> paused) && (Stale in ws <==> stale) &&
      (forall i, j :: 0 <= i < j < |ws| ==> Rank(ws[i]) < Rank(ws[j]))
  {
    var ws := WarningList(radar, paused, stale);
    var full := [Radar, Paused, Stale];
    if radar && paused && stale { assert ws == full; }
  }

  /** The warnings `getWarnings` returns. */
  function Warnings(tier: string, entryConditions: string, now: int, dateMs: CalendarDate -> int)
    : (ws: seq<Warning>)
    ensures |ws| <= 3
  {
    WarningList(tier == "Radar", IsPaused(entryConditions), EntryStale(entryConditions, now, dateMs))
  }

  /** Position of a warning in the fixed order Radar, paused, stale. */
  function Rank(w: Warning): (r: nat)
    ensures r < 3
  {
    match w
    case Radar => 0
    case Paused => 1
    case Stale => 2
  }

  /** The warnings are an ordered selection of Radar, paused and stale: each
      is present exactly when its condition holds, and they come in that
      order without repetition. */
  lemma WarningsContents(tier: string, entryConditions: string, now: int, dateMs: CalendarDate -> int)
    ensures var ws := Warnings(tier, entryConditions, now, dateMs);
      (Radar in ws <==> tier == "Radar") &&
      (Paused in ws <==> IsPaused(entryConditions)) &&
      (Stale in ws <==> EntryStale(entryConditions, now, dateMs)) &&
      (forall i, j :: 0 <= i < j < |ws| ==> Rank(ws[i]) < Rank(ws[j]))
  {
    WarningListContents(tier == "Radar", IsPaused(entryConditions), EntryStale(entryConditions, now, dateMs));
  }

  /** Appending a warning appends its text. */
  lemma MessagesAppend(ws: seq<Warning>, w: Warning)
    ensures Messages(ws + [w]) == Messages(ws) + [Message(w)]
  {
    assert |Messages(ws + [w])| == |Messages(ws) + [Message(w)]|;
    forall i | 0 <= i <= |ws| ensures Messages(ws + [w])[i] == (Messages(ws) + [Message(w)])[i] {
      if i < |ws| {
        assert (ws + [w])[i] == ws[i];
      }
    }
  }

  /** `getWarnings`: pushes the text of each warning whose condition holds
      onto an initially empty list. */
  method GetWarnings(tier: string, entryConditions: string, now: int, dateMs: CalendarDate -> int)
    returns (warnings: seq<string>)
    ensures warnings == Messages(Warnings(tier, entryConditions, now, dateMs))
  {
    var radar := tier == "Radar";
    var paused := IsPaused(entryConditions);
    var entryDate := ParseEntryDateStrict(entryConditions);
    var stale := entryDate.Some? && IsStale(now, dateMs(entryDate.value));
    ghost var pushed: seq<Warning> := [];
    warnings := [];
    assert warnings == Messages(pushed);
    if radar {
      MessagesAppend(pushed, Radar);
      warnings, pushed := warnings + [Message(Radar)], pushed + [Radar];
    }
    if paused {
      MessagesAppend(pushed, Paused);
      warnings, pushed := warnings + [Message(Paused)], pushed + [Paused];
    }
    if stale {
      MessagesAppend(pushed, Stale);
      warnings, pushed := warnings + [Message(Stale)], pushed + [Stale];
    }
  }
}
