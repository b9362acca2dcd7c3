/** src/utils.ts: the time formatter and the repeat-mode distance. */
module Utils {
  import opened Wrappers
  import opened Decimal

  // ---------------------------------------------------------------------------
  // formatTime

  /** `formatTime`: whole seconds as "M:SS" below an hour and "H:MM:SS" from an
      hour on; zero is "0:00". */
  function FormatTime(seconds: nat): (t: string)
    ensures 4 <= |t| && t[|t| - 3] == ':'
  {
    if seconds == 0 then "0:00"
    else
      var hrs := seconds / 3600;
      var mins := (seconds % 3600) / 60;
      var secs := seconds % 60;
      var hrsStr := if hrs > 0 then NatToString(hrs) + ":" else "";
      var minsStr := if hrs > 0 then PadStart2(NatToString(mins)) + ":" else NatToString(mins) + ":";
      var secsStr := PadStart2(NatToString(secs));
      hrsStr + minsStr + secsStr
  }

  /** Reads a display string of the shape "M:SS" or "H:MM:SS" back into a number
      of seconds; any other shape is None. The inverse of FormatTime. */
  function ParseTime(t: string): Option<nat> {
    if |t| < 4 || t[|t| - 3] != ':' || !AllDigits(t[|t| - 2..]) then None
    else
      var secs := DecimalValue(t[|t| - 2..]);
      var head := t[..|t| - 3];
      if |head| >= 4 && head[|head| - 3] == ':' then
        var hh, mm := head[..|head| - 3], head[|head| - 2..];
        if AllDigits(hh) && AllDigits(mm) then Some(DecimalValue(hh) * 3600 + DecimalValue(mm) * 60 + secs)
        else None
      else if AllDigits(head) then Some(DecimalValue(head) * 60 + secs)
      else None
  }

  /** Zero is shown as "0:00". */
  lemma FormatTimeZero()
    ensures FormatTime(0) == "0:00"
  {
  }

  lemma ZeroShape()
    ensures FormatTime(0) == NatToString(0) + ":" + TwoDigits(0)
  {
    assert NatToString(0) == "0";
    assert TwoDigits(0) == "00";
  }

  /** Below an hour the display is the minutes, a colon, and the seconds as exactly
      two digits. */
  lemma {:induction false} FormatTimeMinutes(seconds: nat)
    requires seconds < 3600
    ensures FormatTime(seconds) == NatToString(seconds / 60) + ":" + TwoDigits(seconds % 60)
  {
    if seconds == 0 {
      ZeroShape();
    } else {
      UnderAnHour(seconds);
      PaddedIsTwoDigits(seconds % 60);
    }
  }

  lemma UnderAnHour(seconds: nat)
    requires 0 < seconds < 3600
    ensures FormatTime(seconds) == NatToString(seconds / 60) + ":" + PadStart2(NatToString(seconds % 60))
  {
    var hrs, mins := seconds / 3600, seconds % 3600 / 60;
    assert hrs == 0 && mins == seconds / 60;
  }

  /** From an hour on the display is the hours, then the minutes within the hour
      and the seconds within the minute, each as exactly two digits. */
  lemma {:induction false} FormatTimeHours(seconds: nat)
    requires seconds >= 3600
    ensures FormatTime(seconds)
         == NatToString(seconds / 3600) + ":" + TwoDigits(seconds % 3600 / 60) + ":" + TwoDigits(seconds % 60)
  {
    FromAnHour(seconds);
    PaddedIsTwoDigits(seconds % 3600 / 60);
    PaddedIsTwoDigits(seconds % 60);
  }

  lemma FromAnHour(seconds: nat)
    requires seconds >= 3600
    ensures FormatTime(seconds)
         == NatToString(seconds / 3600) + ":" + PadStart2(NatToString(seconds % 3600 / 60)) + ":"
            + PadStart2(NatToString(seconds % 60))
  {
    assert seconds / 3600 > 0;
  }

  /** Whatever the input, the display ends in a colon and two digits that are the
      seconds within the minute. */
  lemma {:induction false} FormatTimeSecondsField(seconds: nat)
    ensures var t := FormatTime(seconds);
            |t| >= 4 && t[|t| - 3] == ':' && t[|t| - 2..] == TwoDigits(seconds % 60)
  {
    if seconds < 3600 {
      FormatTimeMinutes(seconds);
    } else {
      FormatTimeHours(seconds);
    }
  }

  lemma FormatTimeExamples()
    ensures FormatTime(65) == "1:05"
    ensures FormatTime(3661) == "1:01:01"
  {
    FormatTimeMinutes(65);
    FormatTimeHours(3661);
  }

  lemma SplitSeconds(seconds: nat)
    ensures seconds == seconds / 3600 * 3600 + seconds % 3600 / 60 * 60 + seconds % 60
  {
    var q, r := seconds / 3600, seconds % 3600;
    assert seconds == q * 3600 + r;
    assert r == r / 60 * 60 + r % 60;
    assert seconds % 60 == r % 60 by {
      assert seconds == (q * 60 + r / 60) * 60 + r % 60;
    }
  }

  lemma {:induction false} ParseMinutesShape(m: nat, sec: nat)
    requires m < 60 && sec < 60
    ensures ParseTime(NatToString(m) + ":" + TwoDigits(sec)) == Some(m * 60 + sec)
  {
    var t, mm, ss := NatToString(m) + ":" + TwoDigits(sec), NatToString(m), TwoDigits(sec);
    assert t[|t| - 3] == ':' && t[|t| - 2..] == ss && t[..|t| - 3] == mm;
    DecimalRoundTrip(m);
  }

  lemma {:induction false} ParseHoursShape(h: nat, m: nat, sec: nat)
    requires m < 60 && sec < 60
    ensures ParseTime(NatToString(h) + ":" + TwoDigits(m) + ":" + TwoDigits(sec)) == Some(h * 3600 + m * 60 + sec)
  {
    var hh, mm, ss := NatToString(h), TwoDigits(m), TwoDigits(sec);
    var t := hh + ":" + mm + ":" + ss;
    assert t == (hh + ":" + mm) + ":" + ss;
    assert t[|t| - 3] == ':' && t[|t| - 2..] == ss;
    var head := t[..|t| - 3];
    assert head == hh + ":" + mm;
    assert head[|head| - 3] == ':' && head[..|head| - 3] == hh && head[|head| - 2..] == mm;
    DecimalRoundTrip(h);
  }

  /** The display determines the number of seconds: reading it back gives the
      number that was formatted. */
  lemma {:induction false} FormatTimeRoundTrip(seconds: nat)
    ensures ParseTime(FormatTime(seconds)) == Some(seconds)
  {
    if seconds < 3600 {
      var m, sec := seconds / 60, seconds % 60;
      FormatTimeMinutes(seconds);
      ParseMinutesShape(m, sec);
      assert m * 60 + sec == seconds;
    } else {
      var h, m, sec := seconds / 3600, seconds % 3600 / 60, seconds % 60;
      FormatTimeHours(seconds);
      ParseHoursShape(h, m, sec);
      SplitSeconds(seconds);
      assert h * 3600 + m * 60 + sec == seconds;
    }
  }

  /** Different numbers of seconds are never shown the same way. */
  lemma FormatTimeInjective(a: nat, b: nat)
    requires FormatTime(a) == FormatTime(b)
    ensures a == b
  {
    FormatTimeRoundTrip(a);
    FormatTimeRoundTrip(b);
  }

  // ---------------------------------------------------------------------------
  // calculateRepeatIterations

  /** `REPEAT_MODES`: each repeat mode's position in the player's cycle. */
  const RepeatModes: map<string, nat> := map["NONE" := 0, "ALL" := 1, "ONE" := 2]

  /** `REPEAT_MODES_BY_INDEX`: the cycle itself. */
  const RepeatModesByIndex: seq<string> := ["NONE", "ALL", "ONE"]

  const ModeCount: nat := |RepeatModesByIndex|

  /** The drop-down value that asks to step once through the cycle (the
      adapter's own spelling). */
  const Iterate: string := "ITTERATE"

  /** The two tables agree: the name at index i has index i. */
  lemma RepeatTablesAgree()
    ensures ModeCount == 3
    ensures RepeatModes.Keys == set i | 0 <= i < ModeCount :: RepeatModesByIndex[i]
    ensures forall i :: 0 <= i < ModeCount ==> RepeatModes[RepeatModesByIndex[i]] == i
  {
    assert RepeatModesByIndex[0] == "NONE" && RepeatModesByIndex[1] == "ALL" && RepeatModesByIndex[2] == "ONE";
  }

  /** What the player answers when asked for its current repeat mode. */
  datatype ModeResponse =
    | NotOk(status: int)                 // a response outside the 2xx range
    | Received(mode: Option<string>)     // the `mode` member of the JSON body, if any

  datatype RepeatError =
    | FetchFailed(status: int)   // "Failed to get repeat mode"
    | InvalidMode                // "Invalid repeat mode"

  predicate KnownMode(current: ModeResponse) {
    current.Received? && current.mode.Some? && current.mode.value in RepeatModes
  }

  /** `calculateRepeatIterations`: how many forward steps through the cycle take
      the player from its current mode to `targetMode`. The player is only asked
      for its mode (`current`) when the target is not the step-once value. */
  function CalculateRepeatIterations(targetMode: string, current: ModeResponse): (r: Result<nat, RepeatError>)
    ensures targetMode == Iterate ==> r == Ok(1)
    ensures targetMode != Iterate && current.NotOk? ==> r == Err(FetchFailed(current.status))
    ensures targetMode != Iterate && current.Received? ==>
              (r.Err? <==> !KnownMode(current) || targetMode !in RepeatModes)
    ensures targetMode != Iterate && current.Received? && r.Err? ==> r == Err(InvalidMode)
    ensures r.Err? ==> targetMode != Iterate
    ensures r.Ok? ==> r.value < 3
    ensures r.Ok? && targetMode != Iterate ==>
              KnownMode(current) && targetMode in RepeatModes &&
              (RepeatModes[current.mode.value] + r.value) % 3 == RepeatModes[targetMode]
  {
    if targetMode == Iterate then Ok(1)
    else match current
      case NotOk(status) => Err(FetchFailed(status))
      case Received(mode) =>
        if mode.None? || mode.value !in RepeatModes || targetMode !in RepeatModes then Err(InvalidMode)
        else
          var currentIndex, targetIndex := RepeatModes[mode.value], RepeatModes[targetMode];
          // the dividend lies in 1..5, so JavaScript's % and Dafny's % agree here
          Ok((targetIndex - currentIndex + ModeCount) % ModeCount)
  }

  /** One press of the player's repeat control: NONE, then ALL, then ONE, then NONE again. */
  function NextMode(mode: string): string
    requires mode in RepeatModes
  {
    if mode == "NONE" then "ALL" else if mode == "ALL" then "ONE" else "NONE"
  }

  /** The mode after `steps` presses. */
  function AdvanceMode(mode: string, steps: nat): (r: string)
    requires mode in RepeatModes
    ensures r in RepeatModes
    decreases steps
  {
    if steps == 0 then mode else AdvanceMode(NextMode(mode), steps - 1)
  }

  /** The step count sent to the player is the fewest presses that bring its
      current mode to the target: that many presses reach it, and no fewer do. */
  lemma {:induction false} RepeatIterationsReachTarget(targetMode: string, current: ModeResponse)
    requires targetMode != Iterate
    requires CalculateRepeatIterations(targetMode, current).Ok?
    ensures var k := CalculateRepeatIterations(targetMode, current).value;
            var m := current.mode.value;
            && AdvanceMode(m, k) == targetMode
            && forall j :: 0 <= j < k ==> AdvanceMode(m, j) != targetMode
  {
    var m := current.mode.value;
    var k := CalculateRepeatIterations(targetMode, current).value;
    assert AdvanceMode(m, 0) == m;
    assert AdvanceMode(m, 1) == NextMode(m) by {
      assert AdvanceMode(NextMode(m), 0) == NextMode(m);
    }
    assert AdvanceMode(m, 2) == NextMode(NextMode(m)) by {
      assert AdvanceMode(m, 2) == AdvanceMode(NextMode(m), 1);
      assert AdvanceMode(NextMode(NextMode(m)), 0) == NextMode(NextMode(m));
    }
  }

  /** Asking for the step-once value never depends on the player's answer. */
  lemma IterateIgnoresCurrentMode(a: ModeResponse, b: ModeResponse)
    ensures CalculateRepeatIterations(Iterate, a) == CalculateRepeatIterations(Iterate, b) == Ok(1)
  {
  }

  lemma RepeatIterationsExamples()
    ensures CalculateRepeatIterations("ONE", Received(Some("NONE"))) == Ok(2)
    ensures CalculateRepeatIterations("NONE", Received(Some("ONE"))) == Ok(1)
    ensures forall m :: m in RepeatModes ==> CalculateRepeatIterations(m, Received(Some(m))) == Ok(0)
  {
  }
}
