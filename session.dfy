/**
 * The session record (`Session`) and the `HH:MM:SS` duration format
 * (`TimeInterval.formatAsHoursMinutesSeconds`).
 */
module Sessions {
  import opened Wrappers
  import opened Text

  /** `Int(self) / 3600`, `Int(self) / 60 % 60`, `Int(self) % 60` */
  function Hours(t: int): int { Quot(t, 3600) }
  function Minutes(t: int): int { Rem(Quot(t, 60), 60) }
  function Seconds(t: int): int { Rem(t, 60) }

  /** `formatAsHoursMinutesSeconds`: `String(format: "%02d:%02d:%02d", hours, minutes, seconds)`. */
  function FormatHMS(t: int): (s: string)
    ensures |s| >= 8
    ensures 0 <= t < 360000 ==> |s| == 8
    ensures t >= 0 ==> s[|s| - 3] == ':' && s[|s| - 6] == ':'
  {
    assert t >= 0 ==> 0 <= Minutes(t) < 60 && 0 <= Seconds(t) < 60 by {
      if t >= 0 { HmsFields(t); }
    }
    Pad2(Hours(t)) + ":" + Pad2(Minutes(t)) + ":" + Pad2(Seconds(t))
  }

  /** For a non-negative duration the three fields add back up to it, and minutes and seconds are in [0, 59]. */
  lemma HmsFields(t: int)
    requires t >= 0
    ensures Hours(t) * 3600 + Minutes(t) * 60 + Seconds(t) == t
    ensures 0 <= Minutes(t) < 60 && 0 <= Seconds(t) < 60 && Hours(t) >= 0
  {
    assert t / 60 == (t / 3600) * 60 + (t / 60) % 60;
  }

  /** Reads an `H...H:MM:SS` string back into seconds: the inverse of `FormatHMS` on non-negative durations. */
  function ParseHMS(s: string): (r: Option<int>)
    ensures r.Some? ==> r.value >= 0
  {
    if |s| < 8 || s[|s| - 3] != ':' || s[|s| - 6] != ':' then None
    else
      match (ParseNat(s[..|s| - 6]), ParseNat(s[|s| - 5..|s| - 3]), ParseNat(s[|s| - 2..]))
      case (Some(h), Some(m), Some(sec)) => Some(h * 3600 + m * 60 + sec)
      case _ => None
  }

  /** Formatting a non-negative duration and reading it back gives the duration itself. */
  lemma FormatHMSRoundTrip(t: int)
    requires t >= 0
    ensures ParseHMS(FormatHMS(t)) == Some(t)
  {
    HmsFields(t);
    FieldsRoundTrip(Hours(t), Minutes(t), Seconds(t));
  }

  /** Three non-negative fields, the last two below 100, printed `%02d:%02d:%02d` and read back. */
  lemma FieldsRoundTrip(h: nat, m: nat, sec: nat)
    requires m < 100 && sec < 100
    ensures ParseHMS(Pad2(h) + ":" + Pad2(m) + ":" + Pad2(sec)) == Some(h * 3600 + m * 60 + sec)
  {
    Pad2RoundTrip(h);
    Pad2RoundTrip(m);
    Pad2RoundTrip(sec);
    JoinFields(Pad2(h), Pad2(m), Pad2(sec));
  }

  /** Where the fields and the colons sit in `h:mm:ss`. */
  lemma JoinFields(h: string, m: string, sec: string)
    requires |m| == 2 && |sec| == 2
    ensures var s := h + ":" + m + ":" + sec;
      && |s| == |h| + 6 && s[|s| - 3] == ':' && s[|s| - 6] == ':'
      && s[..|s| - 6] == h && s[|s| - 5..|s| - 3] == m && s[|s| - 2..] == sec
  {
    var s := h + ":" + m + ":" + sec;
    assert s[..|s| - 6] == h;
    assert s[|s| - 5..|s| - 3] == m;
    assert s[|s| - 2..] == sec;
  }

  /** `String(format: "%d:%02d", hours, minutes)`: the compact `H:MM` form used for averages and long breaks. */
  function FormatHM(t: int): (s: string)
    ensures t >= 0 ==> |s| >= 4 && s[|s| - 3] == ':'
  {
    assert t >= 0 ==> 0 <= Minutes(t) < 60 by {
      if t >= 0 { HmsFields(t); }
    }
    IntString(Hours(t)) + ":" + Pad2(Minutes(t))
  }

  /** `H:MM` drops the seconds: read back, it gives the whole minutes of a non-negative duration. */
  lemma FormatHMRoundTrip(t: int)
    requires t >= 0
    ensures var s := FormatHM(t);
      ParseNat(s[..|s| - 3]) == Some(Hours(t)) && ParseNat(s[|s| - 2..]) == Some(Minutes(t))
    ensures Hours(t) * 60 + Minutes(t) == t / 60
  {
    HmsFields(t);
    var h, m := IntString(Hours(t)), Pad2(Minutes(t));
    var s := FormatHM(t);
    assert s == h + ":" + m;
    assert s[..|s| - 3] == h;
    assert s[|s| - 2..] == m;
    IntStringRoundTrip(Hours(t));
    Pad2RoundTrip(Minutes(t));
  }

  /** `endTime.timeIntervalSince(startTime)` when there is an end time, else no duration. */
  function DerivedDuration(startTime: int, endTime: Option<int>): (d: Option<int>)
    ensures d.Some? <==> endTime.Some?
    ensures d.Some? ==> startTime + d.value == endTime.value
  {
    match endTime
    case Some(e) => Some(e - startTime)
    case None => None
  }

  /** A session's duration is derived from its end time: adding it back to the start gives the end. */
  lemma DerivedDurationRoundTrip(startTime: int, d: int)
    ensures DerivedDuration(startTime, Some(startTime + d)) == Some(d)
  {
  }

  /**
   * One tracked span of work. `duration` is set at construction and
   * recomputed by the view model's `UpdateSession`; other code may change
   * `startTime` and `endTime` in between (the edit sheet does).
   */
  class Session {
    var startTime: int
    var endTime: Option<int>
    var duration: Option<int>
    var isManualEntry: bool

    /** The duration agrees with the two times. */
    ghost predicate Valid()
      reads this
    {
      duration == DerivedDuration(startTime, endTime)
    }

    /** `Session(startTime:endTime:isManualEntry:)`; `isManualEntry` defaults to false at the call sites that omit it. */
    constructor (startTime: int, endTime: Option<int>, isManualEntry: bool)
      ensures this.startTime == startTime && this.endTime == endTime
      ensures this.isManualEntry == isManualEntry
      ensures endTime.Some? ==> duration == Some(endTime.value - startTime)
      ensures endTime.None? ==> duration.None?
      ensures Valid()
    {
      this.startTime := startTime;
      this.endTime := endTime;
      this.isManualEntry := isManualEntry;
      this.duration := DerivedDuration(startTime, endTime);
    }

    /** `formattedDuration`: `"00:00:00"` without a duration, else `FormatHMS(duration)`. */
    function FormattedDuration(): (s: string)
      reads this`duration
      ensures duration.None? ==> s == "00:00:00"
      ensures duration.Some? && duration.value >= 0 ==> ParseHMS(s) == Some(duration.value)
    {
      match duration
      case None => "00:00:00"
      case Some(d) =>
        if d >= 0 then FormatHMSRoundTrip(d); FormatHMS(d) else FormatHMS(d)
    }
  }
}
