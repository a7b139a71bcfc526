/**
 * `CalendarView`: the month grid's list of days, the session count under
 * the selected day and the plain-text day summary handed to the share sheet.
 *
 * The month shown is given by its first instant and the instant after it
 * (`calendar.dateInterval(of: .month, ...)`); the two `DateFormatter`s are
 * the parameters `dateLabel` (the selected day as "EEEE, MMMM d") and
 * `timeText` ("h:mm a").
 */
module Calendar {
  import opened Wrappers
  import opened Text
  import opened Clock
  import opened Sessions
  import opened SessionLists
  import opened Timesheet

  /** The grid: whole weeks, from the Monday of the month's first week to the end of its last week. */
  function GridDays(monthStart: int, monthEnd: int): (days: seq<int>)
    requires monthStart < monthEnd
  {
    var first := WeekStart(monthStart);
    var last := WeekStart(monthEnd - 1) + SecondsPerWeek;
    seq((last - first) / SecondsPerDay, i => first + i * SecondsPerDay)
  }

  /** Two week starts are a whole number of weeks apart. */
  lemma WeekStartsApart(a: int, b: int)
    requires a <= b
    ensures (WeekStart(b) - WeekStart(a)) % SecondsPerWeek == 0
  {
    var x, y := WeekStart(a), WeekStart(b);
    var p, q := x / SecondsPerDay, y / SecondsPerDay;
    assert x == p * SecondsPerDay && y == q * SecondsPerDay;
    assert (p + 3) % 7 == 0 && (q + 3) % 7 == 0;
    assert (q - p) % 7 == 0;
    assert y - x == (q - p) * SecondsPerDay;
  }

  /** The grid is made of whole weeks and starts on a Monday. */
  lemma GridDaysWeeks(monthStart: int, monthEnd: int)
    requires monthStart < monthEnd
    ensures var days := GridDays(monthStart, monthEnd);
      |days| > 0 && |days| % 7 == 0 && Weekday(days[0]) == 0
  {
    var first := WeekStart(monthStart);
    var last := WeekStart(monthEnd - 1) + SecondsPerWeek;
    WeekStartsApart(monthStart, monthEnd - 1);
    DayStartMonotone(monthStart, monthEnd - 1);
    WeeksToDays(last - first);
  }

  lemma WeeksToDays(x: int)
    requires x > 0 && x % SecondsPerWeek == 0
    ensures x / SecondsPerDay > 0 && (x / SecondsPerDay) % 7 == 0
  {
    var w := x / SecondsPerWeek;
    assert x == w * 7 * SecondsPerDay;
    assert x / SecondsPerDay == w * 7;
  }

  /** The grid's days are consecutive day starts. */
  lemma GridDaysConsecutive(monthStart: int, monthEnd: int)
    requires monthStart < monthEnd
    ensures var days := GridDays(monthStart, monthEnd);
      && (forall i :: 0 <= i < |days| ==> days[i] % SecondsPerDay == 0)
      && (forall i :: 0 < i < |days| ==> days[i] == days[i - 1] + SecondsPerDay)
  {
    var first := WeekStart(monthStart);
    var days := GridDays(monthStart, monthEnd);
    forall i | 0 <= i < |days|
      ensures days[i] % SecondsPerDay == 0
    {
      DayMultiple(first, i);
    }
  }

  lemma DayMultiple(first: int, i: int)
    requires first % SecondsPerDay == 0
    ensures (first + i * SecondsPerDay) % SecondsPerDay == 0
  {
  }

  /** Every day of the month has its day start in the grid. */
  lemma GridDaysCoverMonth(monthStart: int, monthEnd: int, t: int)
    requires monthStart <= t < monthEnd
    ensures DayStart(t) in GridDays(monthStart, monthEnd)
  {
    var first := WeekStart(monthStart);
    var last := WeekStart(monthEnd - 1) + SecondsPerWeek;
    var days := GridDays(monthStart, monthEnd);
    var d := DayStart(t);
    DayStartMonotone(monthStart, t);
    DayStartMonotone(t, monthEnd - 1);
    DayStartIdempotent(first);
    DayStartMonotone(first, monthStart);
    var k := (d - first) / SecondsPerDay;
    DayStartsApart(first, d);
    assert 0 <= k < |days|;
    assert days[k] == d;
  }

  lemma WholeDays(x: int)
    requires x % SecondsPerWeek == 0
    ensures x == (x / SecondsPerDay) * SecondsPerDay
  {
    var w := x / SecondsPerWeek;
    assert x == (w * 7) * SecondsPerDay;
  }

  lemma DayStartsApart(a: int, b: int)
    requires a % SecondsPerDay == 0 && b % SecondsPerDay == 0 && a <= b
    ensures b - a == ((b - a) / SecondsPerDay) * SecondsPerDay
  {
  }

  /** `days`: append the current date and advance one day while it is before the end of the last week. */
  method Days(monthStart: int, monthEnd: int) returns (dates: seq<int>)
    requires monthStart < monthEnd
    ensures dates == GridDays(monthStart, monthEnd)
  {
    var startDate := WeekStart(monthStart);
    var endDate := WeekStart(monthEnd - 1) + SecondsPerWeek;
    ghost var n := (endDate - startDate) / SecondsPerDay;
    WeekStartsApart(monthStart, monthEnd - 1);
    WholeDays(endDate - startDate);
    dates := [];
    var currentDate := startDate;
    while currentDate < endDate
      invariant |dates| <= n
      invariant currentDate == startDate + |dates| * SecondsPerDay
      invariant forall i :: 0 <= i < |dates| ==> dates[i] == startDate + i * SecondsPerDay
      decreases endDate - currentDate
    {
      dates := dates + [currentDate];
      currentDate := currentDate + SecondsPerDay;
    }
  }

  /** `sessionCountText`: "1 session", otherwise "N sessions" (including 0). */
  function SessionCountText(count: nat): (r: string)
    ensures StartsWith(r, NatString(count) + " session")
    ensures EndsWith(r, "sessions") <==> count != 1
    ensures |r| == |NatString(count)| + (if count == 1 then 8 else 9)
  {
    if count == 1 then "1 session" else NatString(count) + " sessions"
  }

  /** The count can be read back from the front of its text. */
  lemma SessionCountTextReadsBack(count: nat)
    ensures var r := SessionCountText(count); var k := |NatString(count)|;
      k < |r| && ParseNat(r[..k]) == Some(count) && r[k] == ' '
  {
    var r := SessionCountText(count);
    var k := |NatString(count)|;
    assert r[..k] == (NatString(count) + " session")[..k] == NatString(count);
    ParseNatString(count);
  }

  const ShareFooter: string := "Shared via WorkPulse Timesheet App"
  const NoSessionsLine: string := "No work sessions recorded on this day."

  const ShareTitle: string := "WorkPulse Summary - "

  function ShareHeader(dateLabel: string): string {
    ShareTitle + dateLabel + "\n\n"
  }

  /** "Work Sessions (\(sessions.count)):\n" */
  function CountLine(n: nat): string {
    "Work Sessions (" + IntString(n) + "):\n"
  }

  /** "Total Work Time: \(hours)h \(minutes)m\n\n" with Swift's truncating `/` and `%`. */
  function TotalLine(total: int): string {
    "Total Work Time: " + IntString(Hours(total)) + "h " + IntString(Minutes(total)) + "m\n\n"
  }

  /** "Session \(index + 1): \(startTime) - \(endTimeString)\n" */
  function StartLine(index: nat, s: Session, timeText: int -> string): string
    reads s`startTime, s`endTime
  {
    var endTimeString := if s.endTime.Some? then timeText(s.endTime.value) else "Ongoing";
    "Session " + IntString(index + 1) + ": " + timeText(s.startTime) + " - " + endTimeString + "\n"
  }

  /** "Duration: \(session.formattedDuration)\n" */
  function DurationLine(s: Session): (line: string)
    reads s`duration
    ensures |line| >= 2 && line[|line| - 1] == '\n' && IsDigit(line[|line| - 2])
    ensures StartsWith(line, "Duration: ") && line[10..|line| - 1] == s.FormattedDuration()
  {
    var d := s.FormattedDuration();
    FormatEndsWithDigit(s);
    var line := "Duration: " + d + "\n";
    assert line[|line| - 2] == d[|d| - 1];
    assert line[..10] == "Duration: " && line[10..|line| - 1] == d;
    line
  }

  const ManualMarker: string := "(Manually added)\n"

  /** The lines for the session at `index` (numbered from 1). */
  function SessionBlock(index: nat, s: Session, timeText: int -> string): (b: string)
    reads s
  {
    StartLine(index, s, timeText) + DurationLine(s) + (if s.isManualEntry then ManualMarker else "") + "\n"
  }

  /** A block ends with the manual-entry marker exactly when the session was added by hand. */
  lemma SessionBlockMarker(index: nat, s: Session, timeText: int -> string)
    ensures EndsWith(SessionBlock(index, s, timeText), ManualMarker + "\n") <==> s.isManualEntry
  {
    MarkerSuffix(StartLine(index, s, timeText) + DurationLine(s), s.isManualEntry);
  }

  lemma MarkerSuffix(main: string, manual: bool)
    requires |main| >= 2 && IsDigit(main[|main| - 2])
    ensures EndsWith(main + (if manual then ManualMarker else "") + "\n", ManualMarker + "\n") <==> manual
  {
    var b := main + (if manual then ManualMarker else "") + "\n";
    var m := ManualMarker + "\n";
    if manual {
      assert b[|b| - |m|..] == m;
    } else {
      assert b[|b| - 3] == main[|main| - 2];
      assert m[|m| - 3] == ')';
    }
  }

  /** A formatted duration ends with a digit, so it cannot end a manual-entry marker. */
  lemma FormatEndsWithDigit(s: Session)
    ensures var d := s.FormattedDuration(); |d| >= 1 && IsDigit(d[|d| - 1])
  {
    match s.duration
    case None =>
    case Some(v) =>
      var sec := Pad2(Seconds(v));
      assert FormatHMS(v) == Pad2(Hours(v)) + ":" + Pad2(Minutes(v)) + ":" + sec;
      Pad2EndsWithDigit(Seconds(v));
  }

  lemma Pad2EndsWithDigit(n: int)
    ensures var p := Pad2(n); IsDigit(p[|p| - 1])
  {
    if n < 0 {
      var t := NatString(-n);
      assert IsDigit(t[|t| - 1]);
      assert Pad2(n) == "-" + t;
    } else {
      var t := NatString(n);
      assert IsDigit(t[|t| - 1]);
    }
  }

  /** The blocks of all sessions of `ss`, numbered in list order. */
  function Blocks(ss: seq<Session>, timeText: int -> string): string
    reads Elements(ss)
    decreases |ss|
  {
    if ss == [] then ""
    else
      assert Elements(ss[..|ss| - 1]) <= Elements(ss);
      Blocks(ss[..|ss| - 1], timeText) + SessionBlock(|ss| - 1, ss[|ss| - 1], timeText)
  }

  /** Everything between the header and the footer. */
  function ShareBody(ss: seq<Session>, timeText: int -> string): string
    reads Elements(ss)
  {
    if ss == [] then NoSessionsLine
    else CountLine(|ss|) + TotalLine(TotalDuration(ss)) + Blocks(ss, timeText)
  }

  /** `generateShareText()` for the sessions of the selected day. */
  function ShareText(ss: seq<Session>, dateLabel: string, timeText: int -> string): (text: string)
    reads Elements(ss)
  {
    ShareHeader(dateLabel) + ShareBody(ss, timeText) + ShareFooter
  }

  /** The share text opens with the summary title and closes with the app credit; an empty day says so. */
  lemma ShareTextFrame(ss: seq<Session>, dateLabel: string, timeText: int -> string)
    ensures StartsWith(ShareText(ss, dateLabel, timeText), "WorkPulse Summary - ")
    ensures EndsWith(ShareText(ss, dateLabel, timeText), ShareFooter)
    ensures ss == [] ==> ShareText(ss, dateLabel, timeText) == ShareHeader(dateLabel) + NoSessionsLine + ShareFooter
  {
    Framed(ShareTitle, dateLabel + "\n\n", ShareBody(ss, timeText), ShareFooter);
    Assoc(ShareTitle, dateLabel, "\n\n");
  }

  lemma Framed(title: string, rest: string, body: string, footer: string)
    ensures StartsWith(title + rest + body + footer, title)
    ensures EndsWith(title + rest + body + footer, footer)
  {
    ConcatStartsWith(title, rest);
    StartsWithConcat(title + rest, title, body);
    StartsWithConcat(title + rest + body, title, footer);
    ConcatEndsWith(title + rest + body, footer);
  }

  /** The block numbered `k + 1` describes `ss[k]`, and the blocks follow the list order. */
  lemma {:induction false} BlocksInOrder(ss: seq<Session>, k: nat, timeText: int -> string)
    requires k < |ss|
    ensures Blocks(ss[..k + 1], timeText) == Blocks(ss[..k], timeText) + SessionBlock(k, ss[k], timeText)
    ensures StartsWith(Blocks(ss, timeText), Blocks(ss[..k + 1], timeText))
    decreases |ss| - k
  {
    assert ss[..k + 1][..k] == ss[..k];
    if k + 1 < |ss| {
      BlocksInOrder(ss, k + 1, timeText);
      var a, b := Blocks(ss[..k + 1], timeText), Blocks(ss[..k + 2], timeText);
      ConcatStartsWith(a, SessionBlock(k + 1, ss[k + 1], timeText));
      StartsWithTrans(Blocks(ss, timeText), b, a);
    } else {
      assert ss[..k + 1] == ss;
    }
  }

  lemma StartsWithTrans(c: string, b: string, a: string)
    requires StartsWith(c, b) && StartsWith(b, a)
    ensures StartsWith(c, a)
  {
    assert c[..|a|] == c[..|b|][..|a|];
  }

  /**
   * The summary of a non-empty day gives the session count and the total
   * over the completed sessions in hours and minutes, which for a
   * non-negative total are its whole minutes.
   */
  lemma ShareTextSummary(ss: seq<Session>, dateLabel: string, timeText: int -> string)
    requires ss != []
    ensures StartsWith(ShareText(ss, dateLabel, timeText),
      ShareHeader(dateLabel) + CountLine(|ss|) + TotalLine(TotalDuration(ss)))
    ensures TotalDuration(ss) >= 0 ==> Hours(TotalDuration(ss)) * 60 + Minutes(TotalDuration(ss)) == TotalDuration(ss) / 60
  {
    var total := TotalDuration(ss);
    var h, c, t, b := ShareHeader(dateLabel), CountLine(|ss|), TotalLine(total), Blocks(ss, timeText);
    assert ShareText(ss, dateLabel, timeText) == h + (c + t + b) + ShareFooter;
    Regroup(h, c, t, b, ShareFooter);
    ConcatStartsWith(h + c + t, b + ShareFooter);
    if total >= 0 {
      HmsFields(total);
    }
  }

  lemma Regroup(h: string, c: string, t: string, b: string, f: string)
    ensures h + (c + t + b) + f == (h + c + t) + (b + f)
  {
  }

  /** Appending the lines of a block one by one appends the block. */
  lemma AppendPieces(text: string, a: string, b: string, m: string, n: string)
    ensures text + a + b + m + n == text + (a + b + m + n)
  {
  }

  /** Appending one session's lines to text holding the earlier blocks gives the blocks up to it. */
  lemma BlockStep(ss: seq<Session>, index: nat, timeText: int -> string, prefix: string, before: string, marker: string, text: string)
    requires index < |ss|
    requires before == prefix + Blocks(ss[..index], timeText)
    requires marker == if ss[index].isManualEntry then ManualMarker else ""
    requires text == before + StartLine(index, ss[index], timeText) + DurationLine(ss[index]) + marker + "\n"
    ensures text == prefix + Blocks(ss[..index + 1], timeText)
  {
    var s := ss[index];
    AppendPieces(before, StartLine(index, s, timeText), DurationLine(s), marker, "\n");
    BlocksInOrder(ss, index, timeText);
    Assoc(prefix, Blocks(ss[..index], timeText), SessionBlock(index, s, timeText));
  }

  /** The pieces of a non-empty day's text, appended in order, make up its share text. */
  lemma Assembled(ss: seq<Session>, dateLabel: string, timeText: int -> string)
    requires ss != []
    ensures ShareHeader(dateLabel) + CountLine(|ss|) + TotalLine(TotalDuration(ss)) + Blocks(ss, timeText) + ShareFooter
      == ShareText(ss, dateLabel, timeText)
  {
    var h, c, t, b := ShareHeader(dateLabel), CountLine(|ss|), TotalLine(TotalDuration(ss)), Blocks(ss, timeText);
    Assoc(h, c + t, b);
    Assoc(h, c, t);
  }

  /** The loop of `generateShareText()`: append each session's lines, numbered from 1, in list order. */
  method AppendBlocks(start: string, sessions: seq<Session>, timeText: int -> string) returns (text: string)
    ensures text == start + Blocks(sessions, timeText)
  {
    text := start;
    var index := 0;
    while index < |sessions|
      invariant 0 <= index <= |sessions|
      invariant text == start + Blocks(sessions[..index], timeText)
    {
      var session := sessions[index];
      ghost var before := text;
      ghost var marker := if session.isManualEntry then ManualMarker else "";
      text := text + StartLine(index, session, timeText);
      text := text + DurationLine(session);
      if session.isManualEntry {
        text := text + ManualMarker;
      }
      assert text == before + StartLine(index, session, timeText) + DurationLine(session) + marker;
      text := text + "\n";
      BlockStep(sessions, index, timeText, start, before, marker, text);
      assert text == start + Blocks(sessions[..index + 1], timeText);
      index := index + 1;
      assert text == start + Blocks(sessions[..index], timeText);
    }
    assert sessions[..index] == sessions;
  }

  /** The body of `generateShareText()` for the fetched list: the header, then the count, the total and the blocks or the empty-day line, then the footer. */
  method BuildShareText(sessions: seq<Session>, dateLabel: string, timeText: int -> string) returns (text: string)
    ensures text == ShareText(sessions, dateLabel, timeText)
  {
    text := ShareHeader(dateLabel);
    if sessions == [] {
      text := text + NoSessionsLine;
    } else {
      text := text + CountLine(|sessions|);
      var totalDuration := TotalDuration(sessions);
      text := text + TotalLine(totalDuration);
      text := AppendBlocks(text, sessions, timeText);
      assert forall s :: s in Elements(sessions) ==> unchanged(s);
      assert totalDuration == TotalDuration(sessions);
      Assembled(sessions, dateLabel, timeText);
    }
    text := text + ShareFooter;
  }

  /** `generateShareText()`: the text for the sessions of the selected day. */
  method GenerateShareText(vm: TimesheetViewModel, selectedDate: int, dateLabel: string, timeText: int -> string)
    returns (text: string)
    ensures text == ShareText(vm.SessionsForDate(selectedDate), dateLabel, timeText)
  {
    var sessions := vm.SessionsForDate(selectedDate);
    text := BuildShareText(sessions, dateLabel, timeText);
    assert unchanged(vm) && forall s :: s in Elements(vm.store) ==> unchanged(s`startTime);
    assert vm.SessionsForDate(selectedDate) == sessions;
    assert forall s :: s in Elements(sessions) ==> unchanged(s);
  }
}
