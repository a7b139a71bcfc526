/**
 * `SessionHistoryView`: the day sections shown under the selected tab, the
 * choice of sessions to export, and the CSV export text and file name.
 *
 * `groupedSessions` is the view model's day grouping; `now` is the wall
 * clock read by the tab filter; the two `DateFormatter`s are the parameters
 * `dateText` (medium date style) and `timeText` (short time style).
 */
module History {
  import opened Wrappers
  import opened Text
  import opened Clock
  import opened Sessions
  import opened SessionLists
  import opened Timesheet
  import opened CsvText

  /** `HistoryTab` */
  datatype HistoryTab = Today | Week | All

  /** Strictly decreasing: newest day first, no day twice. */
  predicate Descending(ds: seq<int>) {
    forall i, j :: 0 <= i < j < |ds| ==> ds[i] > ds[j]
  }

  /**
   * `keys` is `Array(groupedSessions.keys)`: every key of the grouping, in
   * the dictionary's own (unspecified) order.
   */
  ghost predicate ListsKeys(keys: seq<int>, grouped: map<int, seq<Session>>) {
    forall d :: d in keys <==> d in grouped
  }

  /** `d` put into its place in a descending list; a day already listed stays once. */
  function Insert(d: int, ds: seq<int>): (r: seq<int>)
    requires Descending(ds)
    ensures Descending(r)
    ensures forall x :: x in r <==> x == d || x in ds
    decreases |ds|
  {
    if ds == [] || d > ds[0] then [d] + ds
    else if d == ds[0] then ds
    else
      var rest := Insert(d, ds[1..]);
      forall i | 0 <= i < |rest|
        ensures rest[i] < ds[0]
      {
        var x := rest[i];
        assert x in rest;
        if x != d {
          assert x in ds[1..];
          var k :| 0 <= k < |ds[1..]| && ds[1..][k] == x;
          assert ds[k + 1] == x;
        }
      }
      [ds[0]] + rest
  }

  /** `keys.sorted(by: >)`, for keys without repeats. */
  function SortedDescending(ks: seq<int>): (ds: seq<int>)
    ensures Descending(ds)
    ensures forall d :: d in ds <==> d in ks
    decreases |ks|
  {
    if ks == [] then [] else Insert(ks[0], SortedDescending(ks[1..]))
  }

  /** Descending lists with the same days are empty together. */
  lemma EmptyTogether(a: seq<int>, b: seq<int>)
    requires forall d :: d in a <==> d in b
    ensures a == [] <==> b == []
  {
    if a != [] {
      var x := a[0];
      assert x in a;
      assert x in b;
    }
    if b != [] {
      var y := b[0];
      assert y in b;
      assert y in a;
    }
  }

  /** Two non-empty descending lists of the same days start with the same day. */
  lemma HeadsAgree(a: seq<int>, b: seq<int>)
    requires Descending(a) && Descending(b) && a != [] && b != []
    requires forall d :: d in a <==> d in b
    ensures a[0] == b[0]
  {
    assert a[0] in a;
    var i :| 0 <= i < |b| && b[i] == a[0];
    assert b[0] >= a[0];
    assert b[0] in b;
    var j :| 0 <= j < |a| && a[j] == b[0];
    assert a[0] >= b[0];
  }

  /** The tail of a descending list holds the days below its head. */
  lemma TailMembers(a: seq<int>, d: int)
    requires Descending(a) && a != []
    ensures d in a[1..] <==> d in a && d != a[0]
  {
    if d in a[1..] {
      var i :| 0 <= i < |a[1..]| && a[1..][i] == d;
      assert a[i + 1] == d;
    }
    if d in a && d != a[0] {
      var i :| 0 <= i < |a| && a[i] == d;
      assert a[1..][i - 1] == d;
    }
  }

  /** Two descending lists of the same days are the same list. */
  lemma {:induction false} DescendingUnique(a: seq<int>, b: seq<int>)
    requires Descending(a) && Descending(b)
    requires forall d :: d in a <==> d in b
    ensures a == b
    decreases |a|
  {
    EmptyTogether(a, b);
    if a != [] {
      HeadsAgree(a, b);
      forall d
        ensures d in a[1..] <==> d in b[1..]
      {
        TailMembers(a, d);
        TailMembers(b, d);
      }
      DescendingUnique(a[1..], b[1..]);
      assert a == [a[0]] + a[1..] && b == [b[0]] + b[1..];
    }
  }

  /** `dates.filter(p)` */
  function Filter(ds: seq<int>, p: int -> bool): (r: seq<int>)
    ensures forall d :: d in r <==> d in ds && p(d)
    ensures Descending(ds) ==> Descending(r)
    decreases |ds|
  {
    if ds == [] then []
    else
      var rest := Filter(ds[1..], p);
      assert forall d :: d in ds[1..] ==> d in ds;
      assert Descending(ds) ==> forall i :: 0 <= i < |rest| ==> ds[0] > rest[i] by {
        if Descending(ds) {
          forall i | 0 <= i < |rest|
            ensures ds[0] > rest[i]
          {
            assert rest[i] in ds[1..];
          }
        }
      }
      if p(ds[0]) then [ds[0]] + rest else rest
  }

  /** One week back from `now`: `calendar.date(byAdding: .day, value: -7, to: today)`. */
  function WeekAgo(now: int): int {
    now - 7 * SecondsPerDay
  }

  /** Whether a day key is listed under `tab`. */
  predicate Shown(tab: HistoryTab, d: int, now: int) {
    match tab
    case Today => DayStart(d) == DayStart(now)
    case Week => d >= WeekAgo(now)
    case All => true
  }

  /** `filteredDates`: the group keys newest first, then the tab's filter. */
  function FilteredDates(grouped: map<int, seq<Session>>, keys: seq<int>, tab: HistoryTab, now: int): (ds: seq<int>)
    requires ListsKeys(keys, grouped)
    ensures Descending(ds)
    ensures forall d :: d in ds <==> d in grouped && Shown(tab, d, now)
  {
    var dates := SortedDescending(keys);
    match tab
    case Today => Filter(dates, d => DayStart(d) == DayStart(now))
    case Week => Filter(dates, d => d >= WeekAgo(now))
    case All => dates
  }

  /** The listed days do not depend on the order in which the dictionary hands out its keys. */
  lemma FilteredDatesIgnoreKeyOrder(grouped: map<int, seq<Session>>, keys: seq<int>, keys': seq<int>, tab: HistoryTab, now: int)
    requires ListsKeys(keys, grouped) && ListsKeys(keys', grouped)
    ensures FilteredDates(grouped, keys, tab, now) == FilteredDates(grouped, keys', tab, now)
  {
    DescendingUnique(FilteredDates(grouped, keys, tab, now), FilteredDates(grouped, keys', tab, now));
  }

  /** Descending day starts that all fall on one day: at most one of them. */
  lemma AtMostOneDay(ds: seq<int>, now: int)
    requires Descending(ds)
    requires forall i :: 0 <= i < |ds| ==> ds[i] % SecondsPerDay == 0 && DayStart(ds[i]) == DayStart(now)
    ensures |ds| <= 1
  {
    SameDay(ds, now);
  }

  /** Day starts of the day of `now` are all that day's start. */
  lemma SameDay(ds: seq<int>, now: int)
    requires forall i :: 0 <= i < |ds| ==> ds[i] % SecondsPerDay == 0 && DayStart(ds[i]) == DayStart(now)
    ensures |ds| > 1 ==> ds[0] == ds[1]
  {
    if |ds| > 1 {
      assert DayStart(ds[0]) == ds[0] && DayStart(ds[1]) == ds[1];
    }
  }

  /**
   * Today's days are among this week's, and this week's among all; with
   * day-start keys, today shows at most one day.
   */
  lemma TabsNested(grouped: map<int, seq<Session>>, keys: seq<int>, now: int)
    requires ListsKeys(keys, grouped)
    ensures forall d :: d in FilteredDates(grouped, keys, Today, now) ==> d in FilteredDates(grouped, keys, Week, now)
    ensures forall d :: d in FilteredDates(grouped, keys, Week, now) ==> d in FilteredDates(grouped, keys, All, now)
    ensures (forall k :: k in grouped ==> k % SecondsPerDay == 0) ==> |FilteredDates(grouped, keys, Today, now)| <= 1
  {
    var today := FilteredDates(grouped, keys, Today, now);
    forall d | d in today
      ensures d >= WeekAgo(now)
    {
      assert DayStart(d) <= d;
    }
    if forall k :: k in grouped ==> k % SecondsPerDay == 0 {
      forall i | 0 <= i < |today|
        ensures today[i] % SecondsPerDay == 0 && DayStart(today[i]) == DayStart(now)
      {
        assert today[i] in today;
      }
      AtMostOneDay(today, now);
    }
  }

  /** The groups of the listed days, one after another. */
  function Concatenated(grouped: map<int, seq<Session>>, ds: seq<int>): seq<Session>
    decreases |ds|
  {
    if ds == [] then []
    else
      var last := ds[|ds| - 1];
      Concatenated(grouped, ds[..|ds| - 1]) + (if last in grouped then grouped[last] else [])
  }

  /** `exportSessions`' choice: the selected day's group, or every listed day's group in list order. */
  function ExportList(grouped: map<int, seq<Session>>, keys: seq<int>, selectedExportDay: Option<int>, tab: HistoryTab, now: int): seq<Session>
    requires ListsKeys(keys, grouped)
  {
    match selectedExportDay
    case Some(date) => if date in grouped then grouped[date] else []
    case None => Concatenated(grouped, FilteredDates(grouped, keys, tab, now))
  }

  /** The loop of `exportSessions` when no day is selected. */
  method CollectListed(grouped: map<int, seq<Session>>, dates: seq<int>) returns (sessions: seq<Session>)
    ensures sessions == Concatenated(grouped, dates)
  {
    sessions := [];
    var i := 0;
    while i < |dates|
      invariant 0 <= i <= |dates|
      invariant sessions == Concatenated(grouped, dates[..i])
    {
      var date := dates[i];
      if date in grouped {
        sessions := sessions + grouped[date];
      }
      assert dates[..i + 1][..i] == dates[..i];
      i := i + 1;
    }
    assert dates[..i] == dates;
  }

  /** `exportSessions`: the list to export, before the empty check. */
  method SelectForExport(grouped: map<int, seq<Session>>, keys: seq<int>, selectedExportDay: Option<int>, tab: HistoryTab, now: int)
    returns (sessions: seq<Session>)
    requires ListsKeys(keys, grouped)
    ensures sessions == ExportList(grouped, keys, selectedExportDay, tab, now)
  {
    sessions := [];
    if selectedExportDay.Some? {
      var date := selectedExportDay.value;
      sessions := if date in grouped then grouped[date] else [];
    } else {
      sessions := CollectListed(grouped, FilteredDates(grouped, keys, tab, now));
    }
  }

  /** Over a grouping of `all`, the groups of some days hold exactly the sessions that start on them. */
  lemma {:induction false} ConcatenatedMembers(grouped: map<int, seq<Session>>, all: seq<Session>, ds: seq<int>)
    requires GroupsOf(grouped, all)
    ensures forall s :: s in Concatenated(grouped, ds) <==> s in all && DayStart(s.startTime) in ds
    decreases |ds|
  {
    GroupsOfCovers(grouped, all);
    if ds != [] {
      var init, last := ds[..|ds| - 1], ds[|ds| - 1];
      ConcatenatedMembers(grouped, all, init);
      forall s
        ensures s in Concatenated(grouped, ds) <==> s in all && DayStart(s.startTime) in ds
      {
        assert DayStart(s.startTime) in ds <==> DayStart(s.startTime) in init || DayStart(s.startTime) == last;
        if last in grouped {
          StartsOnDayStart(s, last);
        }
      }
    }
  }

  /**
   * Exporting without a selected day exports exactly the sessions whose day
   * the tab lists, and a selected day's export is that day's sessions.
   */
  lemma ExportListMembers(grouped: map<int, seq<Session>>, keys: seq<int>, all: seq<Session>, selectedExportDay: Option<int>, tab: HistoryTab, now: int)
    requires GroupsOf(grouped, all) && ListsKeys(keys, grouped)
    ensures selectedExportDay.None? ==> forall s :: s in ExportList(grouped, keys, selectedExportDay, tab, now) <==>
      s in all && DayStart(s.startTime) in grouped && Shown(tab, DayStart(s.startTime), now)
    ensures selectedExportDay.Some? ==> forall s :: s in ExportList(grouped, keys, selectedExportDay, tab, now) <==>
      s in all && DayStart(s.startTime) == selectedExportDay.value
  {
    GroupsOfCovers(grouped, all);
    if selectedExportDay.None? {
      ConcatenatedMembers(grouped, all, FilteredDates(grouped, keys, tab, now));
    } else {
      var date := selectedExportDay.value;
      forall s
        ensures s in ExportList(grouped, keys, selectedExportDay, tab, now) <==> s in all && DayStart(s.startTime) == date
      {
        if date in grouped {
          StartsOnDayStart(s, date);
        }
      }
    }
  }

  const CsvHeader: string := "Date,Start Time,End Time,Duration,Type\n"

  /** The header's column names. */
  const HeaderNames: seq<string> := ["Date", "Start Time", "End Time", "Duration", "Type"]

  /** The header is the row of its column names, none of which holds a comma, a double quote or a line break. */
  lemma HeaderIsRow()
    ensures CsvHeader == CsvRow(HeaderNames)
    ensures forall i :: 0 <= i < |HeaderNames| ==> ',' !in HeaderNames[i] && '"' !in HeaderNames[i] && '\n' !in HeaderNames[i]
  {
    HeaderJoin();
    forall i | 0 <= i < |HeaderNames|
      ensures ',' !in HeaderNames[i] && '"' !in HeaderNames[i] && '\n' !in HeaderNames[i]
    {
      PlainTextAvoids(HeaderNames[i]);
    }
  }

  lemma HeaderJoin()
    ensures JoinColumns(HeaderNames) + "\n" == CsvHeader
  {
    var n := HeaderNames;
    assert n[..1] == ["Date"];
    assert n[..2][..1] == n[..1];
    assert n[..3][..2] == n[..2];
    assert n[..4][..3] == n[..3];
    assert n[..5][..4] == n[..4];
    assert JoinColumns(n[..2]) == "Date" + "," + "Start Time";
    assert JoinColumns(n[..3]) == "Date,Start Time" + "," + "End Time";
    assert JoinColumns(n[..4]) == "Date,Start Time,End Time" + "," + "Duration";
    assert JoinColumns(n) == "Date,Start Time,End Time,Duration" + "," + "Type";
  }

  /** The Type column. */
  function EntryType(s: Session): (kind: string)
    reads s`isManualEntry
    ensures kind == "Manual" <==> s.isManualEntry
  {
    if s.isManualEntry then "Manual" else "Automatic"
  }

  /** The End Time column: "In Progress" for a session without an end. */
  function EndColumn(s: Session, timeText: int -> string): string
    reads s`endTime
  {
    if s.endTime.Some? then timeText(s.endTime.value) else "In Progress"
  }

  /** A session's five columns: date, start time, end time, duration and type. */
  function CsvColumns(s: Session, dateText: int -> string, timeText: int -> string): (columns: seq<string>)
    reads s`startTime, s`endTime, s`duration, s`isManualEntry
    ensures |columns| == 5
  {
    [dateText(s.startTime), timeText(s.startTime), EndColumn(s, timeText), s.FormattedDuration(), EntryType(s)]
  }

  /** `"\(date),\(startTime),\(endTime),\(duration),\(type)\n"`, the columns written as they are. */
  function CsvLineAsWritten(s: Session, dateText: int -> string, timeText: int -> string): string
    reads s`startTime, s`endTime, s`duration, s`isManualEntry
  {
    CsvRow(CsvColumns(s, dateText, timeText))
  }

  /** A session's line with a column that holds a comma enclosed in double quotes. */
  function CsvLine(s: Session, dateText: int -> string, timeText: int -> string): string
    reads s`startTime, s`endTime, s`duration, s`isManualEntry
  {
    CsvRow(Quoted(CsvColumns(s, dateText, timeText)))
  }

  /** One line per session, in list order. */
  function CsvRows(ss: seq<Session>, dateText: int -> string, timeText: int -> string): string
    reads Elements(ss)`startTime, Elements(ss)`endTime, Elements(ss)`duration, Elements(ss)`isManualEntry
    decreases |ss|
  {
    if ss == [] then ""
    else
      assert Elements(ss[..|ss| - 1]) <= Elements(ss);
      CsvRows(ss[..|ss| - 1], dateText, timeText) + CsvLine(ss[|ss| - 1], dateText, timeText)
  }

  /** The whole CSV text. */
  function Csv(ss: seq<Session>, dateText: int -> string, timeText: int -> string): string
    reads Elements(ss)`startTime, Elements(ss)`endTime, Elements(ss)`duration, Elements(ss)`isManualEntry
  {
    CsvHeader + CsvRows(ss, dateText, timeText)
  }

  /** One line per session as written, in list order. */
  function CsvRowsAsWritten(ss: seq<Session>, dateText: int -> string, timeText: int -> string): string
    reads Elements(ss)`startTime, Elements(ss)`endTime, Elements(ss)`duration, Elements(ss)`isManualEntry
    decreases |ss|
  {
    if ss == [] then ""
    else
      assert Elements(ss[..|ss| - 1]) <= Elements(ss);
      CsvRowsAsWritten(ss[..|ss| - 1], dateText, timeText) + CsvLineAsWritten(ss[|ss| - 1], dateText, timeText)
  }

  /** The CSV text `exportAsCSV` writes: the header, then every line with its columns as they are. */
  function CsvAsWritten(ss: seq<Session>, dateText: int -> string, timeText: int -> string): string
    reads Elements(ss)`startTime, Elements(ss)`endTime, Elements(ss)`duration, Elements(ss)`isManualEntry
  {
    CsvHeader + CsvRowsAsWritten(ss, dateText, timeText)
  }

  /** `exportAsCSV`'s loop: the header, then `+=` one line per session. */
  method BuildCsv(sessions: seq<Session>, dateText: int -> string, timeText: int -> string) returns (csvString: string)
    ensures csvString == CsvAsWritten(sessions, dateText, timeText)
  {
    csvString := CsvHeader;
    var i := 0;
    while i < |sessions|
      invariant 0 <= i <= |sessions|
      invariant csvString == CsvHeader + CsvRowsAsWritten(sessions[..i], dateText, timeText)
    {
      var session := sessions[i];
      var date := dateText(session.startTime);
      var startTime := timeText(session.startTime);
      var endTime := if session.endTime.Some? then timeText(session.endTime.value) else "In Progress";
      var duration := session.FormattedDuration();
      var kind := if session.isManualEntry then "Manual" else "Automatic";
      var line := CsvRow([date, startTime, endTime, duration, kind]);
      LineOfColumns(session, dateText, timeText, date, startTime, endTime, duration, kind);
      CsvStep(sessions, i, dateText, timeText, CsvHeader, csvString, csvString + line);
      csvString := csvString + line;
      i := i + 1;
    }
    assert sessions[..i] == sessions;
  }

  /** The loop's five values, joined as they are, are the session's line as written. */
  lemma LineOfColumns(s: Session, dateText: int -> string, timeText: int -> string,
                      date: string, startTime: string, endTime: string, duration: string, kind: string)
    requires date == dateText(s.startTime) && startTime == timeText(s.startTime)
    requires endTime == (if s.endTime.Some? then timeText(s.endTime.value) else "In Progress")
    requires duration == s.FormattedDuration()
    requires kind == (if s.isManualEntry then "Manual" else "Automatic")
    ensures CsvRow([date, startTime, endTime, duration, kind]) == CsvLineAsWritten(s, dateText, timeText)
  {
  }

  /** One turn of `BuildCsv`'s loop keeps its invariant, whatever text comes before the rows. */
  lemma CsvStep(ss: seq<Session>, i: nat, dateText: int -> string, timeText: int -> string,
                header: string, before: string, after: string)
    requires i < |ss|
    requires before == header + CsvRowsAsWritten(ss[..i], dateText, timeText)
    requires after == before + CsvLineAsWritten(ss[i], dateText, timeText)
    ensures after == header + CsvRowsAsWritten(ss[..i + 1], dateText, timeText)
  {
    var p := ss[..i + 1];
    assert p[..|p| - 1] == ss[..i];
    assert p[|p| - 1] == ss[i];
    var rows, line := CsvRowsAsWritten(ss[..i], dateText, timeText), CsvLineAsWritten(ss[i], dateText, timeText);
    assert CsvRowsAsWritten(p, dateText, timeText) == rows + line;
    Assoc(header, rows, line);
  }

  /** No formatted text of `f` contains `c`. */
  ghost predicate Avoids(f: int -> string, c: char) {
    forall t :: c !in f(t)
  }

  lemma AvoidsAt(f: int -> string, c: char, t: int)
    requires Avoids(f, c)
    ensures c !in f(t)
  {
  }

  /** Digits, minus signs and colons only. */
  predicate NumericText(s: string) {
    forall i :: 0 <= i < |s| ==> IsDigit(s[i]) || s[i] == '-' || s[i] == ':'
  }

  /** `%02d` writes digits and, for a negative value, a leading minus sign. */
  lemma Pad2Numeric(n: int)
    ensures NumericText(Pad2(n))
  {
    if n < 0 {
      var p, t := Pad2(n), NatString(-n);
      assert p == "-" + t;
      forall i | 1 <= i < |p|
        ensures IsDigit(p[i])
      {
        assert p[i] == t[i - 1];
      }
    }
  }

  lemma NumericJoin(a: string, b: string)
    requires NumericText(a) && NumericText(b)
    ensures NumericText(a + ":" + b)
  {
    var s := a + ":" + b;
    forall i | 0 <= i < |s|
      ensures IsDigit(s[i]) || s[i] == '-' || s[i] == ':'
    {
      if i < |a| {
        assert s[i] == a[i];
      } else if i > |a| {
        assert s[i] == b[i - |a| - 1];
      }
    }
  }

  /** A formatted duration holds digits, colons and minus signs only. */
  lemma FormattedDurationNumeric(s: Session)
    ensures NumericText(s.FormattedDuration())
  {
    if s.duration.Some? {
      var t := s.duration.value;
      Pad2Numeric(Hours(t));
      Pad2Numeric(Minutes(t));
      Pad2Numeric(Seconds(t));
      NumericJoin(Pad2(Hours(t)), Pad2(Minutes(t)));
      NumericJoin(Pad2(Hours(t)) + ":" + Pad2(Minutes(t)), Pad2(Seconds(t)));
    } else {
      assert s.FormattedDuration() == "00" + ":" + "00" + ":" + "00";
      NumericJoin("00", "00");
      NumericJoin("00:00", "00");
    }
  }

  /** Numeric text has no line break, comma or double quote. */
  lemma NumericAvoids(s: string)
    requires NumericText(s)
    ensures '\n' !in s && ',' !in s && '"' !in s
  {
    forall i | 0 <= i < |s|
      ensures s[i] != '\n' && s[i] != ',' && s[i] != '"'
    {
    }
  }

  /**
   * A line break or a double quote that neither formatter writes is in none
   * of a session's columns: the other columns are numbers, "In Progress",
   * "Manual" and "Automatic".
   */
  lemma ColumnsAvoid(s: Session, dateText: int -> string, timeText: int -> string, c: char)
    requires c == '\n' || c == '"'
    requires Avoids(dateText, c) && Avoids(timeText, c)
    ensures forall i :: 0 <= i < 5 ==> c !in CsvColumns(s, dateText, timeText)[i]
  {
    var columns := CsvColumns(s, dateText, timeText);
    AvoidsAt(dateText, c, s.startTime);
    AvoidsAt(timeText, c, s.startTime);
    EndColumnAvoids(s, timeText, c);
    DurationPlain(s);
    EntryTypePlain(s);
    forall i | 0 <= i < 5
      ensures c !in columns[i]
    {
    }
  }

  /** The End Time column has no comma or double quote when the time formatter writes none. */
  lemma EndColumnAvoids(s: Session, timeText: int -> string, c: char)
    requires c == ',' || c == '"' || c == '\n'
    requires Avoids(timeText, c)
    ensures c !in EndColumn(s, timeText)
  {
    if s.endTime.Some? {
      AvoidsAt(timeText, c, s.endTime.value);
    } else {
      PlainTextAvoids("In Progress");
    }
  }

  lemma DurationPlain(s: Session)
    ensures ',' !in s.FormattedDuration() && '"' !in s.FormattedDuration() && '\n' !in s.FormattedDuration()
  {
    FormattedDurationNumeric(s);
    NumericAvoids(s.FormattedDuration());
  }

  lemma EntryTypePlain(s: Session)
    ensures ',' !in EntryType(s) && '"' !in EntryType(s) && '\n' !in EntryType(s)
  {
    PlainTextAvoids(EntryType(s));
  }

  /**
   * With formatters that never produce a line break, the CSV has exactly one
   * line break per session plus the header's.
   */
  lemma CsvLineCount(ss: seq<Session>, dateText: int -> string, timeText: int -> string)
    requires Avoids(dateText, '\n') && Avoids(timeText, '\n')
    ensures Count(Csv(ss, dateText, timeText), '\n') == 1 + |ss|
  {
    RowsLineCount(ss, dateText, timeText);
    CountAppend(CsvHeader, CsvRows(ss, dateText, timeText), '\n');
    HeaderIsRow();
    RowHasOneBreak(HeaderNames);
  }

  lemma {:induction false} RowsLineCount(ss: seq<Session>, dateText: int -> string, timeText: int -> string)
    requires Avoids(dateText, '\n') && Avoids(timeText, '\n')
    ensures Count(CsvRows(ss, dateText, timeText), '\n') == |ss|
    decreases |ss|
  {
    if ss != [] {
      var s := ss[|ss| - 1];
      RowsLineCount(ss[..|ss| - 1], dateText, timeText);
      LineHasOneBreak(s, dateText, timeText);
      CountAppend(CsvRows(ss[..|ss| - 1], dateText, timeText), CsvLine(s, dateText, timeText), '\n');
    }
  }

  lemma LineHasOneBreak(s: Session, dateText: int -> string, timeText: int -> string)
    requires Avoids(dateText, '\n') && Avoids(timeText, '\n')
    ensures Count(CsvLine(s, dateText, timeText), '\n') == 1
  {
    ColumnsAvoid(s, dateText, timeText, '\n');
    QuotedRowHasOneBreak(CsvColumns(s, dateText, timeText));
  }

  /** A line's Type column says "Manual" exactly for a manually added session. */
  lemma CsvLineType(s: Session, dateText: int -> string, timeText: int -> string)
    ensures EndsWith(CsvLine(s, dateText, timeText), ",Manual\n") <==> s.isManualEntry
  {
    var columns := CsvColumns(s, dateText, timeText);
    EntryTypePlain(s);
    QuotedAt(columns);
    RowType(Quoted(columns));
  }

  /**
   * With formatters that never produce a line break, the text as written has
   * exactly one line break per session plus the header's.
   */
  lemma CsvAsWrittenLineCount(ss: seq<Session>, dateText: int -> string, timeText: int -> string)
    requires Avoids(dateText, '\n') && Avoids(timeText, '\n')
    ensures Count(CsvAsWritten(ss, dateText, timeText), '\n') == 1 + |ss|
  {
    RowsAsWrittenLineCount(ss, dateText, timeText);
    CountAppend(CsvHeader, CsvRowsAsWritten(ss, dateText, timeText), '\n');
    HeaderIsRow();
    RowHasOneBreak(HeaderNames);
  }

  lemma {:induction false} RowsAsWrittenLineCount(ss: seq<Session>, dateText: int -> string, timeText: int -> string)
    requires Avoids(dateText, '\n') && Avoids(timeText, '\n')
    ensures Count(CsvRowsAsWritten(ss, dateText, timeText), '\n') == |ss|
    decreases |ss|
  {
    if ss != [] {
      var s := ss[|ss| - 1];
      RowsAsWrittenLineCount(ss[..|ss| - 1], dateText, timeText);
      LineAsWrittenHasOneBreak(s, dateText, timeText);
      CountAppend(CsvRowsAsWritten(ss[..|ss| - 1], dateText, timeText), CsvLineAsWritten(s, dateText, timeText), '\n');
    }
  }

  lemma LineAsWrittenHasOneBreak(s: Session, dateText: int -> string, timeText: int -> string)
    requires Avoids(dateText, '\n') && Avoids(timeText, '\n')
    ensures Count(CsvLineAsWritten(s, dateText, timeText), '\n') == 1
  {
    ColumnsAvoid(s, dateText, timeText, '\n');
    RowHasOneBreak(CsvColumns(s, dateText, timeText));
  }

  /** A line as written ends in the Type column, "Manual" exactly for a manually added session. */
  lemma CsvLineAsWrittenType(s: Session, dateText: int -> string, timeText: int -> string)
    ensures EndsWith(CsvLineAsWritten(s, dateText, timeText), ",Manual\n") <==> s.isManualEntry
  {
    EntryTypePlain(s);
    RowType(CsvColumns(s, dateText, timeText));
  }

  /**
   * When neither formatter writes a comma, quoting changes no column, so the
   * text as written and the corrected text are the same.
   */
  lemma {:induction false} AsWrittenAgreesWithoutComma(ss: seq<Session>, dateText: int -> string, timeText: int -> string)
    requires Avoids(dateText, ',') && Avoids(timeText, ',')
    ensures CsvAsWritten(ss, dateText, timeText) == Csv(ss, dateText, timeText)
  {
    RowsAgreeWithoutComma(ss, dateText, timeText);
  }

  lemma {:induction false} RowsAgreeWithoutComma(ss: seq<Session>, dateText: int -> string, timeText: int -> string)
    requires Avoids(dateText, ',') && Avoids(timeText, ',')
    ensures CsvRowsAsWritten(ss, dateText, timeText) == CsvRows(ss, dateText, timeText)
    decreases |ss|
  {
    if ss != [] {
      var s := ss[|ss| - 1];
      RowsAgreeWithoutComma(ss[..|ss| - 1], dateText, timeText);
      LaterColumnsAvoid(s, dateText, timeText, ',');
      AvoidsAt(dateText, ',', s.startTime);
      QuotedPlain(CsvColumns(s, dateText, timeText));
    }
  }

  /** The header's title line reads as its five column names. */
  lemma HeaderColumns()
    ensures ReadColumns(CsvHeader[..|CsvHeader| - 1]) == HeaderNames
  {
    HeaderIsRow();
    ReadJoin(HeaderNames);
    assert CsvHeader[..|CsvHeader| - 1] == JoinColumns(HeaderNames);
  }

  /**
   * When neither formatter writes a double quote, every line reads back as
   * the session's five columns, as many as the header names, even when the
   * medium-style date holds a comma.
   */
  lemma CsvLineReadsBack(s: Session, dateText: int -> string, timeText: int -> string)
    requires Avoids(dateText, '"') && Avoids(timeText, '"')
    ensures var line := CsvLine(s, dateText, timeText);
      ReadColumns(line[..|line| - 1]) == CsvColumns(s, dateText, timeText)
    ensures var line := CsvLine(s, dateText, timeText);
      |ReadColumns(line[..|line| - 1])| == |ReadColumns(CsvHeader[..|CsvHeader| - 1])|
  {
    var columns := CsvColumns(s, dateText, timeText);
    ColumnsAvoid(s, dateText, timeText, '"');
    ReadQuotedJoin(columns);
    RowBody(Quoted(columns));
    HeaderColumns();
  }

  /**
   * The line as written, for a session whose medium-style date is `a,b`
   * (as "Oct 16, 2026" is), reads as six columns: the date splits in two,
   * one more than the header names.
   */
  lemma DateCommaAddsColumn(s: Session, dateText: int -> string, timeText: int -> string, a: string, b: string)
    requires dateText(s.startTime) == a + "," + b
    requires ',' !in a && '"' !in a && ',' !in b && '"' !in b
    requires Avoids(timeText, ',') && Avoids(timeText, '"')
    ensures var line := CsvLineAsWritten(s, dateText, timeText);
      ReadColumns(line[..|line| - 1]) == [a, b] + CsvColumns(s, dateText, timeText)[1..]
    ensures var line := CsvLineAsWritten(s, dateText, timeText);
      |ReadColumns(line[..|line| - 1])| == |ReadColumns(CsvHeader[..|CsvHeader| - 1])| + 1
  {
    var columns := CsvColumns(s, dateText, timeText);
    LaterColumnsAvoid(s, dateText, timeText, ',');
    LaterColumnsAvoid(s, dateText, timeText, '"');
    CommaSplitsFirst(columns, a, b);
    RowBody(columns);
    HeaderColumns();
  }

  /** A comma or double quote the time formatter never writes is in no column after the date. */
  lemma LaterColumnsAvoid(s: Session, dateText: int -> string, timeText: int -> string, c: char)
    requires c == ',' || c == '"'
    requires Avoids(timeText, c)
    ensures forall i :: 1 <= i < 5 ==> c !in CsvColumns(s, dateText, timeText)[i]
  {
    var columns := CsvColumns(s, dateText, timeText);
    AvoidsAt(timeText, c, s.startTime);
    EndColumnAvoids(s, timeText, c);
    DurationPlain(s);
    EntryTypePlain(s);
    forall i | 1 <= i < 5
      ensures c !in columns[i]
    {
    }
  }

  /** "Oct 16, 2026", the medium style's date for today, holds the comma. */
  lemma MediumDateAddsColumn(s: Session, dateText: int -> string, timeText: int -> string)
    requires dateText(s.startTime) == "Oct 16, 2026"
    requires Avoids(timeText, ',') && Avoids(timeText, '"')
    ensures var line := CsvLineAsWritten(s, dateText, timeText);
      |ReadColumns(line[..|line| - 1])| == 6
  {
    var a, b := "Oct 16", " 2026";
    PlainTextAvoids(a);
    PlainTextAvoids(b);
    assert dateText(s.startTime) == a + "," + b;
    DateCommaAddsColumn(s, dateText, timeText, a, b);
  }

  /** `"WorkPulse_Sessions_\(stem)\(ext)"`, the shape of both export file names. */
  function ExportName(stem: string, ext: string): (name: string)
    requires |ext| == 4
    ensures |name| == 19 + |stem| + 4
    ensures StartsWith(name, "WorkPulse_Sessions_") && EndsWith(name, ext)
    ensures name[19..|name| - 4] == stem
  {
    var name := "WorkPulse_Sessions_" + stem + ext;
    assert name[..19] == "WorkPulse_Sessions_";
    assert name[|name| - 4..] == ext;
    name
  }

  /** With no day selected the file names say "All_Sessions". */
  lemma AllSessionsStem()
    ensures ReplaceChar("All Sessions", ' ', '_') == "All_Sessions"
  {
  }

  /** `exportAsCSV`'s file name: the day's medium date with spaces turned into underscores, or "All_Sessions". */
  function CsvFilename(selectedExportDay: Option<int>, dateText: int -> string): (name: string)
    ensures StartsWith(name, "WorkPulse_Sessions_") && EndsWith(name, ".csv") && |name| >= 23
    ensures selectedExportDay.None? ==> name == "WorkPulse_Sessions_All_Sessions.csv"
    ensures selectedExportDay.Some? ==> name[19..|name| - 4] == ReplaceChar(dateText(selectedExportDay.value), ' ', '_')
  {
    var dateString := if selectedExportDay.Some? then ReplaceChar(dateText(selectedExportDay.value), ' ', '_') else "All_Sessions";
    ExportName(dateString, ".csv")
  }

  /** `exportAsPDF`'s label and file name: the spaces are replaced only in the file name. */
  function PdfLabel(selectedExportDay: Option<int>, dateText: int -> string): string {
    if selectedExportDay.Some? then dateText(selectedExportDay.value) else "All Sessions"
  }

  function PdfFilename(selectedExportDay: Option<int>, dateText: int -> string): (name: string)
    ensures StartsWith(name, "WorkPulse_Sessions_") && EndsWith(name, ".pdf") && |name| >= 23
    ensures selectedExportDay.None? ==> name == "WorkPulse_Sessions_All_Sessions.pdf"
    ensures selectedExportDay.Some? ==> name[19..|name| - 4] == ReplaceChar(dateText(selectedExportDay.value), ' ', '_')
  {
    AllSessionsStem();
    ExportName(ReplaceChar(PdfLabel(selectedExportDay, dateText), ' ', '_'), ".pdf")
  }

  /** No export file name contains a space, and the CSV and PDF names differ only in the extension. */
  lemma FilenamesAgree(selectedExportDay: Option<int>, dateText: int -> string)
    ensures ' ' !in CsvFilename(selectedExportDay, dateText) && ' ' !in PdfFilename(selectedExportDay, dateText)
    ensures var c, p := CsvFilename(selectedExportDay, dateText), PdfFilename(selectedExportDay, dateText);
      |c| == |p| && c[..|c| - 4] == p[..|p| - 4]
  {
    var caption := PdfLabel(selectedExportDay, dateText);
    var stem := ReplaceChar(caption, ' ', '_');
    if selectedExportDay.None? {
      assert stem == "All_Sessions";
    }
    assert ' ' !in stem;
    var c, p := CsvFilename(selectedExportDay, dateText), PdfFilename(selectedExportDay, dateText);
    assert c == "WorkPulse_Sessions_" + stem + ".csv";
    assert c[..|c| - 4] == "WorkPulse_Sessions_" + stem;
    assert p[..|p| - 4] == "WorkPulse_Sessions_" + stem;
  }

  /** What an export hands to the share sheet. */
  datatype ExportFile =
    | CsvFile(filename: string, content: string)
    | PdfFile(filename: string, caption: string, sessions: seq<Session>)

  datatype ExportFormat = CsvFormat | PdfFormat

  /** The `switch format` of `exportSessions`: the CSV text, or the inputs of the PDF renderer. */
  method MakeFile(sessions: seq<Session>, selectedExportDay: Option<int>, format: ExportFormat,
                  dateText: int -> string, timeText: int -> string)
    returns (file: ExportFile)
    ensures format == CsvFormat ==> file == CsvFile(CsvFilename(selectedExportDay, dateText), CsvAsWritten(sessions, dateText, timeText))
    ensures format == PdfFormat ==>
      file == PdfFile(PdfFilename(selectedExportDay, dateText), PdfLabel(selectedExportDay, dateText), sessions)
  {
    match format
    case CsvFormat =>
      var csvString := BuildCsv(sessions, dateText, timeText);
      file := CsvFile(CsvFilename(selectedExportDay, dateText), csvString);
    case PdfFormat =>
      file := PdfFile(PdfFilename(selectedExportDay, dateText), PdfLabel(selectedExportDay, dateText), sessions);
  }

  /**
   * `exportSessions` with the chosen format: nothing when the list is
   * empty (the `guard`); otherwise the file for that list. Writing the
   * temporary file and presenting the share sheet are not modelled.
   */
  method ExportSessions(grouped: map<int, seq<Session>>, keys: seq<int>, selectedExportDay: Option<int>, tab: HistoryTab,
                        now: int, format: ExportFormat, dateText: int -> string, timeText: int -> string)
    returns (file: Option<ExportFile>)
    requires ListsKeys(keys, grouped)
    ensures var list := ExportList(grouped, keys, selectedExportDay, tab, now);
      && (file.None? <==> list == [])
      && (file.Some? && format == CsvFormat ==>
            file.value == CsvFile(CsvFilename(selectedExportDay, dateText), CsvAsWritten(list, dateText, timeText)))
      && (file.Some? && format == PdfFormat ==>
            file.value == PdfFile(PdfFilename(selectedExportDay, dateText), PdfLabel(selectedExportDay, dateText), list))
  {
    var sessions := SelectForExport(grouped, keys, selectedExportDay, tab, now);
    if sessions == [] {
      return None;
    }
    var made := MakeFile(sessions, selectedExportDay, format, dateText, timeText);
    file := Some(made);
  }

  /** `DaySection`'s total: the recorded durations of the day's sessions, summed. */
  function DaySectionTotal(sessions: seq<Session>): int
    reads Elements(sessions)`duration
  {
    TotalDuration(sessions)
  }

  /** `DaySection`'s subtitle: `"\(sessions.count) sessions · \(total)"`. */
  function DaySectionSubtitle(sessions: seq<Session>): string
    reads Elements(sessions)`duration
  {
    NatString(|sessions|) + " sessions · " + FormatHMS(DaySectionTotal(sessions))
  }

  /** The subtitle's count and total read back, the total whenever it is not negative. */
  lemma DaySectionSubtitleReadsBack(sessions: seq<Session>)
    ensures var r, k := DaySectionSubtitle(sessions), |NatString(|sessions|)|;
      && k + 12 <= |r| && ParseNat(r[..k]) == Some(|sessions|) && r[k..k + 12] == " sessions · "
      && (DaySectionTotal(sessions) >= 0 ==> ParseHMS(r[k + 12..]) == Some(DaySectionTotal(sessions)))
  {
    SubtitleReadsBack(|sessions|, DaySectionTotal(sessions));
  }

  /** `"\(count) sessions · \(total)"` reads back as its count and, when it is not negative, its total. */
  lemma SubtitleReadsBack(count: nat, total: int)
    ensures var r, k := NatString(count) + " sessions · " + FormatHMS(total), |NatString(count)|;
      && k + 12 <= |r| && ParseNat(r[..k]) == Some(count) && r[k..k + 12] == " sessions · "
      && (total >= 0 ==> ParseHMS(r[k + 12..]) == Some(total))
  {
    var n, t := NatString(count), FormatHMS(total);
    ThreePieces(n, " sessions · ", t);
    ParseNatString(count);
    if total >= 0 {
      FormatHMSRoundTrip(total);
    }
  }

  /** Each of three concatenated strings can be sliced back out. */
  lemma ThreePieces(a: string, b: string, c: string)
    ensures var r := a + b + c;
      r[..|a|] == a && r[|a|..|a| + |b|] == b && r[|a| + |b|..] == c
  {
    var r := a + b + c;
    assert r[..|a|] == a;
    assert r[|a|..|a| + |b|] == b;
    assert r[|a| + |b|..] == c;
  }

  /** Permuted lists have the same total on every day. */
  lemma DayTotalsAgree(a: seq<Session>, b: seq<Session>, day: int)
    requires multiset(a) == multiset(b)
    ensures TotalDuration(OnDay(a, day)) == TotalDuration(OnDay(b, day))
  {
    OnDayPermutes(a, b, day);
    DurationsPermute(OnDay(a, day), OnDay(b, day));
  }

  /** A day section's total, as shown in history, is the calendar's total for that day. */
  lemma DaySectionTotalIsDayTotal(vm: TimesheetViewModel, grouped: map<int, seq<Session>>, day: int)
    requires GroupsOf(grouped, vm.AllSessions())
    requires day in grouped
    ensures DaySectionTotal(grouped[day]) == vm.TotalTimeForDate(day)
  {
    var all := vm.AllSessions();
    GroupsOfCovers(grouped, all);
    assert grouped[day] == OnDay(all, day);
    assert DayStart(day) == day;
    vm.TotalTimeForDateIsStoredTotal(day);
    vm.FetchedLists();
    DayTotalsAgree(all, vm.store, day);
  }
}
