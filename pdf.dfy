/**
 * `SessionPDFRenderer`: the values the report draws. The summary shows the
 * number of sessions handed in and their total; the table shows a header
 * row of four cells, then one row of four cells per session, newest first,
 * with a divider line under rows.
 *
 * Fonts, positions, the title, the footer's timestamp and the PDF drawing
 * itself are not modelled; `timeText` is the renderer's short-time
 * `DateFormatter`.
 */
module Pdf {
  import opened Wrappers
  import opened Text
  import opened Sessions
  import opened SessionLists
  import History

  /** The "Total Sessions:" value, `"\(sessions.count)"`; it reads back as the count. */
  function SummaryCount(sessions: seq<Session>): (text: string)
    ensures ParseNat(text) == Some(|sessions|)
  {
    ParseNatString(|sessions|);
    NatString(|sessions|)
  }

  /**
   * The "Total Time:" value: the recorded durations summed and written as
   * `HH:MM:SS`; a non-negative total reads back exactly.
   */
  function SummaryTotal(sessions: seq<Session>): (text: string)
    reads Elements(sessions)`duration
    ensures TotalDuration(sessions) >= 0 ==> ParseHMS(text) == Some(TotalDuration(sessions))
  {
    var t := TotalDuration(sessions);
    if t >= 0 then FormatHMSRoundTrip(t); FormatHMS(t) else FormatHMS(t)
  }

  /** The summary does not depend on the order the sessions are handed in. */
  lemma SummaryIgnoresOrder(a: seq<Session>, b: seq<Session>)
    requires multiset(a) == multiset(b)
    ensures SummaryCount(a) == SummaryCount(b)
    ensures SummaryTotal(a) == SummaryTotal(b)
  {
    assert |a| == |multiset(a)| == |multiset(b)| == |b|;
    DurationsPermute(a, b);
  }

  /** The table's header cells. */
  const HeaderCells: seq<string> := ["Start Time", "End Time", "Duration", "Type"]

  /** A session's cells: start, end or "In Progress", duration, and "Manual" or "Automatic". */
  function RowCells(s: Session, timeText: int -> string): (cells: seq<string>)
    reads s`startTime, s`endTime, s`duration, s`isManualEntry
    ensures |cells| == |HeaderCells|
    ensures cells[0] == timeText(s.startTime)
    ensures s.endTime.None? ==> cells[1] == "In Progress"
    ensures s.endTime.Some? ==> cells[1] == timeText(s.endTime.value)
    ensures cells[2] == s.FormattedDuration()
    ensures cells[3] == "Manual" || cells[3] == "Automatic"
    ensures cells[3] == "Manual" <==> s.isManualEntry
  {
    [timeText(s.startTime),
     if s.endTime.Some? then timeText(s.endTime.value) else "In Progress",
     s.FormattedDuration(),
     if s.isManualEntry then "Manual" else "Automatic"]
  }

  /** The report's row cells are the CSV export's columns after the date. */
  lemma RowCellsAreCsvColumns(s: Session, dateText: int -> string, timeText: int -> string)
    ensures RowCells(s, timeText) == History.CsvColumns(s, dateText, timeText)[1..]
  {
  }

  /** A drawn row: its cells and whether a divider line is drawn under it. */
  datatype TableRow = TableRow(cells: seq<string>, divider: bool)

  /** The row of `sorted[i]`, with a divider unless it is the final row. */
  function RowAt(sorted: seq<Session>, i: nat, timeText: int -> string): TableRow
    requires i < |sorted|
    reads Elements(sorted)`startTime, Elements(sorted)`endTime, Elements(sorted)`duration, Elements(sorted)`isManualEntry
  {
    TableRow(RowCells(sorted[i], timeText), i < |sorted| - 1)
  }

  /** The rows for the first `k` sessions of `sorted`. */
  function RowsUpTo(sorted: seq<Session>, k: nat, timeText: int -> string): (rows: seq<TableRow>)
    requires k <= |sorted|
    reads Elements(sorted)`startTime, Elements(sorted)`endTime, Elements(sorted)`duration, Elements(sorted)`isManualEntry
    ensures |rows| == k
  {
    if k == 0 then []
    else RowsUpTo(sorted, k - 1, timeText) + [RowAt(sorted, k - 1, timeText)]
  }

  /** The table body: the sessions newest first, a divider between consecutive rows. */
  function Table(sessions: seq<Session>, timeText: int -> string): seq<TableRow>
    reads Elements(sessions)`startTime, Elements(sessions)`endTime, Elements(sessions)`duration,
      Elements(sessions)`isManualEntry
  {
    var sorted := SortDesc(sessions);
    SortDescMembers(sessions);
    assert Elements(sorted) <= Elements(sessions);
    RowsUpTo(sorted, |sorted|, timeText)
  }

  /** Row `i` of the first `k` rows is the row of `sorted[i]`. */
  lemma {:induction false} RowsUpToAt(sorted: seq<Session>, k: nat, i: nat, timeText: int -> string)
    requires i < k <= |sorted|
    ensures RowsUpTo(sorted, k, timeText)[i] == RowAt(sorted, i, timeText)
    decreases k
  {
    if i < k - 1 {
      RowsUpToAt(sorted, k - 1, i, timeText);
      assert RowsUpTo(sorted, k, timeText)[i] == RowsUpTo(sorted, k - 1, timeText)[i];
    }
  }

  /**
   * One row per session handed in, newest first whatever their order: row
   * `i` shows the `i`-th session of the newest-first order, a permutation
   * of the input, and a divider separates each row from the next.
   */
  lemma TableRows(sessions: seq<Session>, timeText: int -> string)
    ensures var rows, sorted := Table(sessions, timeText), SortDesc(sessions);
      && |rows| == |sessions|
      && SortedDesc(sorted) && multiset(sorted) == multiset(sessions)
      && forall i :: 0 <= i < |rows| ==>
           rows[i].cells == RowCells(sorted[i], timeText) && (rows[i].divider <==> i < |rows| - 1)
  {
    SortDescMembers(sessions);
    var sorted := SortDesc(sessions);
    var rows := Table(sessions, timeText);
    forall i | 0 <= i < |rows|
      ensures rows[i].cells == RowCells(sorted[i], timeText) && (rows[i].divider <==> i < |rows| - 1)
    {
      RowsUpToAt(sorted, |sorted|, i, timeText);
    }
  }

  /**
   * The rows of `addSessionsTable`'s loop over the newest-first list, with a
   * divider under every row whose session is not the last of the list handed in.
   */
  method SessionsTable(sessions: seq<Session>, timeText: int -> string) returns (rows: seq<TableRow>)
    ensures rows == TableAsWritten(sessions, timeText)
  {
    rows := [];
    if sessions == [] {
      return;
    }
    var last := sessions[|sessions| - 1];
    var sorted := SortDesc(sessions);
    var i := 0;
    while i < |sorted|
      invariant 0 <= i <= |sorted|
      invariant rows == RowsAsWrittenUpTo(sorted, i, last, timeText)
    {
      var session := sorted[i];
      var startTime := timeText(session.startTime);
      var endTime := if session.endTime.Some? then timeText(session.endTime.value) else "In Progress";
      var duration := session.FormattedDuration();
      var kind := if session.isManualEntry then "Manual" else "Automatic";
      rows := rows + [TableRow([startTime, endTime, duration, kind], session != last)];
      assert rows == RowsAsWrittenUpTo(sorted, i + 1, last, timeText);
      i := i + 1;
    }
  }

  /**
   * The divider test as written: a divider under every row whose session is
   * not the last one of the list handed in, before sorting.
   */
  function RowAsWritten(sorted: seq<Session>, i: nat, last: Session, timeText: int -> string): TableRow
    requires i < |sorted|
    reads Elements(sorted)`startTime, Elements(sorted)`endTime, Elements(sorted)`duration, Elements(sorted)`isManualEntry
  {
    TableRow(RowCells(sorted[i], timeText), sorted[i] != last)
  }

  function RowsAsWrittenUpTo(sorted: seq<Session>, k: nat, last: Session, timeText: int -> string): (rows: seq<TableRow>)
    requires k <= |sorted|
    reads Elements(sorted)`startTime, Elements(sorted)`endTime, Elements(sorted)`duration, Elements(sorted)`isManualEntry
    ensures |rows| == k
  {
    if k == 0 then []
    else RowsAsWrittenUpTo(sorted, k - 1, last, timeText) + [RowAsWritten(sorted, k - 1, last, timeText)]
  }

  /** `addSessionsTable`'s rows with `session != sessions.last` deciding the divider. */
  function TableAsWritten(sessions: seq<Session>, timeText: int -> string): seq<TableRow>
    reads Elements(sessions)`startTime, Elements(sessions)`endTime, Elements(sessions)`duration,
      Elements(sessions)`isManualEntry
  {
    if sessions == [] then []
    else
      var sorted := SortDesc(sessions);
      SortDescMembers(sessions);
      assert Elements(sorted) <= Elements(sessions);
      RowsAsWrittenUpTo(sorted, |sorted|, sessions[|sessions| - 1], timeText)
  }

  /** Row `i` of the first `k` rows as written is `RowAsWritten(sorted, i, …)`. */
  lemma {:induction false} RowsAsWrittenAt(sorted: seq<Session>, k: nat, i: nat, last: Session, timeText: int -> string)
    requires i < k <= |sorted|
    ensures RowsAsWrittenUpTo(sorted, k, last, timeText)[i] == RowAsWritten(sorted, i, last, timeText)
    decreases k
  {
    if i < k - 1 {
      RowsAsWrittenAt(sorted, k - 1, i, last, timeText);
      assert RowsAsWrittenUpTo(sorted, k, last, timeText)[i] == RowsAsWrittenUpTo(sorted, k - 1, last, timeText)[i];
    }
  }

  /**
   * Handed an older session followed by a newer one, the report as written
   * draws no divider between the two rows and a divider under the final row.
   */
  lemma DividerAfterFinalRow(older: Session, newer: Session, timeText: int -> string)
    requires older != newer && older.startTime < newer.startTime
    ensures var rows := TableAsWritten([older, newer], timeText);
      |rows| == 2 && !rows[0].divider && rows[1].divider
    ensures var rows := Table([older, newer], timeText);
      |rows| == 2 && rows[0].divider && !rows[1].divider
  {
    var ss := [older, newer];
    var sorted := SortDesc(ss);
    SortDescMembers(ss);
    DistinctPermutes(ss, sorted);
    assert sorted[0] in ss && sorted[1] in ss;
    assert sorted[0] != sorted[1];
    assert sorted[0].startTime >= sorted[1].startTime;
    assert sorted[0] == newer && sorted[1] == older;
    RowsAsWrittenAt(sorted, 2, 0, newer, timeText);
    RowsAsWrittenAt(sorted, 2, 1, newer, timeText);
    TableRows(ss, timeText);
  }

  /**
   * When the list handed in ends with its oldest row (as the history
   * export's newest-first lists do) and holds no session twice, the test as
   * written draws the same dividers.
   */
  lemma AsWrittenAgreesOnSortedInput(sessions: seq<Session>, timeText: int -> string)
    requires sessions != [] && Distinct(sessions)
    requires var sorted := SortDesc(sessions); |sorted| > 0 && sorted[|sorted| - 1] == sessions[|sessions| - 1]
    ensures TableAsWritten(sessions, timeText) == Table(sessions, timeText)
  {
    var sorted := SortDesc(sessions);
    SortDescMembers(sessions);
    DistinctPermutes(sessions, sorted);
    var last := sessions[|sessions| - 1];
    var a, b := TableAsWritten(sessions, timeText), Table(sessions, timeText);
    forall i | 0 <= i < |a|
      ensures a[i] == b[i]
    {
      RowsAsWrittenAt(sorted, |sorted|, i, last, timeText);
      RowsUpToAt(sorted, |sorted|, i, timeText);
      if i < |sorted| - 1 {
        assert sorted[i] != sorted[|sorted| - 1];
      }
    }
  }
}
