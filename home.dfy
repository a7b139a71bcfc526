/**
 * The home screen's derived statistics (`HomeView`): the progress ring, the
 * average session, the last break and the colour of a session row, and the
 * two actions that reach the view model: the floating timer button and the
 * manual-entry sheet's save.
 *
 * `today` is the active view model's `todaySessions`, `None` when the
 * screen has no view model (`activeViewModel == nil`).
 */
module Home {
  import opened Wrappers
  import opened Text
  import opened Clock
  import opened Sessions
  import opened SessionLists
  import opened Stats
  import opened Theme
  import opened Timesheet

  /** The ring is full after eight hours. */
  const WorkdaySeconds: int := 8 * 3600

  /**
   * `circularProgressValue = min(todayTotalTime / (8 * 3600), 1.0)`, as the
   * numerator of a fraction of `WorkdaySeconds`; 0 without a view model.
   */
  function CircularProgress(todayTotal: Option<int>): (p: int)
    ensures p <= WorkdaySeconds
    ensures todayTotal.None? ==> p == 0
    ensures todayTotal.Some? && todayTotal.value <= WorkdaySeconds ==> p == todayTotal.value
  {
    match todayTotal
    case None => 0
    case Some(t) => if t < WorkdaySeconds then t else WorkdaySeconds
  }

  /** More work never shrinks the ring, and it is full exactly from eight hours on. */
  lemma CircularProgressMonotone(t: int, u: int)
    requires t <= u
    ensures CircularProgress(Some(t)) <= CircularProgress(Some(u))
    ensures CircularProgress(Some(t)) == WorkdaySeconds <==> t >= WorkdaySeconds
  {
  }

  /** The session objects of `today`, if there is a view model. */
  function Listed(today: Option<seq<Session>>): set<Session> {
    if today.Some? then Elements(today.value) else {}
  }

  /** The average badge: nil without a view model, otherwise `calculateAverageSessionTime`. */
  function HomeAverage(today: Option<seq<Session>>): (r: Option<string>)
    reads Listed(today)`duration
    ensures r.None? <==> today.None? || forall s :: s in today.value ==> s.duration.None?
  {
    if today.None? then None else AverageSessionTime(today.value)
  }

  /**
   * The seconds between the end of the second-newest session and the start
   * of the newest one, after sorting by start time, newest first; nil when
   * there is no view model, fewer than two sessions, or either of the two
   * has no end time.
   */
  function BreakSeconds(today: Option<seq<Session>>): (r: Option<int>)
    reads Listed(today)`startTime, Listed(today)`endTime
    ensures today.None? || |today.value| < 2 ==> r.None?
  {
    if today.None? || |today.value| < 2 then None
    else
      var sorted := SortDesc(today.value);
      assert |sorted| == |today.value| by {
        assert |multiset(sorted)| == |multiset(today.value)|;
      }
      SortDescWithin(today.value);
      if sorted[0].endTime.None? || sorted[1].endTime.None? then None
      else Some(sorted[0].startTime - sorted[1].endTime.value)
  }

  /** `formattedLastBreak()`: "--:--", whole minutes "Nm" under an hour, otherwise `H:MM`. */
  function FormattedLastBreak(today: Option<seq<Session>>): (r: string)
    reads Listed(today)`startTime, Listed(today)`endTime
    ensures r == "--:--" <==> BreakSeconds(today).None?
    ensures BreakSeconds(today).Some? && BreakSeconds(today).value < 3600 ==>
      r == IntString(Quot(BreakSeconds(today).value, 60)) + "m"
    ensures BreakSeconds(today).Some? && BreakSeconds(today).value >= 3600 ==>
      r == FormatHM(BreakSeconds(today).value)
  {
    match BreakSeconds(today)
    case None => "--:--"
    case Some(b) =>
      if b < 3600 then
        var m := IntString(Quot(b, 60)) + "m";
        assert m[|m| - 1] == 'm';
        m
      else
        FormatHMEndsWithDigit(b);
        FormatHM(b)
  }

  /** `H:MM` of a non-negative duration ends with a digit. */
  lemma FormatHMEndsWithDigit(t: int)
    requires t >= 0
    ensures var s := FormatHM(t); IsDigit(s[|s| - 1])
  {
    HmsFields(t);
    var s := FormatHM(t);
    var m := Pad2(Minutes(t));
    assert s == IntString(Hours(t)) + ":" + m;
    assert s[|s| - 1] == m[1];
  }

  /**
   * `b` is measured from the end of `ss[j]` to the start of `ss[i]`, two
   * different positions, both ended: `ss[i]` starts no earlier than any
   * listed session, `ss[j]` no earlier than any other.
   */
  ghost predicate BreakBetween(ss: seq<Session>, i: int, j: int, b: int)
    reads Elements(ss)`startTime, Elements(ss)`endTime
  {
    && 0 <= i < |ss| && 0 <= j < |ss| && i != j && ss[i].endTime.Some? && ss[j].endTime.Some?
    && b == ss[i].startTime - ss[j].endTime.value
    && (forall k :: 0 <= k < |ss| ==> ss[k].startTime <= ss[i].startTime)
    && (forall k :: 0 <= k < |ss| && k != i ==> ss[k].startTime <= ss[j].startTime)
  }

  /** For sessions from the store (no object twice), the break lies between the newest two. */
  lemma BreakIsBetweenNewestTwo(ss: seq<Session>)
    requires Distinct(ss)
    requires BreakSeconds(Some(ss)).Some?
    ensures exists i, j :: BreakBetween(ss, i, j, BreakSeconds(Some(ss)).value)
  {
    var r := SortDesc(ss);
    SortDescMembers(ss);
    DistinctPermutes(ss, r);
    assert r[0] in ss && r[1] in ss;
    var i :| 0 <= i < |ss| && ss[i] == r[0];
    var j :| 0 <= j < |ss| && ss[j] == r[1];
    NewestTwo(ss, r, i, j);
    var b := BreakSeconds(Some(ss)).value;
    assert r[0] != r[1];
    assert b == r[0].startTime - r[1].endTime.value;
    assert BreakBetween(ss, i, j, b);
  }

  /** While the session that started last is still open there is no break: "--:--". */
  lemma NoBreakWhileNewestOpen(ss: seq<Session>, i: int)
    requires 0 <= i < |ss| && ss[i].endTime.None?
    requires forall k :: 0 <= k < |ss| && ss[k] != ss[i] ==> ss[k].startTime < ss[i].startTime
    ensures BreakSeconds(Some(ss)).None?
  {
    if |ss| >= 2 {
      var r := SortDesc(ss);
      SortDescMembers(ss);
      SortDescHeadIsNewest(ss, ss[i]);
      assert r[0] in ss;
      var k :| 0 <= k < |ss| && ss[k] == r[0];
      assert r[0] == ss[i];
    }
  }

  /** The positions in `ss` of the first two sessions of its newest-first order. */
  lemma NewestTwo(ss: seq<Session>, r: seq<Session>, i: int, j: int)
    requires Distinct(ss) && Distinct(r) && SortedDesc(r) && |r| >= 2
    requires forall s :: s in ss ==> s in r
    requires 0 <= i < |ss| && 0 <= j < |ss| && ss[i] == r[0] && ss[j] == r[1]
    ensures forall k :: 0 <= k < |ss| ==> ss[k].startTime <= ss[i].startTime
    ensures forall k :: 0 <= k < |ss| && k != i ==> ss[k].startTime <= ss[j].startTime
  {
    forall k | 0 <= k < |ss|
      ensures ss[k].startTime <= ss[i].startTime
      ensures k != i ==> ss[k].startTime <= ss[j].startTime
    {
      assert ss[k] in r;
      var p :| 0 <= p < |r| && r[p] == ss[k];
      if p > 1 {
        assert r[1].startTime >= r[p].startTime;
      }
    }
  }

  /** The rank of a row colour: secondary below accent below success. */
  function ColorRank(c: PaletteColor): int {
    match c
    case Secondary => 0
    case Accent => 1
    case Success => 2
  }

  /** `sessionColor(for:)`: success above an hour, accent above half an hour or without a duration, else secondary. */
  function SessionColor(s: Session): (c: PaletteColor)
    reads s`duration
    ensures c == Success <==> s.duration.Some? && s.duration.value > 3600
    ensures c == Secondary <==> s.duration.Some? && s.duration.value <= 1800
  {
    match s.duration
    case None => Accent
    case Some(d) => if d > 3600 then Success else if d > 1800 then Accent else Secondary
  }

  /** A longer session never gets a lower-ranked colour. */
  lemma SessionColorMonotone(a: Session, b: Session)
    requires a.duration.Some? && b.duration.Some? && a.duration.value <= b.duration.value
    ensures ColorRank(SessionColor(a)) <= ColorRank(SessionColor(b))
  {
  }

  /** The message shown after a manual entry is saved. */
  const ManualAddedMessage: string := "Manual session added successfully! \U{2705}"

  /** The parts of `HomeView`'s state that the two actions change. */
  class HomeScreen {
    /** `activeViewModel` */
    var vm: TimesheetViewModel?
    var showingManualEntrySheet: bool
    var showToast: bool
    var toastMessage: string
    var isSuccessToast: bool

    constructor (vm: TimesheetViewModel?)
      ensures this.vm == vm
      ensures !showingManualEntrySheet && !showToast && toastMessage == "" && isSuccessToast
    {
      this.vm := vm;
      showingManualEntrySheet := false;
      showToast := false;
      toastMessage := "";
      isSuccessToast := true;
    }

    /**
     * The floating timer button: stop and show a stop message while the view
     * model runs, otherwise start (nothing to start without a view model)
     * and show a start message. `choice` is the random pick of the message.
     */
    method TimerButton(now: int, choice: int)
      requires vm != null ==> vm.Valid()
      modifies this`showToast, this`toastMessage, this`isSuccessToast, vm
      ensures vm == old(vm) && showToast
      ensures vm != null ==> vm.Valid()
      ensures old(vm != null && vm.isRunning) ==>
        !vm.isRunning && toastMessage == RandomStopMessage(choice) && isSuccessToast
        && vm.AddedOne(old(vm.store), old(vm.sessionStartTime).value, now, false)
      ensures !old(vm != null && vm.isRunning) ==>
        toastMessage == RandomStartMessage(choice) && !isSuccessToast
      ensures vm != null && !old(vm.isRunning) ==>
        vm.isRunning == !old(vm.isDayEnded) && vm.store == old(vm.store)
      ensures vm != null ==>
        vm.isDayEnded == old(vm.isDayEnded) && vm.lastRecordedDay == old(vm.lastRecordedDay)
        && (old(vm.RecordsValid()) ==> vm.RecordsValid())
      ensures vm != null && old(vm.isRunning) ==>
        vm.sessionStartTime.None? && vm.currentTime == 0 && vm.fetchDay == DayStart(now)
      ensures vm != null && !old(vm.isRunning) && !old(vm.isDayEnded) ==>
        vm.sessionStartTime == Some(now) && vm.currentTime == 0 && vm.fetchDay == old(vm.fetchDay)
      ensures vm != null && !old(vm.isRunning) && old(vm.isDayEnded) ==>
        vm.sessionStartTime == old(vm.sessionStartTime) && vm.currentTime == old(vm.currentTime)
        && vm.fetchDay == old(vm.fetchDay)
    {
      if vm != null && vm.isRunning {
        vm.StopTimer(now);
        toastMessage := RandomStopMessage(choice);
        isSuccessToast := true;
        showToast := true;
      } else {
        if vm != null {
          vm.StartTimer(now);
        }
        toastMessage := RandomStartMessage(choice);
        isSuccessToast := false;
        showToast := true;
      }
    }

    /** The manual-entry sheet's `onSave`: add the session, close the sheet, show the success toast. */
    method SaveManualEntry(startTime: int, endTime: int, now: int)
      requires vm != null && vm.Valid()
      modifies this`showingManualEntrySheet, this`showToast, this`toastMessage, this`isSuccessToast
      modifies vm`store, vm`fetchDay
      ensures vm.Valid() && vm.AddedOne(old(vm.store), startTime, endTime, true)
      ensures !showingManualEntrySheet && showToast && isSuccessToast
      ensures toastMessage == ManualAddedMessage
    {
      vm.AddManualSession(startTime, endTime, now);
      showingManualEntrySheet := false;
      toastMessage := ManualAddedMessage;
      isSuccessToast := true;
      showToast := true;
    }

    /** The manual-entry sheet's `onCancel`: close the sheet and nothing else. */
    method CancelManualEntry()
      modifies this`showingManualEntrySheet
      ensures !showingManualEntrySheet
    {
      showingManualEntrySheet := false;
    }
  }
}
