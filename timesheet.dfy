/**
 * `TimesheetViewModel`: the timer and day-ended state machine, the session
 * store and the queries the views run over it.
 *
 * The persistent store (a SwiftData model context) is the field `store`, in
 * insertion order; the two `UserDefaults` keys are `dayEndedFlag` and
 * `lastRecordedDay`; the wall clock is the `now` parameter of each method;
 * the repeating one-second `Timer` is the `Tick` method, which the platform
 * calls only while the timer is scheduled, that is while `isRunning`.
 *
 * `todaySessions` and `allSessions` are the results of the two fetches of
 * `loadSessions`. Every change to the store is followed by a reload, so the
 * model keeps the day start the last reload used (`fetchDay`) and defines the
 * two arrays as those fetches over the current store.
 */
module Timesheet {
  import opened Wrappers
  import opened Clock
  import opened Text
  import opened Sessions
  import opened SessionLists

  class TimesheetViewModel {
    var currentTime: int
    var isRunning: bool
    var sessionStartTime: Option<int>
    var isDayEnded: bool

    /** The sessions in the persistent store. */
    var store: seq<Session>
    /** `UserDefaults` key "WorkPulse.isDayEnded". */
    var dayEndedFlag: bool
    /** `UserDefaults` key "WorkPulse.lastRecordedDate", parsed; `None` when absent or unreadable. */
    var lastRecordedDay: Option<int>
    /** The start of the day the last `loadSessions` fetched `todaySessions` for. */
    var fetchDay: int

    /**
     * The state machine's invariant: a start time exactly while running, the
     * tick counter at 0 while idle, never running once the day is ended, the
     * in-memory flag mirrors the stored one, and no session is stored twice.
     */
    ghost predicate Valid()
      reads this
    {
      && (isRunning <==> sessionStartTime.Some?)
      && currentTime >= 0
      && (!isRunning ==> currentTime == 0)
      && (isRunning ==> !isDayEnded)
      && isDayEnded == dayEndedFlag
      && Distinct(store)
    }

    /** Every stored session's duration agrees with its times. */
    ghost predicate RecordsValid()
      reads this`store, Elements(store)
    {
      forall s :: s in store ==> s.duration == DerivedDuration(s.startTime, s.endTime)
    }

    /** `todaySessions`: the fetch of the sessions starting on `fetchDay`, newest first. */
    function TodaySessions(): (r: seq<Session>)
      reads this`store, this`fetchDay, Elements(store)`startTime
      ensures forall s :: s in r ==> s in store
    {
      OnDaySorted(store, fetchDay)
    }

    /** `allSessions`: the fetch of every stored session, newest first. */
    function AllSessions(): (r: seq<Session>)
      reads this`store, Elements(store)`startTime
      ensures forall s :: s in r ==> s in store
    {
      AllSorted(store)
    }

    /**
     * What the two fetches give: today's list holds exactly the stored
     * sessions that start on the fetched day, the full list is a permutation
     * of the store, and both are newest first.
     */
    lemma FetchedLists()
      ensures forall s :: s in TodaySessions() ==> s in store && StartsOn(s, fetchDay)
      ensures forall s :: s in store && StartsOn(s, fetchDay) ==> s in TodaySessions()
      ensures SortedDesc(TodaySessions()) && SortedDesc(AllSessions())
      ensures multiset(AllSessions()) == multiset(store)
    {
      OnDaySortedMembers(store, fetchDay);
    }

    /** `init(modelContext:)`: read the stored flag, run the day check, load the sessions. */
    constructor (now: int, persisted: seq<Session>, storedDayEnded: bool, storedLastDay: Option<int>)
      requires Distinct(persisted)
      ensures Valid()
      ensures store == persisted && fetchDay == DayStart(now)
      ensures !isRunning && currentTime == 0
      ensures isDayEnded == (storedDayEnded && !(storedLastDay.Some? && DayStart(storedLastDay.value) != DayStart(now)))
      ensures lastRecordedDay == Some(DayStart(now))
    {
      currentTime := 0;
      isRunning := false;
      sessionStartTime := None;
      store := persisted;
      dayEndedFlag := storedDayEnded;
      lastRecordedDay := storedLastDay;
      fetchDay := 0;
      isDayEnded := storedDayEnded;
      new;
      CheckAndResetDayStatus(now);
      LoadSessions(now);
    }

    /**
     * `checkAndResetDayStatus`: the day-ended flag is cleared only when a
     * last-recorded day exists and is not today; today is always recorded.
     */
    method CheckAndResetDayStatus(now: int)
      requires Valid()
      modifies this`isDayEnded, this`dayEndedFlag, this`lastRecordedDay
      ensures Valid()
      ensures var last := old(lastRecordedDay);
        isDayEnded == (old(isDayEnded) && !(last.Some? && DayStart(last.value) != DayStart(now)))
      ensures lastRecordedDay == Some(DayStart(now))
    {
      var today := DayStart(now);
      if lastRecordedDay.Some? {
        var lastDay := DayStart(lastRecordedDay.value);
        if lastDay != today {
          isDayEnded := false;
          dayEndedFlag := false;
        }
      }
      lastRecordedDay := Some(today);
    }

    /** `endDay`: stop a running timer (saving its session), then mark the day ended. */
    method EndDay(now: int)
      requires Valid()
      modifies this
      ensures Valid()
      ensures isDayEnded && dayEndedFlag && lastRecordedDay == old(lastRecordedDay)
      ensures !isRunning && sessionStartTime.None? && currentTime == 0
      ensures !old(isRunning) ==> store == old(store) && fetchDay == old(fetchDay)
      ensures old(isRunning) ==> AddedOne(old(store), old(sessionStartTime).value, now, false)
      ensures old(isRunning) ==> fetchDay == DayStart(now)
      ensures old(RecordsValid()) ==> RecordsValid()
    {
      if isRunning {
        StopTimer(now);
      }
      isDayEnded := true;
      dayEndedFlag := true;
    }

    /** `resumeDay`: clear the day-ended flag and nothing else. */
    method ResumeDay()
      requires Valid()
      modifies this`isDayEnded, this`dayEndedFlag
      ensures Valid()
      ensures !isDayEnded && !dayEndedFlag
    {
      isDayEnded := false;
      dayEndedFlag := false;
    }

    /** `startTimer`: ignored once the day is ended or while running; otherwise start counting from `now`. */
    method StartTimer(now: int)
      requires Valid()
      modifies this`isRunning, this`sessionStartTime
      ensures Valid()
      ensures old(isDayEnded || isRunning) ==> isRunning == old(isRunning) && sessionStartTime == old(sessionStartTime)
      ensures !old(isDayEnded || isRunning) ==> isRunning && sessionStartTime == Some(now) && currentTime == 0
    {
      if isDayEnded {
        return;
      }
      if isRunning {
        return;
      }
      isRunning := true;
      sessionStartTime := Some(now);
    }

    /** One firing of the one-second timer: `currentTime += 1`. The timer exists only while running. */
    method Tick()
      requires Valid() && isRunning
      modifies this`currentTime
      ensures Valid()
      ensures currentTime == old(currentTime) + 1
      ensures TodayTotalTime() == old(TodayTotalTime()) + 1
    {
      ghost var done := CompletedToday();
      currentTime := currentTime + 1;
      assert CompletedToday() == done;
    }

    /**
     * The stored sessions are the old ones plus one new session at the end,
     * with the given times and kind and a duration derived from them.
     */
    ghost predicate AddedOne(before: seq<Session>, startTime: int, endTime: int, manual: bool)
      reads this`store, Elements(store)
    {
      && |store| == |before| + 1
      && store[..|before|] == before
      && var s := store[|before|];
        s.startTime == startTime && s.endTime == Some(endTime)
        && s.duration == Some(endTime - startTime) && s.isManualEntry == manual
    }

    /**
     * `stopTimer`: ignored unless running; otherwise save one automatic
     * session from the recorded start to the wall clock `now` (its duration
     * need not equal the ticked `currentTime`) and reset the timer.
     */
    method StopTimer(now: int)
      requires Valid()
      modifies this
      ensures Valid()
      ensures isDayEnded == old(isDayEnded) && lastRecordedDay == old(lastRecordedDay)
      ensures !isRunning && sessionStartTime.None? && currentTime == 0
      ensures !old(isRunning) ==> store == old(store) && fetchDay == old(fetchDay)
      ensures old(isRunning) ==> AddedOne(old(store), old(sessionStartTime).value, now, false)
      ensures old(isRunning) ==> fresh(store[|store| - 1]) && fetchDay == DayStart(now)
      ensures old(RecordsValid()) ==> RecordsValid()
    {
      if !isRunning || sessionStartTime.None? {
        return;
      }
      var startTime := sessionStartTime.value;
      isRunning := false;
      var newSession := new Session(startTime, Some(now), false);
      SaveSession(newSession, now);
      currentTime := 0;
      sessionStartTime := None;
    }

    /** `saveSession`: insert into the store (inserting a stored object again changes nothing), then reload. */
    method SaveSession(s: Session, now: int)
      modifies this`store, this`fetchDay
      ensures fetchDay == DayStart(now)
      ensures store == if s in old(store) then old(store) else old(store) + [s]
      ensures old(Distinct(store)) ==> Distinct(store)
      ensures old(RecordsValid()) && s.duration == DerivedDuration(s.startTime, s.endTime) ==> RecordsValid()
    {
      if s !in store {
        store := store + [s];
      }
      LoadSessions(now);
    }

    /** `deleteSession`: remove the object from the store, then reload. */
    method DeleteSession(s: Session, now: int)
      requires Valid()
      modifies this`store, this`fetchDay
      ensures Valid() && fetchDay == DayStart(now)
      ensures store == Without(old(store), s)
      ensures s !in store
      ensures old(RecordsValid()) ==> RecordsValid()
    {
      store := Without(store, s);
      LoadSessions(now);
    }

    /**
     * `updateSession`: recompute the duration from the (already edited)
     * times when there is an end time, then reload. It does not check that
     * the end is after the start.
     */
    method UpdateSession(s: Session, now: int)
      requires Valid()
      modifies s`duration, this`fetchDay
      ensures Valid() && fetchDay == DayStart(now)
      ensures s.endTime.Some? ==> s.duration == Some(s.endTime.value - s.startTime)
      ensures s.endTime.None? ==> s.duration == old(s.duration)
      ensures s.endTime.Some? ==> s.duration == DerivedDuration(s.startTime, s.endTime)
      ensures old(RecordsValid()) ==> RecordsValid()
    {
      if s.endTime.Some? {
        s.duration := Some(s.endTime.value - s.startTime);
      }
      LoadSessions(now);
    }

    /** `addManualSession`: save a manual session with the given times (the form has already checked them). */
    method AddManualSession(startTime: int, endTime: int, now: int)
      requires Valid()
      modifies this`store, this`fetchDay
      ensures Valid() && fetchDay == DayStart(now)
      ensures AddedOne(old(store), startTime, endTime, true) && fresh(store[|store| - 1])
      ensures old(RecordsValid()) ==> RecordsValid()
    {
      var newSession := new Session(startTime, Some(endTime), true);
      SaveSession(newSession, now);
    }

    /** `loadSessions`: refetch both lists, today's for the day of `now`. */
    method LoadSessions(now: int)
      modifies this`fetchDay
      ensures fetchDay == DayStart(now) && fetchDay % SecondsPerDay == 0
      ensures forall s :: s in TodaySessions() <==> s in store && DayStart(now) <= s.startTime < DayEnd(now)
    {
      fetchDay := DayStart(now);
      OnDaySortedMembers(store, fetchDay);
    }

    /** The recorded durations of today's sessions. */
    function CompletedToday(): int
      reads this`store, this`fetchDay, Elements(store)`startTime, Elements(store)`duration
    {
      TotalDuration(TodaySessions())
    }

    /** `todayTotalTime`: the completed durations of today, plus the running count while the timer runs. */
    function TodayTotalTime(): int
      reads this`store, this`fetchDay, this`isRunning, this`currentTime, Elements(store)`startTime, Elements(store)`duration
    {
      CompletedToday() + (if isRunning then currentTime else 0)
    }

    /** `formattedCurrentTime` */
    function FormattedCurrentTime(): (text: string)
      reads this
      ensures currentTime >= 0 ==> ParseHMS(text) == Some(currentTime)
    {
      if currentTime >= 0 then FormatHMSRoundTrip(currentTime); FormatHMS(currentTime) else FormatHMS(currentTime)
    }

    /** `formattedTodayTotalTime` */
    function FormattedTodayTotalTime(): (text: string)
      reads this`store, this`fetchDay, this`isRunning, this`currentTime, Elements(store)`startTime, Elements(store)`duration
      ensures TodayTotalTime() >= 0 ==> ParseHMS(text) == Some(TodayTotalTime())
    {
      var total := TodayTotalTime();
      if total >= 0 then FormatHMSRoundTrip(total); FormatHMS(total) else FormatHMS(total)
    }

    /** Today's total is the total over the stored sessions of the fetched day, whatever their order. */
    lemma TodayTotalIsStoredTotal()
      ensures TodayTotalTime() ==
        TotalDuration(OnDay(store, fetchDay)) + (if isRunning then currentTime else 0)
    {
      TotalDurationSort(OnDay(store, fetchDay));
    }

    /** `groupedSessions`: every session of `allSessions` under the start of its day, in list order. */
    method GroupedSessions() returns (grouped: map<int, seq<Session>>)
      ensures GroupsOf(grouped, AllSessions())
    {
      var all := AllSessions();
      grouped := GroupByDay(all);
      assert forall s :: s in Elements(store) ==> unchanged(s);
    }

    /** `hasActivityOn(date:)`: some session starts on the day of `date`. */
    predicate HasActivityOn(date: int)
      reads this`store, Elements(store)`startTime
    {
      var all := AllSessions();
      exists i :: 0 <= i < |all| && StartsOn(all[i], DayStart(date))
    }

    /** `sessionsForDate(date:)`: the sessions that start on the day of `date`, newest first. */
    function SessionsForDate(date: int): (r: seq<Session>)
      reads this`store, Elements(store)`startTime
    {
      OnDaySorted(AllSessions(), DayStart(date))
    }

    /** `totalTimeForDate(date:)` */
    function TotalTimeForDate(date: int): int
      reads this`store, Elements(store)`startTime, Elements(store)`duration
    {
      TotalDuration(SessionsForDate(date))
    }

    /** `formattedTotalTimeForDate(date:)` */
    function FormattedTotalTimeForDate(date: int): (text: string)
      reads this`store, Elements(store)`startTime, Elements(store)`duration
      ensures TotalTimeForDate(date) >= 0 ==> ParseHMS(text) == Some(TotalTimeForDate(date))
    {
      var total := TotalTimeForDate(date);
      if total >= 0 then FormatHMSRoundTrip(total); FormatHMS(total) else FormatHMS(total)
    }

    /** A day's list is exactly the stored sessions of that day, newest first. */
    lemma SessionsForDateMembers(date: int)
      ensures SortedDesc(SessionsForDate(date))
      ensures forall s :: s in SessionsForDate(date) ==> s in store && StartsOn(s, DayStart(date))
      ensures forall s :: s in store && StartsOn(s, DayStart(date)) ==> s in SessionsForDate(date)
    {
      OnDaySortedMembers(AllSessions(), DayStart(date));
      SortDescMembers(store);
    }

    /** The calendar dot and the day's session list agree. */
    lemma HasActivityIffSessions(date: int)
      ensures HasActivityOn(date) <==> SessionsForDate(date) != []
    {
      var all := AllSessions();
      OnDaySortedMembers(all, DayStart(date));
      if HasActivityOn(date) {
        var i :| 0 <= i < |all| && StartsOn(all[i], DayStart(date));
        assert all[i] in SessionsForDate(date);
      }
      if SessionsForDate(date) != [] {
        var s := SessionsForDate(date)[0];
        assert s in all;
      }
    }

    /** A day's total is the total of the stored sessions of that day, whatever order either list is in. */
    lemma TotalTimeForDateIsStoredTotal(date: int)
      ensures TotalTimeForDate(date) == TotalDuration(OnDay(store, DayStart(date)))
    {
      var day := DayStart(date);
      OnDaySortedMembers(AllSessions(), day);
      DurationsPermute(SessionsForDate(date), OnDay(AllSessions(), day));
      OnDayPermutes(AllSessions(), store, day);
      DurationsPermute(OnDay(AllSessions(), day), OnDay(store, day));
    }
  }

  /** The loop of `groupedSessions`: a new group for a day not seen yet, otherwise append to that day's group. */
  method GroupByDay(all: seq<Session>) returns (grouped: map<int, seq<Session>>)
    ensures GroupsOf(grouped, all)
  {
    grouped := map[];
    var i := 0;
    while i < |all|
      invariant 0 <= i <= |all|
      invariant GroupsOf(grouped, all[..i])
    {
      var session := all[i];
      GroupsOfAppend(grouped, all[..i], session, all[..i + 1]);
      var startOfDay := DayStart(session.startTime);
      if startOfDay !in grouped {
        grouped := grouped[startOfDay := [session]];
      } else {
        grouped := grouped[startOfDay := grouped[startOfDay] + [session]];
      }
      i := i + 1;
    }
    assert all[..i] == all;
  }
}
