/**
 * `EndDayView`: the day summary sheet. Its stat cards read the view
 * model's today figures; its one state-changing button ends the day, or
 * resumes it when it is already ended; the close buttons dismiss it.
 *
 * `isPresented` is the presenting view's binding; icons, colours of the
 * drawing and the celebration animation are not modelled.
 */
module EndDay {
  import opened Wrappers
  import opened Text
  import opened Clock
  import opened Sessions
  import opened SessionLists
  import opened Stats
  import opened Theme
  import opened Timesheet

  /** A `DaySummaryCard`: its title, the value it shows and its palette colour. */
  datatype Card = Card(title: string, value: string, color: PaletteColor)

  /**
   * `statsCardsView`: today's total, today's session count and, only when
   * there is one, the average session.
   */
  function StatsCards(vm: TimesheetViewModel): (cards: seq<Card>)
    reads vm`store, vm`fetchDay, vm`isRunning, vm`currentTime, Elements(vm.store)`startTime, Elements(vm.store)`duration
    ensures 2 <= |cards| <= 3
    ensures cards[0] == Card("Total Work Time", vm.FormattedTodayTotalTime(), Accent)
    ensures cards[1] == Card("Sessions Completed", NatString(|vm.TodaySessions()|), Secondary)
    ensures |cards| == 3 <==> exists s :: s in vm.TodaySessions() && s.duration.Some?
    ensures |cards| == 3 ==> cards[2] == Card("Average Session", AverageSessionTime(vm.TodaySessions()).value, Success)
  {
    var today := vm.TodaySessions();
    var cards := [Card("Total Work Time", vm.FormattedTodayTotalTime(), Accent),
                  Card("Sessions Completed", NatString(|today|), Secondary)];
    match AverageSessionTime(today)
    case None => cards
    case Some(avg) => cards + [Card("Average Session", avg, Success)]
  }

  /**
   * The count card reads back as the number of stored sessions of the
   * fetched day, and the average card is shown exactly when one of them has
   * a recorded duration.
   */
  lemma StatsCardsAgreeWithStore(vm: TimesheetViewModel)
    ensures var cards := StatsCards(vm);
      ParseNat(cards[1].value) == Some(|OnDay(vm.store, vm.fetchDay)|)
    ensures |StatsCards(vm)| == 3 <==>
      exists s :: s in vm.store && StartsOn(s, vm.fetchDay) && s.duration.Some?
  {
    var today := vm.TodaySessions();
    SortDescMembers(OnDay(vm.store, vm.fetchDay));
    ParseNatString(|today|);
    vm.FetchedLists();
  }

  /** The parts of `EndDayView`'s state its actions change. */
  class EndDaySheet {
    const viewModel: TimesheetViewModel
    /** The `isPresented` binding. */
    var isPresented: bool
    /** The view's own `@State isDayEnded`. */
    var isDayEnded: bool

    /** A freshly presented sheet. */
    constructor (viewModel: TimesheetViewModel)
      ensures this.viewModel == viewModel && isPresented && !isDayEnded
    {
      this.viewModel := viewModel;
      isPresented := true;
      isDayEnded := false;
    }

    /** While the sheet is shown, its own flag agrees with the view model's. */
    predicate Mirrors()
      reads this, viewModel`isDayEnded
    {
      isPresented ==> isDayEnded == viewModel.isDayEnded
    }

    /** `onAppear`: copy the view model's day-ended state. */
    method OnAppear()
      modifies this`isDayEnded
      ensures isDayEnded == viewModel.isDayEnded
      ensures Mirrors()
    {
      isDayEnded := viewModel.isDayEnded;
    }

    /**
     * The end/resume button, chosen by the view model's flag: "Resume
     * Working" resumes the day and dismisses the sheet; "End Work Day" ends
     * the day (saving a running session) and marks the sheet ended. Either
     * way the view model's day-ended flag flips.
     */
    method EndResumeButton(now: int)
      requires viewModel.Valid()
      modifies viewModel, this`isPresented, this`isDayEnded
      ensures viewModel.Valid()
      ensures viewModel.isDayEnded == !old(viewModel.isDayEnded)
      ensures old(viewModel.isDayEnded) ==>
        && !isPresented && isDayEnded == old(isDayEnded)
        && viewModel.store == old(viewModel.store) && viewModel.isRunning == old(viewModel.isRunning)
      ensures !old(viewModel.isDayEnded) ==>
        && isDayEnded && isPresented == old(isPresented) && !viewModel.isRunning
      ensures !old(viewModel.isDayEnded) && old(viewModel.isRunning) ==>
        viewModel.AddedOne(old(viewModel.store), old(viewModel.sessionStartTime).value, now, false)
      ensures !old(viewModel.isDayEnded || viewModel.isRunning) ==> viewModel.store == old(viewModel.store)
      ensures viewModel.lastRecordedDay == old(viewModel.lastRecordedDay)
      ensures viewModel.dayEndedFlag == viewModel.isDayEnded
      ensures old(viewModel.RecordsValid()) ==> viewModel.RecordsValid()
      ensures old(viewModel.isDayEnded) ==>
        && viewModel.fetchDay == old(viewModel.fetchDay)
        && viewModel.sessionStartTime == old(viewModel.sessionStartTime) && viewModel.currentTime == old(viewModel.currentTime)
      ensures !old(viewModel.isDayEnded) ==> viewModel.sessionStartTime.None? && viewModel.currentTime == 0
      ensures !old(viewModel.isDayEnded) && !old(viewModel.isRunning) ==> viewModel.fetchDay == old(viewModel.fetchDay)
      ensures !old(viewModel.isDayEnded) && old(viewModel.isRunning) ==> viewModel.fetchDay == DayStart(now)
      ensures old(Mirrors()) ==> Mirrors()
    {
      if viewModel.isDayEnded {
        viewModel.ResumeDay();
        isPresented := false;
      } else {
        viewModel.EndDay(now);
        isDayEnded := true;
      }
    }

    /** The close button and the toolbar's close icon: dismiss, nothing else. */
    method Close()
      modifies this`isPresented
      ensures !isPresented && Mirrors()
    {
      isPresented := false;
    }
  }
}
