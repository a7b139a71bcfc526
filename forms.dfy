/**
 * The two time-range forms: `SessionEditForm` (edit a stored session) and
 * `ManualSessionForm` (add a session by hand). Each holds a start and an
 * end picked with date pickers and a `showError` flag for the "Invalid Time
 * Range" alert. Save hands the range to the owner's `onSave` only when the
 * end is after the start; Cancel hands control to `onCancel`.
 *
 * The two callbacks are recorded in `outcome`: the last one the form called.
 * `now` is the `Date()` read when a `SessionEditForm` is created; a
 * `ManualSessionForm` reads the clock once per picker (`startRead`, `endRead`).
 */
module Forms {
  import opened Wrappers
  import opened Sessions

  /** The callback a form has called: none yet, `onSave(start, end)` or `onCancel()`. */
  datatype Outcome = Pending | Saved(start: int, end: int) | Cancelled

  /** The Save rule both forms share: a range is accepted exactly when it ends after it starts. */
  predicate Accepted(startDate: int, endDate: int) {
    endDate > startDate
  }

  /** A range the forms accept gives a session with a positive duration. */
  lemma AcceptedRangeHasPositiveDuration(startDate: int, endDate: int)
    requires Accepted(startDate, endDate)
    ensures DerivedDuration(startDate, Some(endDate)).Some?
    ensures DerivedDuration(startDate, Some(endDate)).value > 0
  {
  }

  /** `SessionEditForm` */
  class SessionEditForm {
    const session: Session
    var startDate: int
    var endDate: int
    var showError: bool
    var outcome: Outcome

    /** The pickers start at the session's times; an open session's end starts at `now`. */
    constructor (session: Session, now: int)
      ensures this.session == session
      ensures startDate == session.startTime
      ensures endDate == (if session.endTime.Some? then session.endTime.value else now)
      ensures !showError && outcome == Pending
    {
      this.session := session;
      startDate := session.startTime;
      endDate := if session.endTime.Some? then session.endTime.value else now;
      showError := false;
      outcome := Pending;
    }

    /** The start picker. */
    method PickStart(t: int)
      modifies this`startDate
      ensures startDate == t
    {
      startDate := t;
    }

    /** The end picker. */
    method PickEnd(t: int)
      modifies this`endDate
      ensures endDate == t
    {
      endDate := t;
    }

    /** Save: `onSave(startDate, endDate)` for a valid range, otherwise the error alert. */
    method Save()
      modifies this`showError, this`outcome
      ensures Accepted(startDate, endDate) ==> outcome == Saved(startDate, endDate) && showError == old(showError)
      ensures !Accepted(startDate, endDate) ==> showError && outcome == old(outcome)
    {
      if endDate > startDate {
        outcome := Saved(startDate, endDate);
      } else {
        showError := true;
      }
    }

    /** The alert's OK button. */
    method DismissError()
      modifies this`showError
      ensures !showError
    {
      showError := false;
    }

    /** Cancel: `onCancel()`, never `onSave`. */
    method Cancel()
      modifies this`outcome
      ensures outcome == Cancelled
    {
      outcome := Cancelled;
    }
  }

  /** `ManualSessionForm` */
  class ManualSessionForm {
    var startDate: int
    var endDate: int
    var showError: bool
    var outcome: Outcome

    /**
     * Each picker starts at its own `Date()`: `startRead` is the clock when
     * `startDate` is initialised, `endRead` when `endDate` is, a moment later.
     */
    constructor (startRead: int, endRead: int)
      ensures startDate == startRead && endDate == endRead
      ensures !showError && outcome == Pending
    {
      startDate := startRead;
      endDate := endRead;
      showError := false;
      outcome := Pending;
    }

    /** The start picker. */
    method PickStart(t: int)
      modifies this`startDate
      ensures startDate == t
    {
      startDate := t;
    }

    /** The end picker. */
    method PickEnd(t: int)
      modifies this`endDate
      ensures endDate == t
    {
      endDate := t;
    }

    /** Save: `onSave(startDate, endDate)` for a valid range, otherwise the error alert. */
    method Save()
      modifies this`showError, this`outcome
      ensures Accepted(startDate, endDate) ==> outcome == Saved(startDate, endDate) && showError == old(showError)
      ensures !Accepted(startDate, endDate) ==> showError && outcome == old(outcome)
    {
      if endDate > startDate {
        outcome := Saved(startDate, endDate);
      } else {
        showError := true;
      }
    }

    /** The alert's OK button. */
    method DismissError()
      modifies this`showError
      ensures !showError
    {
      showError := false;
    }

    /** Cancel: `onCancel()`, never `onSave`. */
    method Cancel()
      modifies this`outcome
      ensures outcome == Cancelled
    {
      outcome := Cancelled;
    }
  }

  /**
   * Saving a freshly opened manual form, before either picker moves: the two
   * clock reads are the range. When both reads fell on the same instant the
   * form shows the error and saves nothing; a second read even slightly later
   * is saved as a (near-empty) range.
   */
  method SaveUntouchedManualForm(startRead: int, endRead: int) returns (form: ManualSessionForm)
    ensures form.showError <==> endRead <= startRead
    ensures form.outcome == (if endRead > startRead then Saved(startRead, endRead) else Pending)
    ensures startRead <= endRead ==> (form.showError <==> startRead == endRead)
  {
    form := new ManualSessionForm(startRead, endRead);
    form.Save();
  }

  /** Whatever the pickers are moved to, a form only ever reports a saved range that it accepts. */
  method EditAndSave(session: Session, now: int, start: int, end: int) returns (form: SessionEditForm)
    ensures form.outcome.Saved? <==> Accepted(start, end)
    ensures form.outcome.Saved? ==> form.outcome == Saved(start, end)
    ensures !Accepted(start, end) ==> form.showError
  {
    form := new SessionEditForm(session, now);
    form.PickStart(start);
    form.PickEnd(end);
    form.Save();
  }
}
