/**
 * The average session length shown on the home screen and in the day
 * summary (`calculateAverageSessionTime`, which both views define the same
 * way): the completed durations summed, divided by how many there are,
 * truncated to whole seconds and shown as `H:MM`.
 */
module Stats {
  import opened Wrappers
  import opened Text
  import opened Sessions
  import opened SessionLists

  /**
   * `Int(durations.reduce(0, +) / Double(durations.count))`, or nil when
   * the list is empty or no session in it has a duration.
   */
  function AverageSeconds(sessions: seq<Session>): (r: Option<int>)
    reads Elements(sessions)`duration
    ensures r.None? <==> forall s :: s in sessions ==> s.duration.None?
  {
    DurationsEmpty(sessions);
    if sessions == [] then None
    else
      var ds := Durations(sessions);
      if ds == [] then None else Some(Quot(Sum(ds), |ds|))
  }

  /** `calculateAverageSessionTime`: the average as `String(format: "%d:%02d", hours, minutes)`. */
  function AverageSessionTime(sessions: seq<Session>): (r: Option<string>)
    reads Elements(sessions)`duration
    ensures r.None? <==> forall s :: s in sessions ==> s.duration.None?
    ensures r.Some? ==> r.value == FormatHM(AverageSeconds(sessions).value)
  {
    match AverageSeconds(sessions)
    case None => None
    case Some(avg) => Some(FormatHM(avg))
  }

  /** Every collected duration is the duration of a listed session. */
  lemma {:induction false} DurationsFrom(ss: seq<Session>)
    ensures forall d :: d in Durations(ss) ==> exists s :: s in ss && s.duration == Some(d)
    decreases |ss|
  {
    if ss != [] {
      DurationsFrom(ss[1..]);
      var head := if ss[0].duration.Some? then [ss[0].duration.value] else [];
      assert Durations(ss) == head + Durations(ss[1..]);
      forall d | d in Durations(ss)
        ensures exists s :: s in ss && s.duration == Some(d)
      {
        if d in head {
          assert ss[0] in ss;
        } else {
          var s :| s in ss[1..] && s.duration == Some(d);
          assert s in ss;
        }
      }
    }
  }

  /** A sum of values that all lie in [lo, hi] lies in [n * lo, n * hi]. */
  lemma {:induction false} SumBounds(xs: seq<int>, lo: int, hi: int)
    requires forall i :: 0 <= i < |xs| ==> lo <= xs[i] <= hi
    ensures |xs| * lo <= Sum(xs) <= |xs| * hi
    decreases |xs|
  {
    if xs != [] {
      SumBounds(xs[1..], lo, hi);
      assert xs[0] == xs[0..1][0];
    }
  }

  /** `q * n <= a < (q + 1) * n` fixes `q`, so bounds on the sum give bounds on the quotient. */
  lemma QuotientBounds(sum: int, n: int, lo: int, hi: int)
    requires n > 0 && 0 <= lo && n * lo <= sum <= n * hi
    ensures lo <= Quot(sum, n) <= hi
  {
    var q, r := sum / n, sum % n;
    assert sum == q * n + r && 0 <= r < n;
    if q < lo {
      MulMonotone(q + 1, lo, n);
    }
    if q > hi {
      MulMonotone(hi + 1, q, n);
    }
  }

  lemma MulMonotone(a: int, b: int, n: int)
    requires a <= b && n > 0
    ensures a * n <= b * n
  {
    assert b * n - a * n == (b - a) * n;
  }

  /**
   * When every completed session lasted between `lo` and `hi` seconds
   * (`lo >= 0`), so does the average: it is a value the sessions span.
   */
  lemma AverageBounds(sessions: seq<Session>, lo: int, hi: int)
    requires 0 <= lo
    requires forall s :: s in sessions && s.duration.Some? ==> lo <= s.duration.value <= hi
    requires AverageSeconds(sessions).Some?
    ensures lo <= AverageSeconds(sessions).value <= hi
  {
    var ds := Durations(sessions);
    DurationsFrom(sessions);
    forall i | 0 <= i < |ds|
      ensures lo <= ds[i] <= hi
    {
      assert ds[i] in ds;
    }
    SumBounds(ds, lo, hi);
    QuotientBounds(Sum(ds), |ds|, lo, hi);
  }

  /** Sessions that all lasted `d` seconds have the average `d`. */
  lemma AverageOfEqual(sessions: seq<Session>, d: int)
    requires 0 <= d
    requires forall s :: s in sessions ==> s.duration == Some(d)
    requires sessions != []
    ensures AverageSeconds(sessions) == Some(d)
  {
    assert sessions[0] in sessions;
    AverageBounds(sessions, d, d);
  }
}
