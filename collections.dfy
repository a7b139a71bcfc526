/**
 * The list operations the core applies to sessions: date-range `filter`,
 * `sorted { $0.startTime > $1.startTime }` and `compactMap { $0.duration }`
 * followed by `reduce(0, +)`.
 */
module SessionLists {
  import opened Wrappers
  import opened Clock
  import opened Text
  import opened Sessions

  /** The session objects a list refers to: the frame of every function that reads their fields. */
  function Elements(ss: seq<Session>): set<Session> {
    set s | s in ss
  }

  /** `session.startTime >= day && session.startTime < day + 1 day` */
  predicate StartsOn(s: Session, day: int)
    reads s`startTime
  {
    day <= s.startTime < day + SecondsPerDay
  }

  /** On a day start, "starts in the day" and "has that day start" agree. */
  lemma StartsOnDayStart(s: Session, day: int)
    requires day % SecondsPerDay == 0
    ensures StartsOn(s, day) <==> DayStart(s.startTime) == day
  {
    DayStartUnique(s.startTime, day);
  }

  /** No session object appears twice. */
  predicate Distinct(ss: seq<Session>) {
    forall i, j :: 0 <= i < j < |ss| ==> ss[i] != ss[j]
  }

  /** The sessions of `ss` that start on the day beginning at `day`, in their original order. */
  function OnDay(ss: seq<Session>, day: int): (r: seq<Session>)
    reads Elements(ss)`startTime
    ensures |r| <= |ss|
    ensures forall s :: s in r ==> s in ss && StartsOn(s, day)
    ensures forall s :: s in ss && StartsOn(s, day) ==> s in r
    decreases |ss|
  {
    if ss == [] then []
    else
      var init, last := ss[..|ss| - 1], ss[|ss| - 1];
      assert forall s :: s in ss ==> s in init || s == last;
      assert forall s :: s in init ==> s in ss;
      var rest := OnDay(init, day);
      if StartsOn(last, day) then rest + [last] else rest
  }

  /** A list with no session on the day filters to nothing. */
  lemma OnDayNone(ss: seq<Session>, day: int)
    requires forall s :: s in ss ==> !StartsOn(s, day)
    ensures OnDay(ss, day) == []
  {
  }

  /** Filtering distributes over concatenation: it keeps the relative order of what it keeps. */
  lemma {:induction false} OnDayAppend(a: seq<Session>, b: seq<Session>, day: int)
    ensures OnDay(a + b, day) == OnDay(a, day) + OnDay(b, day)
    decreases |b|
  {
    if b == [] {
      assert a + b == a;
    } else {
      var ab := a + b;
      assert ab[..|ab| - 1] == a + b[..|b| - 1];
      OnDayAppend(a, b[..|b| - 1], day);
    }
  }

  /** Startimes never increase along the list. */
  predicate SortedDesc(ss: seq<Session>)
    reads Elements(ss)`startTime
  {
    forall i, j :: 0 <= i < j < |ss| ==> ss[i].startTime >= ss[j].startTime
  }

  /** Puts `x` before the first element that does not start later than it. */
  function InsertDesc(x: Session, ss: seq<Session>): (r: seq<Session>)
    reads x`startTime, Elements(ss)`startTime
    requires SortedDesc(ss)
    ensures SortedDesc(r)
    ensures |r| == |ss| + 1
    ensures forall s :: s in r ==> s in ss || s == x
    ensures x in r && forall s :: s in ss ==> s in r
    decreases |ss|
  {
    if ss == [] || ss[0].startTime <= x.startTime then [x] + ss
    else
      var rest := InsertDesc(x, ss[1..]);
      assert forall s :: s in ss[1..] ==> s in ss;
      assert forall s :: s in rest ==> s.startTime <= ss[0].startTime;
      [ss[0]] + rest
  }

  lemma {:induction false} InsertDescPermutes(x: Session, ss: seq<Session>)
    requires SortedDesc(ss)
    ensures multiset(InsertDesc(x, ss)) == multiset(ss) + multiset{x}
    decreases |ss|
  {
    if !(ss == [] || ss[0].startTime <= x.startTime) {
      InsertDescPermutes(x, ss[1..]);
      assert ss == [ss[0]] + ss[1..];
    }
  }

  /** `sorted { $0.startTime > $1.startTime }` (the fetch order `SortDescriptor(\.startTime, order: .reverse)`). */
  function SortDesc(ss: seq<Session>): (r: seq<Session>)
    reads Elements(ss)`startTime
    ensures SortedDesc(r)
    ensures multiset(r) == multiset(ss)
  {
    if ss == [] then []
    else
      var rest := SortDesc(ss[1..]);
      SortStep(ss, rest);
      InsertDesc(ss[0], rest)
  }

  /** One step of the insertion sort: inserting the head into the sorted tail permutes the list. */
  lemma SortStep(ss: seq<Session>, rest: seq<Session>)
    requires ss != [] && SortedDesc(rest) && multiset(rest) == multiset(ss[1..])
    ensures Elements(rest) <= Elements(ss)
    ensures multiset(InsertDesc(ss[0], rest)) == multiset(ss)
  {
    SameMembers(rest, ss[1..]);
    assert forall s :: s in ss[1..] ==> s in ss;
    InsertDescPermutes(ss[0], rest);
    assert ss == [ss[0]] + ss[1..];
  }

  /** Two lists with the same multiset have the same members and the same length. */
  lemma SameMembers(a: seq<Session>, b: seq<Session>)
    requires multiset(a) == multiset(b)
    ensures |a| == |b|
    ensures forall s :: s in a ==> s in b
  {
    assert |multiset(a)| == |multiset(b)|;
    forall s | s in a
      ensures s in b
    {
      assert s in multiset(a);
    }
  }

  /** Sorting keeps the length and exactly the members. */
  lemma SortDescMembers(ss: seq<Session>)
    ensures |SortDesc(ss)| == |ss|
    ensures forall s :: s in SortDesc(ss) ==> s in ss
    ensures forall s :: s in ss ==> s in SortDesc(ss)
  {
    SameMembers(SortDesc(ss), ss);
    SameMembers(ss, SortDesc(ss));
  }

  /** A list without repeats holds each session at most once. */
  lemma {:induction false} DistinctCount(ss: seq<Session>, x: Session)
    requires Distinct(ss)
    ensures multiset(ss)[x] <= 1
    decreases |ss|
  {
    if ss != [] {
      DistinctCount(ss[1..], x);
      assert ss == [ss[0]] + ss[1..];
      if ss[0] == x {
        assert x !in ss[1..];
      }
    }
  }

  /** Reordering a list without repeats gives a list without repeats. */
  lemma DistinctPermutes(a: seq<Session>, b: seq<Session>)
    requires Distinct(a) && multiset(a) == multiset(b)
    ensures Distinct(b)
  {
    forall p, q | 0 <= p < q < |b|
      ensures b[p] != b[q]
    {
      if b[p] == b[q] {
        var x := b[q];
        assert b == b[..q] + [x] + b[q + 1..];
        assert b[p] in b[..q];
        assert multiset(b)[x] >= multiset(b[..q])[x] + 1;
        DistinctCount(a, x);
        assert false;
      }
    }
  }

  /**
   * A fetch with a day predicate and a newest-first sort descriptor: the
   * sessions starting on `day`, newest first. Its frame is the whole list.
   */
  function OnDaySorted(ss: seq<Session>, day: int): (r: seq<Session>)
    reads Elements(ss)`startTime
    ensures forall s :: s in r ==> s in ss
  {
    OnDaySortedWithin(ss, day);
    SortDesc(OnDay(ss, day))
  }

  lemma OnDaySortedWithin(ss: seq<Session>, day: int)
    ensures forall s :: s in SortDesc(OnDay(ss, day)) ==> s in ss
  {
    var d := OnDay(ss, day);
    SortDescMembers(d);
    assert forall s :: s in d ==> s in ss;
  }

  /** A fetch with only the newest-first sort descriptor. */
  function AllSorted(ss: seq<Session>): (r: seq<Session>)
    reads Elements(ss)`startTime
    ensures forall s :: s in r ==> s in ss
  {
    SortDescWithin(ss);
    SortDesc(ss)
  }

  lemma SortDescWithin(ss: seq<Session>)
    ensures forall s :: s in SortDesc(ss) ==> s in ss
  {
    SortDescMembers(ss);
  }

  /** A list that is already in order is left as it is. */
  lemma {:induction false} SortDescOfSorted(ss: seq<Session>)
    requires SortedDesc(ss)
    ensures SortDesc(ss) == ss
  {
    if ss != [] {
      SortDescOfSorted(ss[1..]);
    }
  }

  /** The newest session comes first: no session starts later than the head of the sorted list. */
  lemma SortDescHeadIsNewest(ss: seq<Session>, s: Session)
    requires s in ss
    ensures SortDesc(ss) != [] && SortDesc(ss)[0].startTime >= s.startTime
  {
    var r := SortDesc(ss);
    SortDescMembers(ss);
    assert s in r;
    var k :| 0 <= k < |r| && r[k] == s;
    if k > 0 {
      assert r[0].startTime >= r[k].startTime;
    }
  }

  /** `compactMap { $0.duration }`: the durations that are present, in list order. */
  function Durations(ss: seq<Session>): (ds: seq<int>)
    reads Elements(ss)`duration
    ensures |ds| <= |ss|
    decreases |ss|
  {
    if ss == [] then []
    else
      TailElements(ss);
      (if ss[0].duration.Some? then [ss[0].duration.value] else []) + Durations(ss[1..])
  }

  /** The tail of a list refers to no other sessions than the list. */
  lemma TailElements(ss: seq<Session>)
    requires ss != []
    ensures Elements(ss[1..]) <= Elements(ss)
  {
    assert forall s :: s in ss[1..] ==> s in ss;
  }

  /** No duration is collected exactly when no listed session has one. */
  lemma {:induction false} DurationsEmpty(ss: seq<Session>)
    ensures Durations(ss) == [] <==> forall s :: s in ss ==> s.duration.None?
    decreases |ss|
  {
    if ss != [] {
      DurationsEmpty(ss[1..]);
      assert forall s :: s in ss ==> s == ss[0] || s in ss[1..];
      assert forall s :: s in ss[1..] ==> s in ss;
    }
  }

  /** `reduce(0, +)` */
  function Sum(xs: seq<int>): int
    decreases |xs|
  {
    if xs == [] then 0 else xs[0] + Sum(xs[1..])
  }

  /** `compactMap { $0.duration }.reduce(0, +)`: the summed durations of the completed sessions. */
  function TotalDuration(ss: seq<Session>): int
    reads Elements(ss)`duration
  {
    Sum(Durations(ss))
  }

  lemma {:induction false} SumAppend(a: seq<int>, b: seq<int>)
    ensures Sum(a + b) == Sum(a) + Sum(b)
    decreases |a|
  {
    if a == [] {
      assert a + b == b;
    } else {
      assert (a + b)[1..] == a[1..] + b;
      SumAppend(a[1..], b);
    }
  }

  lemma {:induction false} DurationsAppend(a: seq<Session>, b: seq<Session>)
    ensures Durations(a + b) == Durations(a) + Durations(b)
    decreases |a|
  {
    if a == [] {
      assert a + b == b;
    } else {
      assert (a + b)[1..] == a[1..] + b;
      DurationsAppend(a[1..], b);
    }
  }

  /** The total over a concatenation is the sum of the totals. */
  lemma TotalDurationAppend(a: seq<Session>, b: seq<Session>)
    ensures TotalDuration(a + b) == TotalDuration(a) + TotalDuration(b)
  {
    DurationsAppend(a, b);
    SumAppend(Durations(a), Durations(b));
  }

  /**
   * The total and the number of completed sessions depend only on which
   * sessions are listed, not on their order.
   */
  lemma {:induction false} DurationsPermute(a: seq<Session>, b: seq<Session>)
    requires multiset(a) == multiset(b)
    ensures TotalDuration(a) == TotalDuration(b)
    ensures |Durations(a)| == |Durations(b)|
    decreases |a|
  {
    if a == [] {
      assert |multiset(b)| == 0;
    } else {
      var x := a[0];
      assert x in multiset(b);
      var i :| 0 <= i < |b| && b[i] == x;
      var front, back := b[..i], b[i + 1..];
      assert b == front + [x] + back;
      assert a == [x] + a[1..];
      assert multiset(front + back) == multiset(a[1..]) by {
        assert multiset(a) == multiset{x} + multiset(a[1..]);
        assert multiset(b) == multiset{x} + (multiset(front) + multiset(back));
        assert multiset(front + back) == multiset(front) + multiset(back);
        MultisetCancel(x, multiset(a[1..]), multiset(front + back));
      }
      DurationsPermute(a[1..], front + back);
      TotalDurationSplit(x, a[1..], front, back);
    }
  }

  lemma MultisetCancel(x: Session, p: multiset<Session>, q: multiset<Session>)
    requires multiset{x} + p == multiset{x} + q
    ensures p == q
  {
    forall y
      ensures p[y] == q[y]
    {
      assert (multiset{x} + p)[y] == (multiset{x} + q)[y];
    }
  }

  /** Moving `x` from the front of a list to the middle of another with the same total keeps the total. */
  lemma TotalDurationSplit(x: Session, tail: seq<Session>, front: seq<Session>, back: seq<Session>)
    requires TotalDuration(tail) == TotalDuration(front + back)
    requires |Durations(tail)| == |Durations(front + back)|
    ensures TotalDuration([x] + tail) == TotalDuration(front + [x] + back)
    ensures |Durations([x] + tail)| == |Durations(front + [x] + back)|
  {
    TotalDurationAppend([x], tail);
    DurationsAppend([x], tail);
    TotalDurationAppend(front + [x], back);
    DurationsAppend(front + [x], back);
    TotalDurationAppend(front, [x]);
    DurationsAppend(front, [x]);
    TotalDurationAppend(front, back);
    DurationsAppend(front, back);
  }

  /** Sorting changes neither the total nor the number of completed sessions. */
  lemma TotalDurationSort(ss: seq<Session>)
    ensures TotalDuration(SortDesc(ss)) == TotalDuration(ss)
    ensures |Durations(SortDesc(ss))| == |Durations(ss)|
  {
    DurationsPermute(SortDesc(ss), ss);
  }

  /** Filtering a permutation gives a permutation of the filtered list. */
  lemma {:induction false} OnDayPermutes(a: seq<Session>, b: seq<Session>, day: int)
    requires multiset(a) == multiset(b)
    ensures multiset(OnDay(a, day)) == multiset(OnDay(b, day))
    decreases |a|
  {
    if a == [] {
      assert |multiset(b)| == 0;
    } else {
      var x := a[0];
      assert x in multiset(b);
      var i :| 0 <= i < |b| && b[i] == x;
      var front, back := b[..i], b[i + 1..];
      assert b == front + [x] + back;
      assert a == [x] + a[1..];
      assert multiset(front + back) == multiset(a[1..]) by {
        assert multiset(a) == multiset{x} + multiset(a[1..]);
        assert multiset(b) == multiset{x} + (multiset(front) + multiset(back));
        assert multiset(front + back) == multiset(front) + multiset(back);
        MultisetCancel(x, multiset(a[1..]), multiset(front + back));
      }
      OnDayPermutes(a[1..], front + back, day);
      OnDayAppend([x], a[1..], day);
      OnDayAppend(front + [x], back, day);
      OnDayAppend(front, [x], day);
      OnDayAppend(front, back, day);
    }
  }

  /**
   * What the two fetches give: the day's fetch holds exactly the sessions of
   * that day, the full fetch is a permutation of the list, both newest first.
   */
  lemma OnDaySortedMembers(ss: seq<Session>, day: int)
    ensures SortedDesc(OnDaySorted(ss, day)) && SortedDesc(AllSorted(ss))
    ensures forall s :: s in OnDaySorted(ss, day) <==> s in ss && StartsOn(s, day)
    ensures multiset(OnDaySorted(ss, day)) == multiset(OnDay(ss, day))
    ensures multiset(AllSorted(ss)) == multiset(ss)
  {
    SortDescMembers(OnDay(ss, day));
  }

  /** The list without the session object `x` (`modelContext.delete`). */
  function Without(ss: seq<Session>, x: Session): (r: seq<Session>)
    ensures forall s :: s in r ==> s in ss && s != x
    ensures forall s :: s in ss && s != x ==> s in r
    ensures Distinct(ss) ==> Distinct(r)
    ensures |r| <= |ss|
    decreases |ss|
  {
    if ss == [] then []
    else
      var rest := Without(ss[1..], x);
      assert forall s :: s in ss ==> s == ss[0] || s in ss[1..];
      assert Distinct(ss) ==> ss[0] !in ss[1..] && Distinct(ss[1..]);
      assert forall s :: s in ss[1..] ==> s in ss;
      if ss[0] == x then rest else [ss[0]] + rest
  }

  /** `grouped` files every session of `ss` under the start of its day, in list order. */
  ghost predicate GroupsOf(grouped: map<int, seq<Session>>, ss: seq<Session>)
    reads Elements(ss)`startTime
  {
    && grouped.Keys == (set s | s in ss :: DayStart(s.startTime))
    && forall k :: k in grouped ==> grouped[k] == OnDay(ss, k)
  }

  /** The grouping step: `x` appended to the group of its day, which is created when missing. */
  function AddToGroup(grouped: map<int, seq<Session>>, x: Session): (g: map<int, seq<Session>>)
    reads x`startTime
    ensures g.Keys == grouped.Keys + {DayStart(x.startTime)}
  {
    var k := DayStart(x.startTime);
    grouped[k := if k in grouped then grouped[k] + [x] else [x]]
  }

  /** One step of the grouping loop: appending `x` under its day keeps `GroupsOf`. */
  lemma GroupsOfAppend(grouped: map<int, seq<Session>>, ss: seq<Session>, x: Session, next: seq<Session>)
    requires GroupsOf(grouped, ss)
    requires next == ss + [x]
    ensures GroupsOf(AddToGroup(grouped, x), next)
  {
    var k := DayStart(x.startTime);
    var g := AddToGroup(grouped, x);
    assert next[..|next| - 1] == ss;
    assert forall s :: s in next ==> s in ss || s == x;
    assert (set s | s in next :: DayStart(s.startTime)) == grouped.Keys + {k};
    if k !in grouped {
      forall t | t in ss
        ensures !StartsOn(t, k)
      {
        StartsOnDayStart(t, k);
      }
      OnDayNone(ss, k);
    }
    forall j | j in g
      ensures g[j] == OnDay(next, j)
    {
      StartsOnDayStart(x, j);
    }
  }

  /** A grouping files each session under its own day, and every group is a non-empty day. */
  lemma GroupsOfCovers(grouped: map<int, seq<Session>>, ss: seq<Session>)
    requires GroupsOf(grouped, ss)
    ensures forall s :: s in ss ==> DayStart(s.startTime) in grouped && s in grouped[DayStart(s.startTime)]
    ensures forall k :: k in grouped ==> k % SecondsPerDay == 0 && grouped[k] != []
  {
    forall s | s in ss
      ensures s in grouped[DayStart(s.startTime)]
    {
      StartsOnDayStart(s, DayStart(s.startTime));
    }
    forall k | k in grouped
      ensures k % SecondsPerDay == 0 && grouped[k] != []
    {
      var s :| s in ss && DayStart(s.startTime) == k;
      StartsOnDayStart(s, k);
    }
  }
}
