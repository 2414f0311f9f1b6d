/** Occupancy of a hotel, as the days on which it changes. */
module Hotel {
  import opened Sorting

  datatype Guest = Guest(checkIn: int, checkOut: int)

  datatype Load = Load(startDate: int, guestCount: int)

  datatype Event = Event(isComeIn: bool, date: int)

  // ----- How many guests there are on a day

  function Bit(b: bool): int { if b then 1 else 0 }

  /** Guests who have come in by the evening of day d and not left. */
  function Occupancy(guests: seq<Guest>, d: int): int
  {
    if guests == [] then 0
    else
      var g := guests[|guests| - 1];
      Occupancy(guests[..|guests| - 1], d) + Bit(g.checkIn <= d < g.checkOut)
  }

  predicate Sane(guests: seq<Guest>) { forall g :: g in guests ==> g.checkIn <= g.checkOut }

  predicate Staying(guests: seq<Guest>) { forall g :: g in guests ==> g.checkIn < g.checkOut }

  /** The count that a list of loads gives for day d. */
  function CountAt(loads: seq<Load>, d: int): int
  {
    if loads == [] then 0
    else
      var last := loads[|loads| - 1];
      if last.startDate <= d then last.guestCount else CountAt(loads[..|loads| - 1], d)
  }

  predicate Ascending(loads: seq<Load>) {
    forall i, j :: 0 <= i < j < |loads| ==> loads[i].startDate < loads[j].startDate
  }

  predicate Changing(loads: seq<Load>) {
    forall i :: 0 < i < |loads| ==> loads[i - 1].guestCount != loads[i].guestCount
  }

  predicate IsDate(guests: seq<Guest>, d: int) { exists g :: g in guests && (g.checkIn == d || g.checkOut == d) }

  /** d bounds all dates from below, or from above. */
  predicate Earliest(guests: seq<Guest>, d: int) { forall g :: g in guests ==> d <= g.checkIn && d <= g.checkOut }

  predicate Latest(guests: seq<Guest>, d: int) { forall g :: g in guests ==> g.checkIn <= d && g.checkOut <= d }

  // ----- Events

  function Sign(e: Event): int { if e.isComeIn then 1 else -1 }

  /** Change brought by the events up to the evening of day d. */
  function Net(events: seq<Event>, d: int): int
  {
    if events == [] then 0
    else
      var e := events[|events| - 1];
      Net(events[..|events| - 1], d) + if e.date <= d then Sign(e) else 0
  }

  function EventsOf(guests: seq<Guest>): seq<Event>
  {
    if guests == [] then []
    else
      var g := guests[|guests| - 1];
      EventsOf(guests[..|guests| - 1]) + [Event(true, g.checkIn)] + [Event(false, g.checkOut)]
  }

  lemma {:induction false} NetAppend(events: seq<Event>, e: Event, d: int)
    ensures Net(events + [e], d) == Net(events, d) + if e.date <= d then Sign(e) else 0
  {
    assert (events + [e])[..|events|] == events;
  }

  lemma {:induction false} NetConcat(a: seq<Event>, b: seq<Event>, d: int)
    ensures Net(a + b, d) == Net(a, d) + Net(b, d)
  {
    if b == [] {
      assert a + b == a;
    } else {
      var n := |b| - 1;
      NetConcat(a, b[..n], d);
      assert a + b == a + b[..n] + [b[n]];
      NetAppend(a + b[..n], b[n], d);
    }
  }

  lemma {:induction false} NetIsOccupancy(guests: seq<Guest>, d: int)
    requires Sane(guests)
    ensures Net(EventsOf(guests), d) == Occupancy(guests, d)
  {
    if guests != [] {
      var rest, g := guests[..|guests| - 1], guests[|guests| - 1];
      NetIsOccupancy(rest, d);
      NetAppend(EventsOf(rest), Event(true, g.checkIn), d);
      NetAppend(EventsOf(rest) + [Event(true, g.checkIn)], Event(false, g.checkOut), d);
      assert g in guests;
    }
  }

  lemma {:induction false} OccupancyNotNegative(guests: seq<Guest>, d: int)
    ensures Occupancy(guests, d) >= 0
    ensures forall g :: g in guests && g.checkIn <= d < g.checkOut ==> Occupancy(guests, d) > 0
  {
    if guests != [] { OccupancyNotNegative(guests[..|guests| - 1], d); }
  }

  lemma {:induction false} NetInsert(events: seq<Event>, k: nat, e: Event, d: int)
    requires k <= |events|
    ensures Net(events[..k] + [e] + events[k..], d) == Net(events, d) + if e.date <= d then Sign(e) else 0
  {
    assert events == events[..k] + events[k..];
    NetConcat(events[..k], events[k..], d);
    NetConcat(events[..k] + [e], events[k..], d);
    NetAppend(events[..k], e, d);
  }

  lemma {:induction false} LastInMultiset(a: seq<Event>)
    requires a != []
    ensures multiset(a) == multiset(a[..|a| - 1]) + multiset{a[|a| - 1]}
  {
    assert a == a[..|a| - 1] + [a[|a| - 1]];
  }

  lemma {:induction false} Cancel(m: multiset<Event>, n: multiset<Event>, e: Event)
    requires m + multiset{e} == n + multiset{e}
    ensures m == n
  {
    assert m == (m + multiset{e}) - multiset{e} && n == (n + multiset{e}) - multiset{e};
  }

  /** b is rest with x inserted, and rest has the other elements of a. */
  lemma {:induction false} TakeOut(a: seq<Event>, b: seq<Event>) returns (rest: seq<Event>, k: nat)
    requires multiset(a) == multiset(b) && a != []
    ensures k <= |rest| && b == rest[..k] + [a[|a| - 1]] + rest[k..] && multiset(rest) == multiset(a[..|a| - 1])
  {
    var n := |a| - 1;
    LastInMultiset(a);
    assert a[n] in multiset(b);
    k :| 0 <= k < |b| && b[k] == a[n];
    rest := b[..k] + b[k + 1..];
    assert b == rest[..k] + [b[k]] + rest[k..];
    InsertedMultiset(rest, k, b[k]);
    Cancel(multiset(rest), multiset(a[..n]), a[n]);
  }

  /** Events in another order bring the same change. */
  lemma {:induction false} NetOfPermutation(a: seq<Event>, b: seq<Event>, d: int)
    requires multiset(a) == multiset(b)
    ensures Net(a, d) == Net(b, d)
    decreases |a|
  {
    if a == [] {
      assert |multiset(b)| == 0;
    } else {
      var n := |a| - 1;
      var rest, k := TakeOut(a, b);
      NetOfPermutation(a[..n], rest, d);
      NetInsert(rest, k, a[n], d);
    }
  }

  lemma {:induction false} EventsAreDates(guests: seq<Guest>, e: Event)
    requires e in EventsOf(guests)
    ensures IsDate(guests, e.date)
  {
    var rest, g := guests[..|guests| - 1], guests[|guests| - 1];
    if e in EventsOf(rest) {
      EventsAreDates(rest, e);
      var h :| h in rest && (h.checkIn == e.date || h.checkOut == e.date);
      assert h in guests;
    } else {
      assert g in guests;
    }
  }

  lemma {:induction false} DatesAreEvents(guests: seq<Guest>, g: Guest)
    requires g in guests
    ensures Event(true, g.checkIn) in EventsOf(guests) && Event(false, g.checkOut) in EventsOf(guests)
  {
    if g != guests[|guests| - 1] { DatesAreEvents(guests[..|guests| - 1], g); }
  }

  // ----- The sweep

  const DATE := (e: Event) => e.date

  method Events(guests: seq<Guest>) returns (events: seq<Event>)
    ensures events == EventsOf(guests)
  {
    events := [];
    for i := 0 to |guests|
      invariant events == EventsOf(guests[..i])
    {
      assert guests[..i + 1][..i] == guests[..i];
      events := events + [Event(true, guests[i].checkIn)];
      events := events + [Event(false, guests[i].checkOut)];
    }
    assert guests[..|guests|] == guests;
  }

  /** With no more events until after d, the count on day d is that of the events so far. */
  lemma {:induction false} NetSoFar(events: seq<Event>, i: nat, d: int, n: nat)
    requires i <= n <= |events|
    requires forall k :: 0 <= k < i ==> events[k].date <= d
    requires forall k :: i <= k < n ==> events[k].date > d
    ensures Net(events[..n], d) == Net(events[..i], d)
    decreases n
  {
    if i < n {
      assert events[..n][..n - 1] == events[..n - 1];
      NetSoFar(events, i, d, n - 1);
    }
  }

  /** Once past their dates, events bring the same change for ever. */
  lemma {:induction false} NetStays(events: seq<Event>, c: int, d: int)
    requires c <= d && forall k :: 0 <= k < |events| ==> events[k].date <= c
    ensures Net(events, d) == Net(events, c)
  {
    if events != [] { NetStays(events[..|events| - 1], c, d); }
  }

  lemma {:induction false} CountBefore(loads: seq<Load>, l: Load, d: int)
    requires d < l.startDate
    ensures CountAt(loads + [l], d) == CountAt(loads, d)
  {
    assert (loads + [l])[..|loads|] == loads;
  }

  /** The loads found while the sweep is at the day cur, in events that never bring the count below zero. */
  ghost predicate Swept(loads: seq<Load>, events: seq<Event>, cur: int, prev: int) {
    && Ascending(loads) && Changing(loads)
    && (forall l :: l in loads ==> l.startDate < cur)
    && (forall d :: d < cur ==> CountAt(loads, d) == Net(events, d))
    && (if loads == [] then prev == -1 && events != [] && cur == events[0].date
        else prev == loads[|loads| - 1].guestCount && events != [] && loads[0].startDate == events[0].date)
  }

  /** Between the days of two successive events the change stays what it is. */
  lemma {:induction false} NetBetween(events: seq<Event>, i: nat, d: int)
    requires 0 < i < |events| && OrderedBy(DATE, events) && events[i - 1].date <= d < events[i].date
    ensures Net(events, d) == Net(events[..i], events[i - 1].date)
  {
    InOrder(events, i);
    NetSoFar(events, i, d, |events|);
    assert events[..|events|] == events;
    NetStays(events[..i], events[i - 1].date, d);
  }

  /** The sweep leaves the day cur for the day next. */
  lemma {:induction false} SweepOn(loads: seq<Load>, events: seq<Event>, i: nat, cur: int, next: int, prev: int)
    requires Swept(loads, events, cur, prev) && 0 < i < |events| && cur < next == events[i].date
    requires OrderedBy(DATE, events) && events[i - 1].date == cur && forall d :: Net(events, d) >= 0
    ensures var cnt := Net(events[..i], cur);
      Swept(if prev != cnt then loads + [Load(cur, cnt)] else loads, events, next, cnt)
  {
    var cnt := Net(events[..i], cur);
    forall d | cur <= d < next ensures Net(events, d) == cnt { NetBetween(events, i, d); }
    assert cnt == Net(events, cur);
    if prev != cnt {
      LoadAdded(loads, events, cur, next, prev, cnt);
    } else {
      SameLoad(loads, events, cur, next, prev);
    }
  }

  lemma {:induction false} LoadAdded(loads: seq<Load>, events: seq<Event>, cur: int, next: int, prev: int, cnt: int)
    requires Swept(loads, events, cur, prev) && cur < next && prev != cnt
    requires forall d :: cur <= d < next ==> Net(events, d) == cnt
    ensures Swept(loads + [Load(cur, cnt)], events, next, cnt)
  {
    forall d | d < next ensures CountAt(loads + [Load(cur, cnt)], d) == Net(events, d) {
      if d < cur { CountBefore(loads, Load(cur, cnt), d); }
    }
  }

  lemma {:induction false} SameLoad(loads: seq<Load>, events: seq<Event>, cur: int, next: int, prev: int)
    requires Swept(loads, events, cur, prev) && cur < next
    requires prev >= 0 && forall d :: cur <= d < next ==> Net(events, d) == prev
    ensures Swept(loads, events, next, prev)
  {
    forall d | cur <= d < next ensures CountAt(loads, d) == prev {}
  }

  lemma {:induction false} InOrder(events: seq<Event>, i: nat)
    requires OrderedBy(DATE, events) && 0 < i < |events|
    ensures forall k :: 0 <= k < i ==> events[k].date <= events[i - 1].date
    ensures forall k :: i <= k < |events| ==> events[k].date >= events[i].date
  {
    forall k | 0 <= k < i ensures events[k].date <= events[i - 1].date {
      if k < i - 1 { assert DATE(events[k]) <= DATE(events[i - 1]); }
    }
    forall k | i <= k < |events| ensures events[k].date >= events[i].date {
      if i < k { assert DATE(events[i]) <= DATE(events[k]); }
    }
  }

  lemma {:induction false} NetNotNegative(guests: seq<Guest>, events: seq<Event>)
    requires Sane(guests) && IsSorting(DATE, events, EventsOf(guests))
    ensures forall d :: Net(events, d) == Occupancy(guests, d) >= 0
  {
    forall d ensures Net(events, d) == Occupancy(guests, d) >= 0 {
      NetOfPermutation(events, EventsOf(guests), d);
      NetIsOccupancy(guests, d);
      OccupancyNotNegative(guests, d);
    }
  }

  /** The loads that ComputeLoad returns: complete, and without repetition except perhaps at the end. */
  ghost predicate IsLoad(loads: seq<Load>, guests: seq<Guest>) {
    && (loads == [] <==> guests == [])
    && Ascending(loads)
    && (forall d :: CountAt(loads, d) == Occupancy(guests, d))
    && (guests != [] ==>
          && Changing(loads[..|loads| - 1])
          && loads[|loads| - 1].guestCount == 0
          && IsDate(guests, loads[|loads| - 1].startDate) && Latest(guests, loads[|loads| - 1].startDate)
          && IsDate(guests, loads[0].startDate) && Earliest(guests, loads[0].startDate))
  }

  lemma {:induction false} EndsOfDates(guests: seq<Guest>, events: seq<Event>)
    requires guests != [] && IsSorting(DATE, events, EventsOf(guests))
    ensures events != []
    ensures IsDate(guests, events[0].date) && Earliest(guests, events[0].date)
    ensures IsDate(guests, events[|events| - 1].date) && Latest(guests, events[|events| - 1].date)
  {
    var n := |events| - 1;
    SortingKeepsMembers(DATE, events, EventsOf(guests));
    DatesAreEvents(guests, guests[0]);
    EventsAreDates(guests, events[0]);
    EventsAreDates(guests, events[n]);
    forall e | e in events ensures events[0].date <= e.date <= events[n].date {
      var k :| 0 <= k < |events| && events[k] == e;
      assert k == 0 || DATE(events[0]) <= DATE(events[k]);
      assert k == n || DATE(events[k]) <= DATE(events[n]);
    }
    forall g | g in guests
      ensures events[0].date <= g.checkIn <= events[n].date && events[0].date <= g.checkOut <= events[n].date
    {
      DatesAreEvents(guests, g);
    }
  }

  /** After the last day nobody is left. */
  lemma {:induction false} NobodyAfter(guests: seq<Guest>, d: int)
    requires Latest(guests, d)
    ensures Occupancy(guests, d) == 0
  {
    if guests != [] {
      var g := guests[|guests| - 1];
      assert g in guests;
      NobodyAfter(guests[..|guests| - 1], d);
    }
  }

  /** The last load is added whatever its count. */
  lemma {:induction false} SweepEnds(loads: seq<Load>, guests: seq<Guest>, events: seq<Event>, cur: int, prev: int)
    requires guests != [] && Sane(guests) && IsSorting(DATE, events, EventsOf(guests)) && events != []
    requires cur == events[|events| - 1].date && Swept(loads, events, cur, prev)
    ensures Net(events, cur) == 0 && IsLoad(loads + [Load(cur, 0)], guests)
  {
    var all := loads + [Load(cur, 0)];
    NetNotNegative(guests, events);
    EndsOfDates(guests, events);
    NobodyAfter(guests, cur);
    assert all[..|all| - 1] == loads;
    forall d ensures CountAt(all, d) == Occupancy(guests, d) {
      if d < cur {
        CountBefore(loads, Load(cur, 0), d);
      } else {
        NobodyAfter(guests, d);
      }
    }
  }

  lemma {:induction false} SameLength(guests: seq<Guest>, events: seq<Event>)
    requires IsSorting(DATE, events, EventsOf(guests))
    ensures events == [] <==> guests == []
  {
    assert |multiset(events)| == |multiset(EventsOf(guests))|;
  }

  lemma {:induction false} NothingBefore(events: seq<Event>, c: int)
    requires forall k :: 0 <= k < |events| ==> events[k].date >= c
    ensures forall d :: d < c ==> Net(events, d) == 0
  {
    if events != [] { NothingBefore(events[..|events| - 1], c); }
  }

  /** The loop; level says that no day has fewer than no guests. */
  method SweepDays(events: seq<Event>, ghost level: bool)
    returns (loads: seq<Load>, curDate: int, curCnt: int, ghost prev: int)
    requires events != [] && OrderedBy(DATE, events) && (level ==> forall d :: Net(events, d) >= 0)
    ensures curDate == events[|events| - 1].date && curCnt == Net(events, curDate)
    ensures level ==> Swept(loads, events, curDate, prev)
  {
    loads := [];
    var prevCnt := -1;
    curDate, curCnt := events[0].date, 0;
    forall k | 0 <= k < |events| ensures events[k].date >= curDate {
      assert k == 0 || DATE(events[0]) <= DATE(events[k]);
    }
    NothingBefore(events, curDate);
    for i := 0 to |events|
      invariant curDate == events[if i == 0 then 0 else i - 1].date
      invariant curCnt == Net(events[..i], curDate)
      invariant level ==> Swept(loads, events, curDate, prevCnt)
    {
      var event := events[i];
      if i > 0 { InOrder(events, i); }
      if event.date > curDate {
        if level { SweepOn(loads, events, i, curDate, event.date, prevCnt); }
        NetStays(events[..i], curDate, event.date);
        if prevCnt != curCnt {
          loads := loads + [Load(curDate, curCnt)];
          prevCnt := curCnt;
        }
        curDate := event.date;
      }
      assert events[..i + 1] == events[..i] + [event];
      NetAppend(events[..i], event, curDate);
      if event.isComeIn { curCnt := curCnt + 1; } else { curCnt := curCnt - 1; }
    }
    assert events[..|events|] == events;
    prev := prevCnt;
  }

  /** The sweep over events in any order that puts earlier days first. */
  method Sweep(events: seq<Event>, ghost guests: seq<Guest>) returns (loads: seq<Load>)
    requires IsSorting(DATE, events, EventsOf(guests))
    ensures Sane(guests) ==> IsLoad(loads, guests)
  {
    SameLength(guests, events);
    if |events| == 0 { return []; }
    if Sane(guests) { NetNotNegative(guests, events); }
    var curDate, curCnt;
    ghost var prev;
    loads, curDate, curCnt, prev := SweepDays(events, Sane(guests));
    if Sane(guests) { SweepEnds(loads, guests, events, curDate, prev); }
    loads := loads + [Load(curDate, curCnt)];
  }

  method ComputeLoad(guests: seq<Guest>) returns (loads: seq<Load>)
    ensures Sane(guests) ==> IsLoad(loads, guests)
  {
    var unsorted := Events(guests);
    var events := Sort(DATE, unsorted);
    loads := Sweep(events, guests);
  }

  // ----- The loads are exactly the days of change

  predicate StartsOn(loads: seq<Load>, d: int) { exists l :: l in loads && l.startDate == d }

  lemma {:induction false} CountAtLoad(loads: seq<Load>, i: nat, d: int)
    requires Ascending(loads) && i < |loads| && loads[i].startDate <= d
    requires i + 1 < |loads| ==> d < loads[i + 1].startDate
    ensures CountAt(loads, d) == loads[i].guestCount
  {
    var n := |loads| - 1;
    if i < n { CountAtLoad(loads[..n], i, d); }
  }

  lemma {:induction false} CountBeforeFirst(loads: seq<Load>, d: int)
    requires forall l :: l in loads ==> d < l.startDate
    ensures CountAt(loads, d) == 0
  {
    if loads != [] { CountBeforeFirst(loads[..|loads| - 1], d); }
  }

  lemma {:induction false} SameCount(loads: seq<Load>, d: int)
    requires !StartsOn(loads, d)
    ensures CountAt(loads, d) == CountAt(loads, d - 1)
  {
    if loads != [] {
      var n := |loads| - 1;
      assert loads[n] in loads;
      assert forall l :: l in loads[..n] ==> l in loads;
      SameCount(loads[..n], d);
    }
  }

  lemma {:induction false} FirstCount(loads: seq<Load>, guests: seq<Guest>)
    requires IsLoad(loads, guests) && loads != []
    ensures loads[0].guestCount == Occupancy(guests, loads[0].startDate)
  {
    CountAtLoad(loads, 0, loads[0].startDate);
  }

  ghost predicate StartsAtChanges(loads: seq<Load>, guests: seq<Guest>) {
    forall d :: StartsOn(loads, d) <==> Occupancy(guests, d) != Occupancy(guests, d - 1)
  }

  /** Somebody stays the night of the first date, and somebody stayed the night before the last. */
  ghost predicate StaysAtEnds(guests: seq<Guest>) {
    && (forall d :: IsDate(guests, d) && Earliest(guests, d) ==> Occupancy(guests, d) > 0)
    && (forall d :: IsDate(guests, d) && Latest(guests, d) ==> Occupancy(guests, d - 1) > 0)
  }

  /** The first date is unique, and so is the last. */
  lemma {:induction false} SameEnd(guests: seq<Guest>, d: int, e: int)
    requires IsDate(guests, d) && IsDate(guests, e)
    requires (Earliest(guests, d) && Earliest(guests, e)) || (Latest(guests, d) && Latest(guests, e))
    ensures d == e
  {
    var g :| g in guests && (g.checkIn == d || g.checkOut == d);
    var h :| h in guests && (h.checkIn == e || h.checkOut == e);
  }

  lemma {:induction false} NobodyBefore(guests: seq<Guest>, d: int)
    requires Earliest(guests, d)
    ensures Occupancy(guests, d - 1) == 0
  {
    if guests != [] {
      var g := guests[|guests| - 1];
      assert g in guests;
      NobodyBefore(guests[..|guests| - 1], d);
    }
  }

  lemma {:induction false} EndsChange(loads: seq<Load>, guests: seq<Guest>)
    requires IsLoad(loads, guests) && loads != [] && StaysAtEnds(guests)
    ensures Changing(loads) && loads[0].guestCount > 0
  {
    var n := |loads| - 1;
    FirstCount(loads, guests);
    if n > 0 {
      CountAtLoad(loads, n - 1, loads[n].startDate - 1);
      assert loads[..n][n - 1] == loads[n - 1];
    }
  }

  lemma {:induction false} StartIsChange(loads: seq<Load>, guests: seq<Guest>, d: int)
    requires IsLoad(loads, guests) && loads != [] && StaysAtEnds(guests)
    ensures StartsOn(loads, d) <==> Occupancy(guests, d) != Occupancy(guests, d - 1)
  {
    if !StartsOn(loads, d) {
      SameCount(loads, d);
    } else {
      var l :| l in loads && l.startDate == d;
      var i :| 0 <= i < |loads| && loads[i] == l;
      CountAtLoad(loads, i, d);
      EndsChange(loads, guests);
      if i == 0 {
        CountBeforeFirst(loads, d - 1);
      } else {
        CountAtLoad(loads, i - 1, d - 1);
        assert Changing(loads);
      }
    }
  }

  lemma {:induction false} EndsAreStarts(loads: seq<Load>, guests: seq<Guest>)
    requires IsLoad(loads, guests) && loads != [] && StartsAtChanges(loads, guests)
    ensures Occupancy(guests, loads[0].startDate) > 0 && Occupancy(guests, loads[|loads| - 1].startDate - 1) > 0
  {
    var first, last := loads[0].startDate, loads[|loads| - 1].startDate;
    assert loads[0] in loads && loads[|loads| - 1] in loads;
    assert StartsOn(loads, first) && StartsOn(loads, last);
    NobodyBefore(guests, first);
    NobodyAfter(guests, last);
    OccupancyNotNegative(guests, first);
    OccupancyNotNegative(guests, last - 1);
  }

  /** The loads start exactly on the days of change if and only if somebody stays at both ends. */
  lemma {:induction false} LoadsAreChangesIff(loads: seq<Load>, guests: seq<Guest>)
    requires IsLoad(loads, guests)
    ensures StartsAtChanges(loads, guests) <==> StaysAtEnds(guests)
  {
    if loads != [] {
      if StaysAtEnds(guests) {
        forall d ensures StartsOn(loads, d) <==> Occupancy(guests, d) != Occupancy(guests, d - 1) {
          StartIsChange(loads, guests, d);
        }
      }
      if StartsAtChanges(loads, guests) {
        EndsAreStarts(loads, guests);
        forall d | IsDate(guests, d) && Earliest(guests, d) { SameEnd(guests, d, loads[0].startDate); }
        forall d | IsDate(guests, d) && Latest(guests, d) { SameEnd(guests, d, loads[|loads| - 1].startDate); }
      }
    }
  }

  lemma {:induction false} StayingAtEnds(guests: seq<Guest>)
    requires Staying(guests)
    ensures StaysAtEnds(guests)
  {
    forall d | IsDate(guests, d) && Earliest(guests, d) ensures Occupancy(guests, d) > 0 {
      var g :| g in guests && (g.checkIn == d || g.checkOut == d);
      OccupancyNotNegative(guests, d);
      assert g.checkIn <= d < g.checkOut;
    }
    forall d | IsDate(guests, d) && Latest(guests, d) ensures Occupancy(guests, d - 1) > 0 {
      var g :| g in guests && (g.checkIn == d || g.checkOut == d);
      OccupancyNotNegative(guests, d - 1);
      assert g.checkIn <= d - 1 < g.checkOut;
    }
  }

  /** When every guest stays for a night, a load starts on a day exactly when the occupancy of that day differs from the
    * day before. */
  lemma {:induction false} LoadsAreChanges(loads: seq<Load>, guests: seq<Guest>)
    requires IsLoad(loads, guests) && Staying(guests)
    ensures StartsAtChanges(loads, guests)
  {
    StayingAtEnds(guests);
    LoadsAreChangesIff(loads, guests);
  }

  /** A guest who leaves on the day of arrival makes a load that is no change. */
  lemma {:induction false} DayGuestIsNoChange(d: int)
    ensures var guests := [Guest(d, d)];
      forall loads :: IsLoad(loads, guests) ==> StartsOn(loads, d) && Occupancy(guests, d) == Occupancy(guests, d - 1)
  {
    var guests := [Guest(d, d)];
    assert guests[..0] == [];
    forall loads | IsLoad(loads, guests) ensures StartsOn(loads, d) {
      assert loads[0] in loads;
    }
  }
}
