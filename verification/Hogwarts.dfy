/** The course planner: a depth-first search that numbers courses as it enters and leaves them. */
module Hogwarts {
  import opened Sorting

  type Course = string
  type Prereqs = map<Course, seq<Course>>

  datatype Timings = Timings(name: Course, timeIn: int, timeOut: int)

  const NO_TIMINGS := Timings("", 0, 0)

  /** The course list, or the panic about cyclic dependencies. */
  datatype Plan = Courses(list: seq<Course>) | CyclePanic

  // ----- The prerequisite graph

  function Deps(p: Prereqs, c: Course): seq<Course> { if c in p then p[c] else [] }

  /** Every course that occurs as a key or as a prerequisite. */
  function Mentioned(p: Prereqs): set<Course> { p.Keys + set c, d | c in p && d in p[c] :: d }

  /** Each course on the path requires the next one. */
  ghost predicate IsPath(p: Prereqs, path: seq<Course>) {
    forall i :: 0 <= i < |path| - 1 ==> path[i + 1] in Deps(p, path[i])
  }

  ghost predicate IsCycle(p: Prereqs, path: seq<Course>) {
    path != [] && IsPath(p, path) && path[0] in Deps(p, path[|path| - 1])
  }

  ghost predicate Cyclic(p: Prereqs) { exists path :: IsCycle(p, path) }

  /** Numbers that fall along every requirement. */
  ghost predicate Falls(p: Prereqs, number: Course -> int) {
    forall c, d :: d in Deps(p, c) ==> number(d) < number(c)
  }

  lemma {:induction false} FallingNumbersMeanAcyclic(p: Prereqs, number: Course -> int)
    requires Falls(p, number)
    ensures !Cyclic(p)
  {
    if path :| IsCycle(p, path) {
      PathFalls(p, number, path, |path| - 1);
    }
  }

  lemma {:induction false} PathFalls(p: Prereqs, number: Course -> int, path: seq<Course>, k: nat)
    requires Falls(p, number) && IsPath(p, path) && k < |path|
    ensures number(path[k]) <= number(path[0])
  {
    if k > 0 {
      PathFalls(p, number, path, k - 1);
      assert path[k - 1 + 1] in Deps(p, path[k - 1]);
    }
  }

  /** Coming back to a course on the path closes a cycle. */
  lemma {:induction false} BackEdgeIsCycle(p: Prereqs, path: seq<Course>, i: nat)
    requires IsPath(p, path) && i < |path| && path[i] in Deps(p, path[|path| - 1])
    ensures Cyclic(p)
  {
    var cycle := path[i..];
    forall j | 0 <= j < |cycle| - 1 ensures cycle[j + 1] in Deps(p, cycle[j]) {
      assert path[(i + j) + 1] in Deps(p, path[i + j]);
    }
    assert IsCycle(p, cycle);
  }

  // ----- The marks of the search

  type Marks = map<Course, Timings>

  predicate Done(times: Marks, c: Course) { c in times && times[c].timeOut != 0 }

  ghost predicate Timed(p: Prereqs, times: Marks, now: int) {
    && now >= 1
    && times.Keys <= Mentioned(p)
    && forall c :: c in times ==> times[c].name == c && 0 < times[c].timeIn && times[c].timeOut < now
  }

  /** A course that is done comes after everything it requires, and no two courses are done at the same time. */
  ghost predicate Finished(p: Prereqs, times: Marks) {
    && (forall c, d :: Done(times, c) && Done(times, d) && times[c].timeOut == times[d].timeOut ==> c == d)
    && (forall c, d :: Done(times, c) && d in Deps(p, c) ==> Done(times, d) && times[d].timeOut < times[c].timeOut)
  }

  /** The courses in progress are those on the path, each required by the one before it. */
  ghost predicate InProgress(p: Prereqs, times: Marks, path: seq<Course>) {
    && (forall c :: c in times && !Done(times, c) <==> c in path)
    && IsPath(p, path)
  }

  ghost predicate Consistent(p: Prereqs, times: Marks, now: int, path: seq<Course>) {
    Timed(p, times, now) && Finished(p, times) && InProgress(p, times, path)
  }

  /** Nothing that was marked has changed. */
  predicate Extends(before: Marks, after: Marks) { forall c :: c in before ==> c in after && after[c] == before[c] }

  lemma {:induction false} Enter(p: Prereqs, times: Marks, now: int, path: seq<Course>, name: Course)
    requires Consistent(p, times, now, path) && name in Mentioned(p) && name !in times
    requires path != [] ==> name in Deps(p, path[|path| - 1])
    ensures Consistent(p, times[name := Timings(name, now, 0)], now + 1, path + [name])
  {
    var times' := times[name := Timings(name, now, 0)];
    EnterFinished(p, times, times', name);
    assert Timed(p, times', now + 1);
    EnterInProgress(p, times, times', path, name);
  }

  lemma {:induction false} EnterInProgress(p: Prereqs, times: Marks, times': Marks, path: seq<Course>, name: Course)
    requires InProgress(p, times, path) && name !in times && Extends(times, times')
    requires times'.Keys == times.Keys + {name} && times'[name].timeOut == 0
    requires path != [] ==> name in Deps(p, path[|path| - 1])
    ensures InProgress(p, times', path + [name])
  {
    forall c ensures c in times' && !Done(times', c) <==> c in path + [name] {
      assert c in times && !Done(times, c) <==> c in path;
    }
  }

  lemma {:induction false} EnterFinished(p: Prereqs, times: Marks, times': Marks, name: Course)
    requires Finished(p, times) && name !in times && Extends(times, times')
    requires times'.Keys == times.Keys + {name} && times'[name].timeOut == 0
    ensures Finished(p, times')
  {
    assert forall c :: Done(times', c) <==> Done(times, c);
  }

  lemma {:induction false} Leave(p: Prereqs, times: Marks, now: int, path: seq<Course>, name: Course)
    requires Consistent(p, times, now, path + [name]) && name !in path
    requires forall d :: d in Deps(p, name) ==> Done(times, d)
    ensures Consistent(p, times[name := times[name].(timeOut := now)], now + 1, path)
  {
    assert (path + [name])[|path|] == name;
    var times' := times[name := times[name].(timeOut := now)];
    LeaveFinished(p, times, times', now, name);
    LeaveInProgress(p, times, times', path, name);
  }

  lemma {:induction false} LeaveFinished(p: Prereqs, times: Marks, times': Marks, now: int, name: Course)
    requires Finished(p, times) && Timed(p, times, now) && name in times && !Done(times, name)
    requires times' == times[name := times[name].(timeOut := now)]
    requires forall d :: d in Deps(p, name) ==> Done(times, d)
    ensures Finished(p, times')
  {
    forall c ensures Done(times', c) <==> Done(times, c) || c == name {}
  }

  lemma {:induction false} LeaveInProgress(p: Prereqs, times: Marks, times': Marks, path: seq<Course>, name: Course)
    requires InProgress(p, times, path + [name]) && name !in path
    requires times'.Keys == times.Keys && Done(times', name)
    requires forall c :: c in times && c != name ==> times'[c] == times[c]
    ensures InProgress(p, times', path)
  {
    var here := path + [name];
    forall c ensures c in times' && !Done(times', c) <==> c in path {
      assert c in times && !Done(times, c) <==> c in here;
    }
    forall i | 0 <= i < |path| - 1 ensures path[i + 1] in Deps(p, path[i]) {
      assert here[i + 1] in Deps(p, here[i]);
    }
  }

  /** A course that was entered after `before` can be left again without changing what was marked before. */
  lemma {:induction false} LeaveExtends(p: Prereqs, before: Marks, entered: Marks, times: Marks, now: int,
                                        path: seq<Course>, name: Course)
    requires name !in before && name in entered && name !in path
    requires Extends(before, entered) && Extends(entered, times) && Consistent(p, times, now, path + [name])
    requires forall d :: d in Deps(p, name) ==> Done(times, d)
    ensures times[name] == entered[name]
    ensures var times' := times[name := times[name].(timeOut := now)];
            Consistent(p, times', now + 1, path) && Done(times', name) && Extends(before, times')
  {
    Leave(p, times, now, path, name);
  }

  lemma ExtendsTrans(a: Marks, b: Marks, c: Marks)
    requires Extends(a, b) && Extends(b, c)
    ensures Extends(a, c)
  {
  }

  /** A requirement that is entered and not done lies on the path. */
  lemma {:induction false} OpenDepIsCycle(p: Prereqs, times: Marks, now: int, path: seq<Course>, d: Course)
    requires Consistent(p, times, now, path) && path != []
    requires d in Deps(p, path[|path| - 1]) && d in times && !Done(times, d)
    ensures Cyclic(p)
  {
    assert d in path;
    var k :| 0 <= k < |path| && path[k] == d;
    BackEdgeIsCycle(p, path, k);
  }

  lemma {:induction false} DepIsMentioned(p: Prereqs, c: Course, d: Course)
    requires d in Deps(p, c)
    ensures d in Mentioned(p)
  {
    assert c in p && d in p[c];
  }

  lemma DoneStays(before: Marks, after: Marks, deps: seq<Course>, i: nat)
    requires i < |deps| && Extends(before, after) && Done(after, deps[i])
    requires forall j :: 0 <= j < i ==> Done(before, deps[j])
    ensures forall j :: 0 <= j < i + 1 ==> Done(after, deps[j])
  {
  }

  lemma {:induction false} FewerLeft(p: Prereqs, before: Marks, after: Marks, name: Course)
    requires name in Mentioned(p) && name !in before && name in after && Extends(before, after)
    ensures Mentioned(p) - after.Keys < Mentioned(p) - before.Keys
  {
    assert name in Mentioned(p) - before.Keys;
  }

  lemma NoMoreLeft(p: Prereqs, before: Marks, after: Marks)
    requires Extends(before, after)
    ensures Mentioned(p) - after.Keys <= Mentioned(p) - before.Keys
  {
  }

  // ----- The search

  class Search {
    const prereqs: Prereqs
    var times: Marks
    var curTime: int

    constructor (prereqs: Prereqs)
      ensures this.prereqs == prereqs && Valid([]) && times == map[]
    {
      this.prereqs := prereqs;
      times := map[];
      curTime := 1;
    }

    ghost predicate Valid(path: seq<Course>)
      reads this
    {
      Consistent(prereqs, times, curTime, path)
    }

    function Look(c: Course): Timings
      reads this
    {
      if c in times then times[c] else NO_TIMINGS
    }

    /** Searches from a course that was not entered yet; false means that the search panicked. */
    method Visit(name: Course, ghost path: seq<Course>) returns (ok: bool)
      requires Valid(path) && name in Mentioned(prereqs) && name !in times
      requires path != [] ==> name in Deps(prereqs, path[|path| - 1])
      modifies this
      ensures ok ==> Valid(path) && Done(times, name) && Extends(old(times), times)
      ensures !ok ==> Cyclic(prereqs)
      decreases Mentioned(prereqs) - times.Keys, 1
    {
      Enter(prereqs, times, curTime, path, name);
      var thisTime := Look(name).(timeIn := curTime, name := name);
      times := times[name := thisTime];
      curTime := curTime + 1;
      ghost var here := path + [name];
      FewerLeft(prereqs, old(times), times, name);
      ghost var entered := times;
      var done := RequireAll(name, here);
      if !done { return false; }
      LeaveExtends(prereqs, old(times), entered, times, curTime, path, name);
      thisTime := thisTime.(timeOut := curTime);
      times := times[name := thisTime];
      curTime := curTime + 1;
      ok := true;
    }

    /** The loop over the requirements of the last course on the path. */
    method RequireAll(name: Course, ghost path: seq<Course>) returns (ok: bool)
      requires Valid(path) && path != [] && path[|path| - 1] == name
      modifies this
      ensures ok ==> Valid(path) && Extends(old(times), times)
      ensures ok ==> forall d :: d in Deps(prereqs, name) ==> Done(times, d)
      ensures !ok ==> Cyclic(prereqs)
      decreases Mentioned(prereqs) - times.Keys, 3
    {
      var deps := Deps(prereqs, name);
      for i := 0 to |deps|
        invariant Valid(path) && Extends(old(times), times)
        invariant forall j :: 0 <= j < i ==> Done(times, deps[j])
      {
        NoMoreLeft(prereqs, old(times), times);
        ghost var before := times;
        var done := Require(deps[i], path);
        if !done { return false; }
        ExtendsTrans(old(times), before, times);
        DoneStays(before, times, deps, i);
      }
      ok := true;
    }

    /** One pass through the loop over the requirements of the last course on the path. */
    method Require(d: Course, ghost path: seq<Course>) returns (ok: bool)
      requires Valid(path) && path != [] && d in Deps(prereqs, path[|path| - 1])
      modifies this
      ensures ok ==> Valid(path) && Done(times, d) && Extends(old(times), times)
      ensures !ok ==> Cyclic(prereqs)
      decreases Mentioned(prereqs) - times.Keys, 2
    {
      var depTime := Look(d);
      if depTime.timeOut != 0 { return true; }
      if depTime.timeIn != 0 {
        OpenDepIsCycle(prereqs, times, curTime, path, d);
        return false;
      }
      DepIsMentioned(prereqs, path[|path| - 1], d);
      ok := Visit(d, path);
    }
  }

  // ----- The course list

  /** A list that names every mentioned course once, each after everything it requires. */
  ghost predicate IsCourseList(p: Prereqs, list: seq<Course>) {
    && Distinct(list)
    && (forall c :: c in list <==> c in Mentioned(p))
    && (forall i, d :: 0 <= i < |list| && d in Deps(p, list[i]) ==> exists j :: 0 <= j < i && list[j] == d)
  }

  const OUT_KEY: Timings -> int := (t: Timings) => t.timeOut

  ghost predicate AllKeysDone(p: Prereqs, times: Marks, left: set<Course>) {
    forall c :: c in p && c !in left ==> Done(times, c)
  }

  lemma KeyDone(p: Prereqs, left: set<Course>, before: Marks, after: Marks, name: Course)
    requires AllKeysDone(p, before, left + {name}) && Extends(before, after) && Done(after, name)
    ensures AllKeysDone(p, after, left)
  {
  }

  lemma {:induction false} MentionedDone(p: Prereqs, times: Marks, c: Course)
    requires Finished(p, times) && AllKeysDone(p, times, {}) && c in Mentioned(p)
    ensures Done(times, c)
  {
    if c !in p {
      var k :| k in p && c in p[k];
      assert c in Deps(p, k);
    }
  }

  lemma {:induction false} FinishedIsAcyclic(p: Prereqs, times: Marks)
    requires Finished(p, times) && AllKeysDone(p, times, {})
    ensures !Cyclic(p)
  {
    var number := (c: Course) => if c in times then times[c].timeOut else 0;
    assert Falls(p, number);
    FallingNumbersMeanAcyclic(p, number);
  }

  /** When every key is done, so is every requirement, and the numbers rule out cycles. */
  lemma {:induction false} AllDone(p: Prereqs, times: Marks, now: int)
    requires Consistent(p, times, now, []) && AllKeysDone(p, times, {})
    ensures times.Keys == Mentioned(p) && (forall c :: c in times ==> Done(times, c)) && !Cyclic(p)
  {
    forall c | c in Mentioned(p) ensures Done(times, c) { MentionedDone(p, times, c); }
    FinishedIsAcyclic(p, times);
  }

  /** The marks, in an arbitrary order. */
  ghost predicate Lists(courses: seq<Timings>, times: Marks) {
    && Distinct(courses)
    && (forall c :: c in times ==> times[c] in courses)
    && (forall t :: t in courses ==> t.name in times && times[t.name] == t)
  }

  method Collect(times: Marks) returns (courses: seq<Timings>)
    requires forall c :: c in times ==> times[c].name == c
    ensures Lists(courses, times)
  {
    courses := [];
    var names := times.Keys;
    while names != {}
      invariant names <= times.Keys && Distinct(courses)
      invariant forall c :: c in times && c !in names ==> times[c] in courses
      invariant forall t :: t in courses ==> t.name in times && t.name !in names && times[t.name] == t
    {
      var name :| name in names;
      names := names - {name};
      courses := courses + [times[name]];
    }
  }

  function Names(ts: seq<Timings>): (ns: seq<Course>)
    ensures |ns| == |ts| && forall i :: 0 <= i < |ts| ==> ns[i] == ts[i].name
  {
    seq(|ts|, i requires 0 <= i < |ts| => ts[i].name)
  }

  lemma {:induction false} IndexOf(times: Marks, sorted: seq<Timings>, c: Course) returns (i: nat)
    requires c in times && times[c].name == c && Lists(sorted, times)
    ensures i < |sorted| && sorted[i] == times[c] && Names(sorted)[i] == c
  {
    assert times[c] in sorted;
    i :| i < |sorted| && sorted[i] == times[c];
  }

  lemma {:induction false} NamesAreMentioned(times: Marks, sorted: seq<Timings>, c: Course)
    requires Lists(sorted, times) && forall d :: d in times ==> times[d].name == d
    ensures c in Names(sorted) <==> c in times
  {
    if c in times { var i := IndexOf(times, sorted, c); }
    if i :| 0 <= i < |sorted| && Names(sorted)[i] == c { assert sorted[i] in sorted; }
  }

  lemma {:induction false} NamesAreDistinct(times: Marks, sorted: seq<Timings>)
    requires Lists(sorted, times)
    ensures Distinct(Names(sorted))
  {
    forall i, j | 0 <= i < j < |sorted| ensures Names(sorted)[i] != Names(sorted)[j] {
      assert sorted[i] in sorted && sorted[j] in sorted && sorted[i] != sorted[j];
    }
  }

  /** A course stands behind whatever it requires. */
  lemma {:induction false} RequiredFirst(p: Prereqs, times: Marks, sorted: seq<Timings>, i: nat,
                                         d: Course) returns (j: nat)
    requires Lists(sorted, times) && OrderedBy(OUT_KEY, sorted)
    requires Finished(p, times) && (forall c :: c in times ==> Done(times, c) && times[c].name == c)
    requires i < |sorted| && d in Deps(p, Names(sorted)[i])
    ensures j < i && Names(sorted)[j] == d
  {
    var c := Names(sorted)[i];
    assert sorted[i] in sorted;
    assert Done(times, c) && Done(times, d) && times[d].timeOut < times[c].timeOut;
    j := IndexOf(times, sorted, d);
    assert OUT_KEY(sorted[j]) < OUT_KEY(sorted[i]);
  }

  lemma {:induction false} SortedMarksAreCourseList(p: Prereqs, times: Marks, courses: seq<Timings>,
                                                    sorted: seq<Timings>)
    requires times.Keys == Mentioned(p) && Finished(p, times)
    requires forall c :: c in times ==> Done(times, c) && times[c].name == c
    requires Lists(courses, times) && IsSorting(OUT_KEY, sorted, courses)
    ensures IsCourseList(p, Names(sorted))
  {
    SortingKeepsMembers(OUT_KEY, sorted, courses);
    SortingKeepsDistinct(OUT_KEY, sorted, courses);
    assert Lists(sorted, times);
    NamesAreDistinct(times, sorted);
    forall c ensures c in Names(sorted) <==> c in Mentioned(p) {
      NamesAreMentioned(times, sorted, c);
    }
    forall i, d | 0 <= i < |sorted| && d in Deps(p, Names(sorted)[i])
      ensures exists j :: 0 <= j < i && Names(sorted)[j] == d
    {
      var j := RequiredFirst(p, times, sorted, i, d);
    }
  }

  /** Panics exactly on cyclic requirements; otherwise orders the courses, whatever the order of map iteration. */
  method GetCourseList(prereqs: Prereqs) returns (r: Plan)
    ensures r.CyclePanic? <==> Cyclic(prereqs)
    ensures r.Courses? ==> IsCourseList(prereqs, r.list)
  {
    var search := new Search(prereqs);
    var names := prereqs.Keys;
    while names != {}
      invariant search.Valid([]) && search.prereqs == prereqs && names <= prereqs.Keys
      invariant AllKeysDone(prereqs, search.times, names)
    {
      var name :| name in names;
      names := names - {name};
      if search.Look(name).timeOut != 0 { continue; }
      ghost var before := search.times;
      var ok := search.Visit(name, []);
      if !ok { return CyclePanic; }
      KeyDone(prereqs, names, before, search.times, name);
    }
    AllDone(prereqs, search.times, search.curTime);
    var courses := Collect(search.times);
    var sorted := Sort(OUT_KEY, courses);
    SortedMarksAreCourseList(prereqs, search.times, courses, sorted);
    r := Courses(Names(sorted));
  }
}
