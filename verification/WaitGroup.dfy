/** The wait group built on two one-slot channels, as interleaved steps of any number of goroutines.
  *
  * Every channel operation and every critical section is a step of its own.  `mu` and `ch` say whether the channel
  * holds its token.
  */
module WaitGroup {

  /** Where a goroutine is.  The states from AddLocked to AddUnlock, WaitLocked, WaitYield, WaitRecheck and WaitLeave
    * are those between a receive from `mu` and the send back. */
  datatype PC =
    | Idle
    | AddStart(delta: int)
    | AddLocked(delta: int)
    | AddDrain      // the counter left 0: take the wake-up token away
    | AddSignal     // the counter reached 0: provide the wake-up token
    | AddUnlock
    | WaitStart
    | WaitLocked
    | WaitYield     // saw a positive counter; gives `mu` back and blocks
    | WaitBlocked
    | WaitWoken     // received the token from `ch`
    | WaitRecheck   // holds `mu` again
    | WaitLeave

  datatype State = State(cnt: int, ch: bool, mu: bool, panicked: bool, pcs: seq<PC>)

  predicate Holds(pc: PC) {
    pc.AddLocked? || pc.AddDrain? || pc.AddSignal? || pc.AddUnlock? ||
    pc.WaitLocked? || pc.WaitYield? || pc.WaitRecheck? || pc.WaitLeave?
  }

  predicate InAdd(pc: PC) { pc.AddStart? || pc.AddLocked? || pc.AddDrain? || pc.AddSignal? || pc.AddUnlock? }

  predicate InWait(pc: PC) { !pc.Idle? && !InAdd(pc) }

  /** `New`: both tokens are in their channels. */
  ghost predicate Init(s: State) {
    s.cnt == 0 && s.ch && s.mu && !s.panicked && forall t :: 0 <= t < |s.pcs| ==> s.pcs[t].Idle?
  }

  function Move(s: State, t: nat, pc: PC): State
    requires t < |s.pcs|
  {
    s.(pcs := s.pcs[t := pc])
  }

  /** Goroutine t can take a step inside its call; a blocked channel operation is not enabled. */
  predicate Enabled(s: State, t: nat)
    requires t < |s.pcs|
  {
    match s.pcs[t]
    case Idle => false
    case AddStart(delta) => delta == 0 || s.mu
    case WaitStart => s.mu
    case WaitBlocked => s.ch
    case WaitWoken => s.mu
    case AddUnlock => !s.mu
    case WaitYield => !s.mu
    case WaitLeave => !s.mu
    case _ => true
  }

  /** The step of goroutine t inside its call. */
  function Step(s: State, t: nat): State
    requires t < |s.pcs| && Enabled(s, t)
  {
    match s.pcs[t]
    case AddStart(delta) => if delta == 0 then Move(s, t, Idle) else Move(s, t, AddLocked(delta)).(mu := false)
    case AddLocked(delta) =>
      var cnt := s.cnt + delta;
      if cnt < 0 then s.(cnt := cnt, panicked := true)
      else
        Move(s, t, if s.cnt == 0 && cnt > 0 then AddDrain else if cnt == 0 then AddSignal else AddUnlock).(cnt := cnt)
    case AddDrain => Move(s, t, AddUnlock).(ch := false)
    case AddSignal => Move(s, t, AddUnlock).(ch := true)
    case AddUnlock => Move(s, t, Idle).(mu := true)
    case WaitStart => Move(s, t, WaitLocked).(mu := false)
    case WaitLocked => Move(s, t, if s.cnt == 0 then WaitLeave else WaitYield)
    case WaitYield => Move(s, t, WaitBlocked).(mu := true)
    case WaitBlocked => Move(s, t, WaitWoken).(ch := false)
    case WaitWoken => Move(s, t, WaitRecheck).(mu := false)
    case WaitRecheck => Move(s, t, WaitLeave).(ch := s.ch || s.cnt == 0)
    case WaitLeave => Move(s, t, Idle).(mu := true)
    case Idle => s
  }

  /** A goroutine that is in no call begins one. */
  predicate Begins(s: State, s': State, t: nat)
    requires t < |s.pcs|
  {
    && s.pcs[t].Idle? && |s'.pcs| == |s.pcs| && (s'.pcs[t].AddStart? || s'.pcs[t].WaitStart?)
    && s' == Move(s, t, s'.pcs[t])
  }

  predicate Next(s: State, s': State, t: nat)
  {
    !s.panicked && t < |s.pcs| && (Begins(s, s', t) || (Enabled(s, t) && s' == Step(s, t)))
  }

  ghost predicate SomeStep(s: State, s': State) { exists t: nat :: Next(s, s', t) }

  function Last(r: seq<State>): State
    requires r != []
  {
    r[|r| - 1]
  }

  function Front(r: seq<State>): seq<State>
    requires r != []
  {
    r[..|r| - 1]
  }

  /** An interleaving: each state follows from the one before by a step of some goroutine. */
  ghost predicate Run(r: seq<State>) {
    r != [] && if |r| == 1 then Init(r[0]) else Run(Front(r)) && SomeStep(Last(Front(r)), Last(r))
  }

  /** The counter has been 0 since goroutine t began the wait it is in. */
  function ZeroSeen(r: seq<State>, t: nat): bool
    requires r != []
  {
    t < |Last(r).pcs| && InWait(Last(r).pcs[t]) &&
    (Last(r).cnt == 0 || (|r| > 1 && ZeroSeen(Front(r), t)))
  }

  // ----- What holds in every state

  /** Either `mu` holds its token or exactly one goroutine does. */
  ghost predicate MutexInv(s: State) {
    && (s.mu ==> forall t :: 0 <= t < |s.pcs| ==> !Holds(s.pcs[t]))
    && (!s.mu ==> exists t :: 0 <= t < |s.pcs| && Holds(s.pcs[t]))
    && (forall t, u :: 0 <= t < u < |s.pcs| ==> !Holds(s.pcs[t]) || !Holds(s.pcs[u]))
  }

  /** What a goroutine that holds `mu` knows about the counter. */
  predicate Knows(s: State, pc: PC) {
    match pc
    case AddLocked(delta) => delta != 0
    case AddDrain => s.cnt > 0
    case AddSignal => s.cnt == 0
    case WaitYield => s.cnt > 0
    case _ => true
  }

  ghost predicate CounterInv(s: State) { s.cnt >= 0 && forall t :: 0 <= t < |s.pcs| ==> Knows(s, s.pcs[t]) }

  predicate CarriesToken(pc: PC) { pc.WaitWoken? || pc.WaitRecheck? || pc.AddSignal? }

  /** At a positive counter the token is in `ch` only while it is being drained; at counter 0 it is in `ch`, or on its
    * way there, or with a waiter that has passed its receive. */
  ghost predicate TokenInv(s: State) {
    && (s.ch && s.cnt > 0 ==> exists t :: 0 <= t < |s.pcs| && s.pcs[t].AddDrain?)
    && (s.cnt == 0 ==> s.ch || exists t :: 0 <= t < |s.pcs| && CarriesToken(s.pcs[t]))
  }

  ghost predicate Inv(s: State) { MutexInv(s) && CounterInv(s) && TokenInv(s) }

  lemma {:induction false} StepKeepsMutex(s: State, t: nat)
    requires MutexInv(s) && t < |s.pcs| && Enabled(s, t) && !Step(s, t).panicked
    ensures MutexInv(Step(s, t))
  {
    var s' := Step(s, t);
    assert forall u :: 0 <= u < |s.pcs| && u != t ==> s'.pcs[u] == s.pcs[u];
    if Holds(s'.pcs[t]) { assert !s'.mu; }
    if !s.mu && !Holds(s.pcs[t]) {
      var h :| 0 <= h < |s.pcs| && Holds(s.pcs[h]);
      assert Holds(s'.pcs[h]);
    }
  }

  lemma {:induction false} StepKeepsCounter(s: State, t: nat)
    requires MutexInv(s) && CounterInv(s) && t < |s.pcs| && Enabled(s, t) && !Step(s, t).panicked
    ensures CounterInv(Step(s, t))
  {
    var s' := Step(s, t);
    assert Knows(s, s.pcs[t]);
    forall u | 0 <= u < |s.pcs| ensures Knows(s', s'.pcs[u]) {
      if u != t {
        assert s'.pcs[u] == s.pcs[u] && Knows(s, s.pcs[u]);
        if s'.cnt != s.cnt { assert Holds(s.pcs[t]); }
      }
    }
  }

  lemma {:induction false} StepKeepsToken(s: State, t: nat)
    requires Inv(s) && t < |s.pcs| && Enabled(s, t) && !Step(s, t).panicked
    ensures TokenInv(Step(s, t))
  {
    var s' := Step(s, t);
    assert Knows(s, s.pcs[t]);
    if s'.ch && s'.cnt > 0 {
      if s.ch && s.cnt > 0 {
        var d :| 0 <= d < |s.pcs| && s.pcs[d].AddDrain?;
        assert s'.pcs[d].AddDrain?;
      } else {
        assert s'.pcs[t].AddDrain?;
      }
    }
    if s'.cnt == 0 && !s'.ch {
      if s.cnt == 0 && !s.ch {
        var c :| 0 <= c < |s.pcs| && CarriesToken(s.pcs[c]);
        assert CarriesToken(s'.pcs[c]);
      } else {
        assert CarriesToken(s'.pcs[t]);
      }
    }
  }

  lemma {:induction false} BeginKeepsMutex(s: State, s': State, t: nat)
    requires MutexInv(s) && t < |s.pcs| && Begins(s, s', t)
    ensures MutexInv(s')
  {
    assert forall u :: 0 <= u < |s.pcs| && u != t ==> s'.pcs[u] == s.pcs[u];
    if !s.mu {
      var h :| 0 <= h < |s.pcs| && Holds(s.pcs[h]);
      assert Holds(s'.pcs[h]);
    }
  }

  lemma {:induction false} BeginKeepsToken(s: State, s': State, t: nat)
    requires TokenInv(s) && t < |s.pcs| && Begins(s, s', t)
    ensures TokenInv(s')
  {
    if s.ch && s.cnt > 0 {
      var d :| 0 <= d < |s.pcs| && s.pcs[d].AddDrain?;
      assert s'.pcs[d].AddDrain?;
    }
    if s.cnt == 0 && !s.ch {
      var c :| 0 <= c < |s.pcs| && CarriesToken(s.pcs[c]);
      assert CarriesToken(s'.pcs[c]);
    }
  }

  lemma {:induction false} NextKeepsInv(s: State, s': State, t: nat)
    requires Inv(s) && Next(s, s', t) && !s'.panicked
    ensures Inv(s')
  {
    if Begins(s, s', t) {
      BeginKeepsMutex(s, s', t);
      BeginKeepsToken(s, s', t);
    } else {
      StepKeepsMutex(s, t);
      StepKeepsCounter(s, t);
      StepKeepsToken(s, t);
    }
  }

  lemma {:induction false} RunKeepsInv(r: seq<State>)
    requires Run(r) && !Last(r).panicked
    ensures Inv(Last(r))
  {
    if |r| > 1 {
      var t: nat :| Next(Last(Front(r)), Last(r), t);
      RunKeepsInv(Front(r));
      NextKeepsInv(Last(Front(r)), Last(r), t);
    }
  }

  // ----- A wait returns only after the counter was 0

  /** The token in `ch`, and every waiter that got past the receive, bear witness of a counter 0 during the wait. */
  ghost predicate Witnessed(r: seq<State>)
    requires r != []
  {
    var s := Last(r);
    forall t: nat :: t < |s.pcs| ==>
      (s.pcs[t].WaitWoken? || s.pcs[t].WaitRecheck? || s.pcs[t].WaitLeave? || (s.pcs[t].WaitBlocked? && s.ch)) ==>
        ZeroSeen(r, t)
  }

  lemma {:induction false} RunIsWitnessed(r: seq<State>)
    requires Run(r) && !Last(r).panicked
    ensures Witnessed(r)
  {
    if |r| > 1 {
      var s' := Last(r);
      var t: nat :| Next(Last(Front(r)), s', t);
      RunIsWitnessed(Front(r));
      RunKeepsInv(Front(r));
      forall u: nat | u < |s'.pcs| &&
          (s'.pcs[u].WaitWoken? || s'.pcs[u].WaitRecheck? || s'.pcs[u].WaitLeave? || (s'.pcs[u].WaitBlocked? && s'.ch))
        ensures ZeroSeen(r, u)
      {
        WitnessStep(Front(r), s', t, u);
      }
    }
  }

  lemma {:induction false} WitnessStep(front: seq<State>, s': State, t: nat, u: nat)
    requires front != [] && Inv(Last(front)) && Witnessed(front) && Next(Last(front), s', t) && !s'.panicked
    requires u < |s'.pcs|
    requires s'.pcs[u].WaitWoken? || s'.pcs[u].WaitRecheck? || s'.pcs[u].WaitLeave? || (s'.pcs[u].WaitBlocked? && s'.ch)
    ensures s'.cnt == 0 || ZeroSeen(front, u)
  {
    var s := Last(front);
    assert Knows(s, s.pcs[t]);
    if s'.cnt != 0 && u == t && s.pcs[u].WaitYield? {
      // The token cannot be in ch: it would have to be drained by another holder of mu.
      if s.ch {
        var d :| 0 <= d < |s.pcs| && s.pcs[d].AddDrain?;
        assert Holds(s.pcs[d]) && Holds(s.pcs[t]);
      }
    }
  }

  /** Goroutine t is inside a wait from the k-th state on. */
  predicate WaitingFrom(r: seq<State>, k: nat, t: nat) {
    forall j :: k <= j < |r| ==> t < |r[j].pcs| && InWait(r[j].pcs[t])
  }

  lemma {:induction false} MomentOfZero(r: seq<State>, t: nat) returns (k: nat)
    requires r != [] && ZeroSeen(r, t)
    ensures k < |r| && r[k].cnt == 0 && WaitingFrom(r, k, t)
  {
    k := |r| - 1;
    if Last(r).cnt != 0 {
      k := MomentOfZero(Front(r), t);
      forall j | k <= j < |r| ensures t < |r[j].pcs| && InWait(r[j].pcs[t]) {
        if j < |r| - 1 { assert Front(r)[j] == r[j]; }
      }
    }
  }

  /** A wait that returns had a counter of 0 at some moment after it began. */
  lemma {:induction false} WaitReturnsAfterZero(r: seq<State>, t: nat) returns (k: nat)
    requires Run(r) && |r| > 1 && !Last(r).panicked && t < |Last(Front(r)).pcs|
    requires InWait(Last(Front(r)).pcs[t]) && Last(r).pcs[t].Idle?
    ensures k < |Front(r)| && Front(r)[k].cnt == 0 && WaitingFrom(Front(r), k, t)
  {
    var u: nat :| Next(Last(Front(r)), Last(r), u);
    RunIsWitnessed(Front(r));
    assert Last(Front(r)).pcs[t].WaitLeave?;
    k := MomentOfZero(Front(r), t);
  }

  // ----- At counter 0 every call completes

  /** Some goroutine that is inside a call can go on. */
  lemma {:induction false} NobodyIsStuck(s: State, t: nat) returns (u: nat)
    requires Inv(s) && s.cnt == 0 && t < |s.pcs| && !s.pcs[t].Idle?
    ensures u < |s.pcs| && Enabled(s, u)
  {
    u := t;
    if !s.mu {
      u :| u < |s.pcs| && Holds(s.pcs[u]);
    } else if s.pcs[t].WaitBlocked? && !s.ch {
      u :| u < |s.pcs| && CarriesToken(s.pcs[u]);
    }
  }

  /** Steps left to a goroutine at counter 0. */
  function Rank(pc: PC): nat {
    match pc
    case Idle => 0
    case WaitLeave | AddUnlock => 1
    case WaitRecheck | AddDrain | AddSignal => 2
    case WaitWoken | AddLocked(_) => 3
    case WaitBlocked | AddStart(_) => 4
    case WaitYield => 5
    case WaitLocked => 6
    case WaitStart => 7
  }

  function Total(pcs: seq<PC>): nat { if pcs == [] then 0 else Rank(pcs[|pcs| - 1]) + Total(pcs[..|pcs| - 1]) }

  lemma {:induction false} TotalUpdate(pcs: seq<PC>, t: nat, pc: PC)
    requires t < |pcs|
    ensures Total(pcs[t := pc]) == Total(pcs) - Rank(pcs[t]) + Rank(pc)
  {
    var n := |pcs| - 1;
    if t == n {
      assert pcs[t := pc][..n] == pcs[..n];
    } else {
      assert pcs[t := pc][..n] == pcs[..n][t := pc];
      TotalUpdate(pcs[..n], t, pc);
    }
  }

  /** Every step inside a call brings the calls closer to their end. */
  lemma {:induction false} StepsRunOut(s: State, t: nat)
    requires t < |s.pcs| && Enabled(s, t) && !Step(s, t).panicked
    ensures Total(Step(s, t).pcs) < Total(s.pcs)
  {
    TotalUpdate(s.pcs, t, Step(s, t).pcs[t]);
    assert Step(s, t).pcs == s.pcs[t := Step(s, t).pcs[t]];
  }

  /** Steps inside calls, in any order. */
  ghost predicate Draining(r: seq<State>) {
    forall i {:trigger r[i]} :: 0 <= i < |r| - 1 ==> DrainStep(r[i], r[i + 1])
  }

  ghost predicate DrainStep(s: State, s': State) { exists t: nat :: t < |s.pcs| && Enabled(s, t) && s' == Step(s, t) }

  ghost predicate AtZero(s: State) { s.cnt == 0 && !s.panicked }

  /** While the counter stays 0, all waits return: the steps that remain are bounded, and wherever they stop every
    * goroutine has left its call.  A call of Add may still be under way, as after the last Done. */
  lemma {:induction false} AllWaitsReturn(r: seq<State>)
    requires r != [] && Inv(r[0]) && Draining(r) && forall i :: 0 <= i < |r| ==> AtZero(r[i])
    ensures |r| - 1 <= Total(r[0].pcs)
    ensures (forall t: nat :: t < |Last(r).pcs| ==> !Enabled(Last(r), t)) ==>
              forall t: nat :: t < |Last(r).pcs| ==> Last(r).pcs[t].Idle?
  {
    if |r| == 1 {
      QuietMeansIdle(r[0]);
    } else {
      assert DrainStep(r[0], r[1]);
      DrainStepShrinks(r[0], r[1]);
      assert Last(r[1..]) == Last(r);
      forall i | 0 <= i < |r[1..]| - 1 ensures DrainStep(r[1..][i], r[1..][i + 1]) {
        assert DrainStep(r[i + 1], r[i + 2]);
      }
      AllWaitsReturn(r[1..]);
    }
  }

  lemma {:induction false} QuietMeansIdle(s: State)
    requires Inv(s) && s.cnt == 0
    ensures (forall t: nat :: t < |s.pcs| ==> !Enabled(s, t)) ==> forall t: nat :: t < |s.pcs| ==> s.pcs[t].Idle?
  {
    if t: nat :| t < |s.pcs| && !s.pcs[t].Idle? {
      var u := NobodyIsStuck(s, t);
    }
  }

  lemma {:induction false} DrainStepShrinks(s: State, s': State)
    requires Inv(s) && AtZero(s) && AtZero(s') && DrainStep(s, s')
    ensures Inv(s') && Total(s'.pcs) < Total(s.pcs)
  {
    var t: nat :| t < |s.pcs| && Enabled(s, t) && s' == Step(s, t);
    NextKeepsInv(s, s', t);
    StepsRunOut(s, t);
  }

  // ----- What the counter counts

  /** The sum of the deltas of the goroutines that go on from AddLocked, which have then counted theirs. */
  function Counted(before: seq<PC>, after: seq<PC>): int
    requires |before| == |after|
  {
    if before == [] then 0
    else
      var n := |before| - 1;
      Counted(before[..n], after[..n]) + if before[n].AddLocked? && after[n] != before[n] then before[n].delta else 0
  }

  /** The deltas of all calls of Add that have counted theirs so far. */
  ghost function Sum(r: seq<State>): int
    requires r != [] && forall i :: 0 <= i < |r| ==> |r[i].pcs| == |r[0].pcs|
  {
    if |r| == 1 then 0 else Sum(Front(r)) + Counted(Last(Front(r)).pcs, Last(r).pcs)
  }

  lemma {:induction false} NobodyCounted(pcs: seq<PC>)
    ensures Counted(pcs, pcs) == 0
  {
    if pcs != [] { NobodyCounted(pcs[..|pcs| - 1]); }
  }

  lemma {:induction false} OneCounted(pcs: seq<PC>, t: nat, pc: PC)
    requires t < |pcs|
    ensures Counted(pcs, pcs[t := pc]) == if pcs[t].AddLocked? && pc != pcs[t] then pcs[t].delta else 0
  {
    var n := |pcs| - 1;
    if t < n {
      OneCounted(pcs[..n], t, pc);
      assert pcs[t := pc][..n] == pcs[..n][t := pc];
    } else {
      assert pcs[t := pc][..n] == pcs[..n];
      NobodyCounted(pcs[..n]);
    }
  }

  lemma {:induction false} NextCounts(s: State, s': State, t: nat)
    requires Next(s, s', t) && !s'.panicked
    ensures |s'.pcs| == |s.pcs| && s'.cnt == s.cnt + Counted(s.pcs, s'.pcs)
  {
    assert s'.pcs == s.pcs[t := s'.pcs[t]];
    OneCounted(s.pcs, t, s'.pcs[t]);
  }

  lemma {:induction false} SameGoroutines(r: seq<State>)
    requires Run(r)
    ensures forall i :: 0 <= i < |r| ==> |r[i].pcs| == |r[0].pcs|
  {
    if |r| > 1 {
      SameGoroutines(Front(r));
      var t: nat :| Next(Last(Front(r)), Last(r), t);
      forall i | 0 <= i < |r| ensures |r[i].pcs| == |r[0].pcs| {
        if i < |r| - 1 { assert r[i] == Front(r)[i]; }
      }
    }
  }

  /** As long as nobody has panicked, the counter is the sum of the deltas counted. */
  lemma {:induction false} CounterIsSum(r: seq<State>)
    requires Run(r) && !Last(r).panicked
    ensures forall i :: 0 <= i < |r| ==> |r[i].pcs| == |r[0].pcs|
    ensures Last(r).cnt == Sum(r)
  {
    SameGoroutines(r);
    if |r| > 1 {
      var t: nat :| Next(Last(Front(r)), Last(r), t);
      CounterIsSum(Front(r));
      NextCounts(Last(Front(r)), Last(r), t);
    }
  }

  // ----- Every wake-up takes a token

  /** Goroutines that receive from `ch` because of their Wait, and goroutines past a step that may send to it. */
  predicate Wakes(pc: PC, pc': PC) { pc.WaitBlocked? && pc' != pc }

  predicate Signals(pc: PC, pc': PC) { (pc.AddSignal? || pc.WaitRecheck?) && pc' != pc }

  function Tally(before: seq<PC>, after: seq<PC>, wakes: bool): nat
    requires |before| == |after|
  {
    if before == [] then 0
    else
      var n := |before| - 1;
      Tally(before[..n], after[..n], wakes) +
      if (if wakes then Wakes(before[n], after[n]) else Signals(before[n], after[n])) then 1 else 0
  }

  ghost function Tallies(r: seq<State>, wakes: bool): nat
    requires r != [] && forall i :: 0 <= i < |r| ==> |r[i].pcs| == |r[0].pcs|
  {
    if |r| == 1 then 0 else Tallies(Front(r), wakes) + Tally(Last(Front(r)).pcs, Last(r).pcs, wakes)
  }

  lemma {:induction false} NobodyTallied(pcs: seq<PC>, wakes: bool)
    ensures Tally(pcs, pcs, wakes) == 0
  {
    if pcs != [] { NobodyTallied(pcs[..|pcs| - 1], wakes); }
  }

  lemma {:induction false} OneTallied(pcs: seq<PC>, t: nat, pc: PC, wakes: bool)
    requires t < |pcs|
    ensures Tally(pcs, pcs[t := pc], wakes) ==
            if (if wakes then Wakes(pcs[t], pc) else Signals(pcs[t], pc)) then 1 else 0
  {
    var n := |pcs| - 1;
    if t < n {
      OneTallied(pcs[..n], t, pc, wakes);
      assert pcs[t := pc][..n] == pcs[..n][t := pc];
    } else {
      assert pcs[t := pc][..n] == pcs[..n];
      NobodyTallied(pcs[..n], wakes);
    }
  }

  function Bit(b: bool): nat { if b then 1 else 0 }

  lemma {:induction false} StepTokens(s: State, s': State, t: nat)
    requires Next(s, s', t)
    ensures |s'.pcs| == |s.pcs|
    ensures Bit(s'.ch) + Tally(s.pcs, s'.pcs, true) <= Bit(s.ch) + Tally(s.pcs, s'.pcs, false)
  {
    assert s'.pcs == s.pcs[t := s'.pcs[t]];
    OneTallied(s.pcs, t, s'.pcs[t], true);
    OneTallied(s.pcs, t, s'.pcs[t], false);
  }

  /** Over every run, blocked waits do not go on more often than a token was put into `ch`: by New, by an Add that
    * brought the counter to 0, or by a waiter that passes it on. */
  lemma {:induction false} EachWakeUpTakesToken(r: seq<State>)
    requires Run(r)
    ensures forall i :: 0 <= i < |r| ==> |r[i].pcs| == |r[0].pcs|
    ensures Bit(Last(r).ch) + Tallies(r, true) <= 1 + Tallies(r, false)
  {
    SameGoroutines(r);
    if |r| > 1 {
      var t: nat :| Next(Last(Front(r)), Last(r), t);
      EachWakeUpTakesToken(Front(r));
      StepTokens(Last(Front(r)), Last(r), t);
    }
  }

  /** The sends back to `mu` find its slot free. */
  lemma UnlockNeverBlocks(s: State, t: nat)
    requires Inv(s) && t < |s.pcs| && Holds(s.pcs[t])
    ensures !s.mu && Enabled(s, t)
  {
  }

  // ----- The methods, each run without interruption when it need not wait

  /** The end of what one goroutine does alone. */
  function Alone(s: State): State
    requires |s.pcs| == 1
    decreases Total(s.pcs)
  {
    if s.panicked || !Enabled(s, 0) then s
    else if Step(s, 0).panicked then Step(s, 0)
    else
      StepsRunOut(s, 0);
      Alone(Step(s, 0))
  }

  lemma {:induction false} Goes(s: State, s': State)
    requires |s.pcs| == |s'.pcs| == 1 && Enabled(s, 0) && !s.panicked && !Step(s, 0).panicked
    requires Step(s, 0).(pcs := []) == s'.(pcs := []) && Step(s, 0).pcs[0] == s'.pcs[0]
    ensures Alone(s) == Alone(s')
  {
    assert Step(s, 0).pcs == s'.pcs;
  }

  class WaitGroup {
    var cnt: int
    var ch: bool
    var mu: bool

    function Shown(pc: PC): State
      reads this
    {
      State(cnt, ch, mu, false, [pc])
    }

    constructor ()
      ensures Init(Shown(Idle))
    {
      cnt, ch, mu := 0, true, true;
    }

    /** The answer is whether the call does not panic. */
    method Add(delta: int) returns (ok: bool)
      requires mu
      modifies this
      ensures ok <==> delta == 0 || old(cnt) + delta >= 0
      ensures ok ==> cnt == old(cnt) + delta && Shown(Idle) == old(Alone(Shown(AddStart(delta))))
      ensures !ok ==> old(Alone(Shown(AddStart(delta)))).panicked && cnt == old(cnt) + delta && !mu
    {
      if delta == 0 { return true; }
      mu := false;
      ghost var locked := Shown(AddLocked(delta));
      Goes(old(Shown(AddStart(delta))), locked);
      var oldCnt := cnt;
      cnt := cnt + delta;
      if cnt < 0 { return false; }
      ghost var pc := if oldCnt == 0 && cnt > 0 then AddDrain else if cnt == 0 then AddSignal else AddUnlock;
      ghost var counted := Shown(pc);
      Goes(locked, counted);
      if oldCnt == 0 && cnt > 0 { ch := false; }
      if cnt == 0 { ch := true; }
      ghost var leaving := Shown(AddUnlock);
      if pc != AddUnlock { Goes(counted, leaving); }
      mu := true;
      Goes(leaving, Shown(Idle));
      return true;
    }

    method Done() returns (ok: bool)
      requires mu
      modifies this
      ensures ok <==> old(cnt) > 0
      ensures ok ==> cnt == old(cnt) - 1 && Shown(Idle) == old(Alone(Shown(AddStart(-1))))
    {
      ok := Add(-1);
    }

    /** Wait on a counter of 0 returns at once and leaves everything as it was. */
    method Wait()
      requires mu && cnt == 0
      modifies this
      ensures Shown(Idle) == old(Shown(Idle)) == old(Alone(Shown(WaitStart)))
    {
      mu := false;
      ghost var locked, leaving := Shown(WaitLocked), Shown(WaitLeave);
      Goes(old(Shown(WaitStart)), locked);
      Goes(locked, leaving);
      mu := true;
      Goes(leaving, Shown(Idle));
    }
  }
}
