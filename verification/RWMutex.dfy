/** A reader-writer lock made of two channels with one token each, and a counter of readers.
  *
  * Every channel operation, and every access to the counter, is a step of its own.
  */
module RWMutex {

  datatype PC =
    | Idle
    | WantR | HasR | Entering | SendR | Reading        // RLock
    | Unlocking | Leaving | Left | ReturnR             // RUnlock
    | WantW | Writing                                  // Lock

  /** w and r say whether the channel holds its token. */
  datatype State = State(w: bool, r: bool, readers: int, procs: seq<PC>)

  datatype Event = Spawn | Begin(t: nat, pc: PC) | Step(t: nat)

  /** A client calls RLock or Lock when it holds nothing, and RUnlock or Unlock when it holds the lock. */
  predicate CanBegin(now: PC, next: PC) {
    (now == Idle && next in {WantR, WantW}) || (now == Reading && next == Unlocking)
  }

  /** The call at this position can go on: a receive needs a token, a send needs room. */
  predicate Enabled(s: State, pc: PC) {
    match pc
    case Idle => false
    case WantR => s.r
    case HasR => s.readers == 0 ==> s.w
    case Entering => true
    case SendR => !s.r
    case Reading => false
    case Unlocking => s.r
    case Leaving => true
    case Left => s.readers == 0 ==> !s.w
    case ReturnR => !s.r
    case WantW => s.w
    case Writing => !s.w
  }

  predicate Can(s: State, e: Event) {
    match e
    case Spawn => true
    case Begin(t, pc) => t < |s.procs| && CanBegin(s.procs[t], pc)
    case Step(t) => t < |s.procs| && Enabled(s, s.procs[t])
  }

  /** One step; in Writing it is the send of Unlock. */
  function Advance(s: State, t: nat): State
    requires t < |s.procs|
  {
    match s.procs[t]
    case Idle => s
    case WantR => s.(r := false, procs := s.procs[t := HasR])
    case HasR => s.(w := s.w && s.readers != 0, procs := s.procs[t := Entering])
    case Entering => s.(readers := s.readers + 1, procs := s.procs[t := SendR])
    case SendR => s.(r := true, procs := s.procs[t := Reading])
    case Reading => s
    case Unlocking => s.(r := false, procs := s.procs[t := Leaving])
    case Leaving => s.(readers := s.readers - 1, procs := s.procs[t := Left])
    case Left => s.(w := s.w || s.readers == 0, procs := s.procs[t := ReturnR])
    case ReturnR => s.(r := true, procs := s.procs[t := Idle])
    case WantW => s.(w := false, procs := s.procs[t := Writing])
    case Writing => s.(w := true, procs := s.procs[t := Idle])
  }

  function After(s: State, e: Event): State
    requires Can(s, e)
  {
    match e
    case Spawn => s.(procs := s.procs + [Idle])
    case Begin(t, pc) => s.(procs := s.procs[t := pc])
    case Step(t) => Advance(s, t)
  }

  const NEW := State(true, true, 0, [])

  ghost predicate SomeStep(s: State, s': State) { exists e :: Can(s, e) && s' == After(s, e) }

  /** The states of an interleaving. */
  ghost predicate Run(run: seq<State>) {
    run != [] &&
    if |run| == 1 then run[0] == NEW
    else Run(run[..|run| - 1]) && SomeStep(run[|run| - 2], run[|run| - 1])
  }

  // ----- Where the tokens are

  datatype Kind = HoldingR | Counted | Passing | Writer

  /** Positions that hold the r token; that the counter counts; of the reader group but not counted; of the writer. */
  predicate In(pc: PC, k: Kind) {
    match k
    case HoldingR => pc in {HasR, Entering, SendR, Leaving, Left, ReturnR}
    case Counted => pc in {SendR, Reading, Unlocking, Leaving}
    case Passing => pc in {Entering, Left}
    case Writer => pc == Writing
  }

  function One(pc: PC, k: Kind): nat { if In(pc, k) then 1 else 0 }

  function Count(procs: seq<PC>, k: Kind): nat
  {
    if procs == [] then 0 else Count(procs[..|procs| - 1], k) + One(procs[|procs| - 1], k)
  }

  lemma {:induction false} CountUpdate(procs: seq<PC>, t: nat, pc: PC, k: Kind)
    requires t < |procs|
    ensures Count(procs[t := pc], k) == Count(procs, k) - One(procs[t], k) + One(pc, k)
  {
    var n := |procs| - 1;
    if t < n {
      CountUpdate(procs[..n], t, pc, k);
      assert procs[t := pc][..n] == procs[..n][t := pc];
    } else {
      assert procs[t := pc][..n] == procs[..n];
    }
  }

  lemma {:induction false} CountAtLeast(procs: seq<PC>, t: nat, k: Kind)
    requires t < |procs| && In(procs[t], k)
    ensures Count(procs, k) >= 1
  {
    var n := |procs| - 1;
    if t < n { CountAtLeast(procs[..n], t, k); }
  }

  lemma {:induction false} CountTwo(procs: seq<PC>, t: nat, u: nat, k: Kind)
    requires t < u < |procs| && In(procs[t], k) && In(procs[u], k)
    ensures Count(procs, k) >= 2
  {
    var n := |procs| - 1;
    if u < n { CountTwo(procs[..n], t, u, k); } else { CountAtLeast(procs[..n], t, k); }
  }

  lemma {:induction false} SomeProc(procs: seq<PC>, k: Kind) returns (t: nat)
    requires Count(procs, k) > 0
    ensures t < |procs| && In(procs[t], k)
  {
    var n := |procs| - 1;
    if In(procs[n], k) { t := n; } else { t := SomeProc(procs[..n], k); }
  }

  function Bit(b: bool): nat { if b then 1 else 0 }

  /** The r token is in its channel or with one call; the counter is right; and the w token is in its channel, with one
    * writer, or with the group of readers. */
  predicate Inv(s: State) {
    && Count(s.procs, HoldingR) + Bit(s.r) == 1
    && Count(s.procs, Counted) == s.readers
    && Count(s.procs, Writer) + Bit(s.w) + Bit(s.readers > 0 || Count(s.procs, Passing) > 0) == 1
  }

  /** The holder of the r token is the only one that passes. */
  lemma {:induction false} PassingHoldsR(procs: seq<PC>)
    ensures Count(procs, Passing) <= Count(procs, HoldingR)
  {
    if procs != [] { PassingHoldsR(procs[..|procs| - 1]); }
  }

  /** The counts after the t-th call moves to pc. */
  lemma {:induction false} CountMove(procs: seq<PC>, t: nat, pc: PC, k: Kind)
    requires t < |procs|
    ensures Count(procs[t := pc], k) == Count(procs, k) - One(procs[t], k) + One(pc, k)
    ensures Count(procs, k) >= One(procs[t], k)
  {
    CountUpdate(procs, t, pc, k);
    if In(procs[t], k) { CountAtLeast(procs, t, k); }
  }

  lemma {:induction false} MoveKeepsInv(s: State, s': State, t: nat, pc: PC)
    requires Inv(s) && t < |s.procs| && s'.procs == s.procs[t := pc]
    requires Bit(s'.r) - Bit(s.r) == One(s.procs[t], HoldingR) - One(pc, HoldingR)
    requires s'.readers - s.readers == One(pc, Counted) - One(s.procs[t], Counted)
    requires One(pc, Passing) == One(s.procs[t], Passing) && s'.readers == s.readers
    requires Bit(s'.w) - Bit(s.w) == One(s.procs[t], Writer) - One(pc, Writer)
    ensures Inv(s')
  {
    CountMove(s.procs, t, pc, HoldingR);
    CountMove(s.procs, t, pc, Counted);
    CountMove(s.procs, t, pc, Writer);
    CountMove(s.procs, t, pc, Passing);
  }

  /** Joining or leaving the group of readers, for which the r token is held. */
  lemma {:induction false} PassKeepsInv(s: State, s': State, t: nat, pc: PC)
    requires Inv(s) && t < |s.procs| && s'.procs == s.procs[t := pc]
    requires In(s.procs[t], HoldingR) && In(pc, HoldingR) && s'.r == s.r
    requires !In(s.procs[t], Writer) && !In(pc, Writer)
    requires s'.readers - s.readers == One(pc, Counted) - One(s.procs[t], Counted)
    requires Bit(s'.w) + Bit(s'.readers > 0 || In(pc, Passing)) ==
             Bit(s.w) + Bit(s.readers > 0 || In(s.procs[t], Passing))
    ensures Inv(s')
  {
    CountMove(s.procs, t, pc, HoldingR);
    CountMove(s.procs, t, pc, Counted);
    CountMove(s.procs, t, pc, Writer);
    CountMove(s.procs, t, pc, Passing);
    OnlyPasser(s.procs, t);
    OnlyPasser(s'.procs, t);
  }

  lemma {:induction false} OnlyPasser(procs: seq<PC>, t: nat)
    requires t < |procs| && In(procs[t], HoldingR) && Count(procs, HoldingR) == 1
    ensures Count(procs, Passing) == One(procs[t], Passing)
  {
    CountMove(procs, t, Idle, HoldingR);
    CountMove(procs, t, Idle, Passing);
    PassingHoldsR(procs[t := Idle]);
  }

  lemma {:induction false} CounterPositive(s: State, t: nat)
    requires Inv(s) && t < |s.procs| && In(s.procs[t], Counted)
    ensures s.readers > 0
  {
    CountAtLeast(s.procs, t, Counted);
  }

  lemma {:induction false} AdvanceKeepsInv(s: State, t: nat)
    requires Inv(s) && Can(s, Step(t))
    ensures Inv(Advance(s, t))
  {
    var s' := Advance(s, t);
    var pc := s'.procs[t];
    if In(s.procs[t], HoldingR) && In(pc, HoldingR) {
      if In(s.procs[t], Counted) { CounterPositive(s, t); }
      PassKeepsInv(s, s', t, pc);
    } else {
      MoveKeepsInv(s, s', t, pc);
    }
  }

  lemma {:induction false} StepKeepsInv(s: State, e: Event)
    requires Inv(s) && Can(s, e)
    ensures Inv(After(s, e))
  {
    match e
    case Spawn => assert (s.procs + [Idle])[..|s.procs|] == s.procs;
    case Begin(t, pc) => MoveKeepsInv(s, After(s, e), t, pc);
    case Step(t) => AdvanceKeepsInv(s, t);
  }

  lemma {:induction false} RunKeepsInv(run: seq<State>)
    requires Run(run)
    ensures Inv(run[|run| - 1])
  {
    var n := |run| - 1;
    if n > 0 {
      assert SomeStep(run[n - 1], run[n]);
      RunKeepsInv(run[..n]);
      var e :| Can(run[n - 1], e) && run[n] == After(run[n - 1], e);
      StepKeepsInv(run[n - 1], e);
    }
  }

  // ----- What the lock promises

  /** A writer is alone: no other writer, and no reader. */
  lemma {:induction false} WriterIsAlone(run: seq<State>, t: nat, u: nat)
    requires Run(run) && t < |run[|run| - 1].procs| && u < |run[|run| - 1].procs| && t != u
    requires run[|run| - 1].procs[t] == Writing
    ensures run[|run| - 1].procs[u] != Writing && run[|run| - 1].procs[u] != Reading
  {
    var s := run[|run| - 1];
    RunKeepsInv(run);
    CountAtLeast(s.procs, t, Writer);
    if s.procs[u] == Writing {
      if t < u { CountTwo(s.procs, t, u, Writer); } else { CountTwo(s.procs, u, t, Writer); }
    }
    if s.procs[u] == Reading { CountAtLeast(s.procs, u, Counted); }
  }

  /** Two calls are never between receiving and sending the r token, so accesses to the counter do not race. */
  lemma {:induction false} CounterIsGuarded(run: seq<State>, t: nat, u: nat)
    requires Run(run) && t < u < |run[|run| - 1].procs|
    ensures !(In(run[|run| - 1].procs[t], HoldingR) && In(run[|run| - 1].procs[u], HoldingR))
  {
    var s := run[|run| - 1];
    RunKeepsInv(run);
    if In(s.procs[t], HoldingR) && In(s.procs[u], HoldingR) { CountTwo(s.procs, t, u, HoldingR); }
  }

  /** A send always finds room in its channel. */
  lemma {:induction false} SendsNeverBlock(run: seq<State>, t: nat)
    requires Run(run) && t < |run[|run| - 1].procs|
    requires run[|run| - 1].procs[t] in {SendR, ReturnR, Left, Writing}
    ensures Can(run[|run| - 1], Step(t))
  {
    var s := run[|run| - 1];
    RunKeepsInv(run);
    forall k | In(s.procs[t], k) ensures Count(s.procs, k) >= 1 { CountAtLeast(s.procs, t, k); }
  }

  predicate Pending(pc: PC) { pc !in {Idle, Reading, Writing} }

  lemma {:induction false} NoneIn(procs: seq<PC>, k: Kind)
    requires forall i :: 0 <= i < |procs| ==> !In(procs[i], k)
    ensures Count(procs, k) == 0
  {
    if procs != [] { NoneIn(procs[..|procs| - 1], k); }
  }

  /** The one that holds the r token can go on, unless it waits for a writer. */
  lemma {:induction false} HolderMoves(s: State, u: nat)
    requires Inv(s) && u < |s.procs| && In(s.procs[u], HoldingR) && Count(s.procs, Writer) == 0
    ensures Can(s, Step(u))
  {
    CountAtLeast(s.procs, u, HoldingR);
    OnlyPasser(s.procs, u);
  }

  /** When nobody is inside, some pending call can go on. */
  lemma {:induction false} SomebodyMoves(run: seq<State>, t: nat) returns (u: nat)
    requires Run(run) && t < |run[|run| - 1].procs| && Pending(run[|run| - 1].procs[t])
    requires var s := run[|run| - 1]; forall i :: 0 <= i < |s.procs| ==> s.procs[i] != Reading && s.procs[i] != Writing
    ensures u < |run[|run| - 1].procs| && Pending(run[|run| - 1].procs[u]) && Can(run[|run| - 1], Step(u))
  {
    var s := run[|run| - 1];
    RunKeepsInv(run);
    NoneIn(s.procs, Writer);
    if s.r {
      u := t;
      PassingHoldsR(s.procs);
      if In(s.procs[t], HoldingR) { CountAtLeast(s.procs, t, HoldingR); }
      if s.readers > 0 {
        u := SomeProc(s.procs, Counted);
        if In(s.procs[u], HoldingR) { CountAtLeast(s.procs, u, HoldingR); }
      }
    } else {
      u := SomeProc(s.procs, HoldingR);
      HolderMoves(s, u);
    }
  }

  function Rank(pc: PC): nat {
    match pc
    case Idle => 0
    case WantR => 4
    case HasR => 3
    case Entering => 2
    case SendR => 1
    case Reading => 0
    case Unlocking => 4
    case Leaving => 3
    case Left => 2
    case ReturnR => 1
    case WantW => 2
    case Writing => 1
  }

  function Remaining(procs: seq<PC>): nat {
    if procs == [] then 0 else Remaining(procs[..|procs| - 1]) + Rank(procs[|procs| - 1])
  }

  lemma {:induction false} RemainingUpdate(procs: seq<PC>, pc: PC, t: nat)
    requires t < |procs| && Rank(pc) < Rank(procs[t])
    ensures Remaining(procs[t := pc]) < Remaining(procs)
  {
    var n := |procs| - 1;
    if t < n {
      RemainingUpdate(procs[..n], pc, t);
      assert procs[t := pc][..n] == procs[..n][t := pc];
    } else {
      assert procs[t := pc][..n] == procs[..n];
    }
  }

  /** Calls do not go on for ever: every step uses up one of finitely many. */
  lemma {:induction false} StepsRunOut(s: State, t: nat)
    requires Can(s, Step(t))
    ensures Remaining(Advance(s, t).procs) < Remaining(s.procs)
  {
    assert Advance(s, t).procs == s.procs[t := Advance(s, t).procs[t]];
    RemainingUpdate(s.procs, Advance(s, t).procs[t], t);
  }

  // ----- What it does not promise: a blocked Lock does not keep new readers out

  /** A pending call goes on; no new call begins, and no writer unlocks. */
  ghost predicate PendingStep(s: State, s': State) {
    exists u: nat :: u < |s.procs| && Pending(s.procs[u]) && Can(s, Step(u)) && s' == Advance(s, u)
  }

  predicate Stands(s: State, t: nat, pc: PC) { t < |s.procs| && s.procs[t] == pc }

  /** Pending calls go on, in any order, and the Lock of b does not get in. */
  ghost predicate Onward(path: seq<State>, b: nat)
  {
    path != [] && Stands(path[|path| - 1], b, WantW) &&
    (|path| == 1 || (Onward(path[..|path| - 1], b) && PendingStep(path[|path| - 2], path[|path| - 1])))
  }

  /** t gets in for reading while b still waits. */
  ghost predicate Overtakes(path: seq<State>, s: State, b: nat, t: nat) {
    path != [] && Onward(path, b) && path[0] == s && Stands(path[|path| - 1], t, Reading)
  }

  ghost predicate CanOvertake(s: State, b: nat, t: nat) { exists path: seq<State> :: Overtakes(path, s, b, t) }

  predicate NoWriter(s: State) { forall u :: 0 <= u < |s.procs| ==> s.procs[u] != Writing }

  lemma {:induction false} OnwardMore(path: seq<State>, b: nat, u: nat)
    requires Onward(path, b) && u < |path[|path| - 1].procs| && u != b
    requires Pending(path[|path| - 1].procs[u]) && Can(path[|path| - 1], Step(u))
    ensures Onward(path + [Advance(path[|path| - 1], u)], b)
  {
    var s := path[|path| - 1];
    var more := path + [Advance(s, u)];
    assert more[..|path|] == path && more[|path|] == Advance(s, u);
    assert PendingStep(s, Advance(s, u));
  }

  /** Who goes on: t itself once it can have the r token, and before that the one that holds it. */
  lemma {:induction false} NextForReader(s: State, t: nat) returns (u: nat)
    requires Inv(s) && NoWriter(s) && t < |s.procs| && s.procs[t] in {WantR, HasR, Entering, SendR}
    ensures u < |s.procs| && s.procs[u] != WantW && Pending(s.procs[u]) && Can(s, Step(u))
    ensures NoWriter(Advance(s, u)) && Advance(s, u).procs[t] in {WantR, HasR, Entering, SendR, Reading}
  {
    NoneIn(s.procs, Writer);
    if s.r {
      u := t;
      if In(s.procs[t], HoldingR) { CountAtLeast(s.procs, t, HoldingR); }
    } else {
      u := SomeProc(s.procs, HoldingR);
      HolderMoves(s, u);
    }
  }

  lemma {:induction false} ReaderGetsIn(path: seq<State>, b: nat, t: nat) returns (path': seq<State>)
    requires Onward(path, b) && Inv(path[|path| - 1]) && NoWriter(path[|path| - 1])
    requires var s := path[|path| - 1]; t < |s.procs| && s.procs[t] in {WantR, HasR, Entering, SendR, Reading}
    ensures Overtakes(path', path[0], b, t)
    decreases Remaining(path[|path| - 1].procs)
  {
    var s := path[|path| - 1];
    if s.procs[t] == Reading {
      path' := path;
    } else {
      var u := NextForReader(s, t);
      OnwardMore(path, b, u);
      AdvanceKeepsInv(s, u);
      StepsRunOut(s, u);
      path' := ReaderGetsIn(path + [Advance(s, u)], b, t);
    }
  }

  lemma {:induction false} WriterStaysOnce(s: State, s': State, w: nat)
    requires Inv(s) && Stands(s, w, Writing) && PendingStep(s, s')
    ensures Inv(s') && Stands(s', w, Writing)
  {
    var u: nat :| u < |s.procs| && Pending(s.procs[u]) && Can(s, Step(u)) && s' == Advance(s, u);
    AdvanceKeepsInv(s, u);
  }

  /** While a writer is inside, no pending call gets in. */
  lemma {:induction false} WriterStays(path: seq<State>, b: nat, w: nat)
    requires Onward(path, b) && Inv(path[0]) && Stands(path[0], w, Writing)
    ensures Inv(path[|path| - 1]) && Stands(path[|path| - 1], w, Writing)
  {
    var n := |path| - 1;
    if n > 0 {
      WriterStays(path[..n], b, w);
      assert path[..n][n - 1] == path[n - 1];
      WriterStaysOnce(path[n - 1], path[n], w);
    }
  }

  /** A new reader can get in past a blocked Lock, without any new call and without any Unlock, exactly when no writer
    * is inside. */
  lemma {:induction false} ReaderGetsInIff(run: seq<State>, b: nat, t: nat)
    requires Run(run) && !run[|run| - 1].w && Stands(run[|run| - 1], b, WantW) && Stands(run[|run| - 1], t, WantR)
    ensures CanOvertake(run[|run| - 1], b, t) <==> NoWriter(run[|run| - 1])
  {
    var s := run[|run| - 1];
    RunKeepsInv(run);
    if NoWriter(s) {
      var path := ReaderGetsIn([s], b, t);
    } else {
      var w: nat :| w < |s.procs| && s.procs[w] == Writing;
      if path: seq<State> :| Overtakes(path, s, b, t) {
        WriterStays(path, b, w);
        CountAtLeast(path[|path| - 1].procs, w, Writer);
        CountAtLeast(path[|path| - 1].procs, t, Counted);
      }
    }
  }

  /** The four steps of RLock by t. */
  function Enter(s: State, t: nat): State
    requires t < |s.procs|
  {
    Advance(Advance(Advance(Advance(s, t), t), t), t)
  }

  /** Whatever writers wait, a new reader gets in by its own four steps exactly when the r token is free and either
    * readers are inside or the w token is free. */
  lemma ReaderNeedsNobodyIff(s: State, t: nat)
    requires Inv(s) && t < |s.procs| && s.procs[t] == WantR
    ensures var s1 := Advance(s, t); var s2 := Advance(s1, t); var s3 := Advance(s2, t);
      (Can(s, Step(t)) && Can(s1, Step(t)) && Can(s2, Step(t)) && Can(s3, Step(t))) <==>
      s.r && (s.readers > 0 || s.w)
    ensures Enter(s, t).procs[t] == Reading && Enter(s, t).readers == s.readers + 1
  {}

  lemma {:induction false} Extend(run: seq<State>, e: Event) returns (run': seq<State>)
    requires Run(run) && Can(run[|run| - 1], e)
    ensures Run(run') && |run'| > 0 && run'[|run'| - 1] == After(run[|run| - 1], e)
    ensures run' == run + [After(run[|run| - 1], e)]
  {
    run' := run + [After(run[|run| - 1], e)];
    assert run'[..|run|] == run;
    assert SomeStep(run[|run| - 1], run'[|run|]);
  }

  lemma {:induction false} ReaderEnters() returns (run: seq<State>)
    ensures Run(run) && run[|run| - 1] == State(false, true, 1, [Reading, Idle, Idle])
  {
    run := [NEW];
    run := Extend(run, Spawn);
    run := Extend(run, Spawn);
    run := Extend(run, Spawn);
    run := Extend(run, Begin(0, WantR));
    run := Extend(run, Step(0));
    run := Extend(run, Step(0));
    run := Extend(run, Step(0));
    run := Extend(run, Step(0));
  }

  /** One reader is inside, a writer is blocked, and another reader arrives. */
  lemma {:induction false} WriterWaits() returns (run: seq<State>)
    ensures Run(run) && run[|run| - 1] == State(false, true, 1, [Reading, WantW, WantR])
  {
    run := ReaderEnters();
    run := Extend(run, Begin(1, WantW));
    run := Extend(run, Begin(2, WantR));
  }

  lemma {:induction false} BlockedWriterIsOvertaken()
    ensures exists run: seq<State>, n: nat ::
              && n < |run| && Run(run)
              && run[n].procs == [Reading, WantW, WantR] && !Enabled(run[n], WantW)
              && run[|run| - 1].procs == [Reading, WantW, Reading]
  {
    var run := WriterWaits();
    var n := |run| - 1;
    run := Extend(run, Step(2));
    run := Extend(run, Step(2));
    run := Extend(run, Step(2));
    run := Extend(run, Step(2));
    assert !Enabled(run[n], WantW);
  }

  // ----- The methods, each run without interruption when it need not wait

  class Lock {
    var w: bool
    var r: bool
    var rCnt: int

    constructor ()
      ensures State(w, r, rCnt, []) == NEW
    {
      w, r, rCnt := true, true, 0;
    }

    method RLock()
      requires r && (rCnt == 0 ==> w)
      modifies this
      ensures State(w, r, rCnt, [Reading]) == Enter(State(old(w), old(r), old(rCnt), [WantR]), 0)
    {
      r := false;
      if rCnt == 0 { w := false; }
      rCnt := rCnt + 1;
      r := true;
    }

    method RUnlock()
      requires r && rCnt > 0 && (rCnt == 1 ==> !w)
      modifies this
      ensures State(w, r, rCnt, [Idle]) == Enter(State(old(w), old(r), old(rCnt), [Unlocking]), 0)
    {
      r := false;
      rCnt := rCnt - 1;
      if rCnt == 0 { w := true; }
      r := true;
    }

    method WLock()
      requires w
      modifies this`w
      ensures State(w, r, rCnt, [Writing]) == Advance(State(old(w), r, rCnt, [WantW]), 0)
    {
      w := false;
    }

    method WUnlock()
      requires !w
      modifies this`w
      ensures State(w, r, rCnt, [Idle]) == Advance(State(old(w), r, rCnt, [Writing]), 0)
    {
      w := true;
    }
  }
}
