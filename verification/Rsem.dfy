/** The distributed semaphore: one key with a time to live for each holder, and a script that counts them.
  *
  * Times are in milliseconds.  A script runs atomically, at one instant.
  */
module Rsem {

  /** A key that matches `key:*`: that of the p-th call of Acquire, or some other client's. */
  datatype Key = Own(p: nat) | Foreign(n: nat)

  /** A call of Acquire: retrying; in possession; released but with its key not yet deleted; over; or dead. */
  datatype Phase = Trying | Holding | Releasing | Done | Crashed

  const TTL := 1000

  type Expiry = map<Key, int>

  datatype State = State(now: int, expiry: Expiry, phases: seq<Phase>)

  // ----- The server

  predicate Exists(now: int, expiry: Expiry, k: Key) { k in expiry && expiry[k] > now }

  /** The TTL command answers in seconds, rounded to the nearest. */
  function Seconds(remaining: int): int { (remaining + 500) / 1000 }

  /** The script counts a key if it exists and its TTL is positive. */
  predicate Counted(now: int, expiry: Expiry, k: Key) { Exists(now, expiry, k) && Seconds(expiry[k] - now) > 0 }

  /** A key counts until the last half second of its time to live. */
  lemma CountedIff(now: int, expiry: Expiry, k: Key)
    ensures Counted(now, expiry, k) <==> k in expiry && expiry[k] - now >= TTL / 2
  {}

  /** Counted positions of what SCAN returned, repetitions included. */
  function Count(now: int, expiry: Expiry, scan: seq<Key>): nat
  {
    if scan == [] then 0
    else Count(now, expiry, scan[..|scan| - 1]) + if Counted(now, expiry, scan[|scan| - 1]) then 1 else 0
  }

  datatype Branch = AlreadyHeld | Created | RecountFailed | NxRetry | NxFailed | Full

  datatype Reply = Reply(code: int, branch: Branch, expiry: Expiry)

  /** The acquire script; the two scans are what SCAN returns before and after the key is set. */
  function Script(now: int, expiry: Expiry, p: nat, limit: int, scan: seq<Key>, scan2: seq<Key>): Reply
  {
    var k := Own(p);
    if Exists(now, expiry, k) then Reply(0, AlreadyHeld, expiry[k := now + TTL])
    else if Count(now, expiry, scan) < limit then
      if !Exists(now, expiry, k) then
        var set' := expiry[k := now + TTL];
        if Count(now, set', scan2) <= limit then Reply(0, Created, set') else Reply(1, RecountFailed, set' - {k})
      else if Exists(now, expiry, k) then Reply(0, NxRetry, expiry[k := now + TTL])
      else Reply(1, NxFailed, expiry)
    else Reply(1, Full, expiry)
  }

  class Server {
    var now: int
    var expiry: Expiry

    method CountKeys(scan: seq<Key>) returns (count: nat)
      ensures count == Count(now, expiry, scan)
    {
      count := 0;
      for i := 0 to |scan|
        invariant count == Count(now, expiry, scan[..i])
      {
        assert scan[..i + 1][..i] == scan[..i];
        if Exists(now, expiry, scan[i]) {
          var ttl := Seconds(expiry[scan[i]] - now);
          if ttl > 0 { count := count + 1; }
        }
      }
      assert scan[..|scan|] == scan;
    }

    method Expire(k: Key)
      modifies this`expiry
      ensures expiry == if Exists(now, old(expiry), k) then old(expiry)[k := now + TTL] else old(expiry)
    {
      if Exists(now, expiry, k) { expiry := expiry[k := now + TTL]; }
    }

    method SetNx(k: Key) returns (created: bool)
      modifies this`expiry
      ensures created <==> !Exists(now, old(expiry), k)
      ensures expiry == if created then old(expiry)[k := now + TTL] else old(expiry)
    {
      created := !Exists(now, expiry, k);
      if created { expiry := expiry[k := now + TTL]; }
    }

    method Acquire(p: nat, limit: int, scan: seq<Key>, scan2: seq<Key>) returns (code: int, ghost branch: Branch)
      modifies this`expiry
      ensures Reply(code, branch, expiry) == Script(now, old(expiry), p, limit, scan, scan2)
    {
      var k := Own(p);
      if Exists(now, expiry, k) {
        Expire(k);
        return 0, AlreadyHeld;
      }
      var count := CountKeys(scan);
      if count >= limit { return 1, Full; }
      var created := SetNx(k);
      if !created { assert false; }
      var count2 := CountKeys(scan2);
      if count2 <= limit { return 0, Created; }
      expiry := expiry - {k};
      return 1, RecountFailed;
    }
  }

  // ----- Steps of clients and time

  /** SCAN returns every existing key at least once. */
  ghost predicate Scans(now: int, expiry: Expiry, scan: seq<Key>) { forall k :: Exists(now, expiry, k) ==> k in scan }

  datatype Event =
    | Begin
    | Attempt(p: nat, scan: seq<Key>, scan2: seq<Key>, answered: bool)  // if not answered, the call fails
    | Refresh(p: nat)
    | Release(p: nat)
    | Delete(p: nat)
    | Crash(p: nat)
    | Tick(ms: nat)
    | Other(n: nat, until: int)

  predicate Is(s: State, p: nat, ph: Phase) { p < |s.phases| && s.phases[p] == ph }

  function To(s: State, p: nat, ph: Phase): State
    requires p < |s.phases|
  {
    s.(phases := s.phases[p := ph])
  }

  /** The event can happen in s, for a semaphore of the given limit. */
  ghost predicate Can(s: State, e: Event, limit: int) {
    match e
    case Begin => true
    case Attempt(p, scan, scan2, _) =>
      && Is(s, p, Trying) && Scans(s.now, s.expiry, scan)
      && Scans(s.now, s.expiry[Own(p) := s.now + TTL], scan2)
    case Refresh(p) => Is(s, p, Holding) || Is(s, p, Releasing)
    case Release(p) => Is(s, p, Holding)
    case Delete(p) => Is(s, p, Releasing)
    case Crash(p) => p < |s.phases| && s.phases[p] != Done
    case Tick(_) => true
    case Other(_, _) => true
  }

  function After(s: State, e: Event, limit: int): State
    requires e.Attempt? || e.Release? || e.Delete? || e.Crash? ==> e.p < |s.phases|
  {
    match e
    case Begin => s.(phases := s.phases + [Trying])
    case Attempt(p, scan, scan2, answered) =>
      var r := Script(s.now, s.expiry, p, limit, scan, scan2);
      var s' := s.(expiry := r.expiry);
      if !answered then To(s', p, Done) else if r.code == 0 then To(s', p, Holding) else s'
    case Refresh(p) =>
      if Exists(s.now, s.expiry, Own(p)) then s.(expiry := s.expiry[Own(p) := s.now + TTL]) else s
    case Release(p) => To(s, p, Releasing)
    case Delete(p) => To(s.(expiry := s.expiry - {Own(p)}), p, Done)
    case Crash(p) => To(s, p, Crashed)
    case Tick(ms) => s.(now := s.now + ms)
    case Other(n, until) => s.(expiry := s.expiry[Foreign(n) := until])
  }

  /** The states of an interleaving. */
  ghost predicate Run(r: seq<State>, limit: int) {
    r != [] &&
    if |r| == 1 then r[0].phases == [] && r[0].expiry == map[]
    else Run(r[..|r| - 1], limit) && SomeStep(r[|r| - 2], r[|r| - 1], limit)
  }

  ghost predicate SomeStep(s: State, s': State, limit: int) { exists e :: Can(s, e, limit) && s' == After(s, e, limit) }

  // ----- Live holders never exceed the limit

  function Holders(s: State): set<nat> { set p: nat | p < |s.phases| && s.phases[p] == Holding }

  /** Every live holder's key is still counted: it was refreshed in time. */
  ghost predicate Refreshed(s: State) { forall p :: p in Holders(s) ==> Counted(s.now, s.expiry, Own(p)) }

  /** The count is no smaller than any set of processes whose keys are counted. */
  lemma {:induction false} CountCovers(now: int, expiry: Expiry, scan: seq<Key>, ps: set<nat>)
    requires forall p :: p in ps ==> Counted(now, expiry, Own(p)) && Own(p) in scan
    ensures |ps| <= Count(now, expiry, scan)
  {
    if scan == [] {
      assert ps == {};
    } else {
      var n := |scan| - 1;
      var k := scan[n];
      var rest := if k.Own? then ps - {k.p} else ps;
      assert forall q :: q in rest ==> Own(q) in scan[..n];
      CountCovers(now, expiry, scan[..n], rest);
      if k.Own? && k.p in ps { assert |ps| == |rest| + 1; } else { assert rest == ps; }
    }
  }

  /** A call that is still retrying, or has not begun, has no key; no key outlives its last refresh by more than TTL. */
  ghost predicate Inv(s: State) {
    && (forall p: nat :: Own(p) in s.expiry ==> p < |s.phases| && s.phases[p] != Trying)
    && (forall p: nat :: Own(p) in s.expiry ==> s.expiry[Own(p)] <= s.now + TTL)
  }

  lemma {:induction false} AttemptOutcome(s: State, p: nat, limit: int, scan: seq<Key>, scan2: seq<Key>)
    requires Inv(s) && Is(s, p, Trying) && Scans(s.now, s.expiry, scan)
    ensures var r := Script(s.now, s.expiry, p, limit, scan, scan2);
      && r.branch in {Created, RecountFailed, Full}
      && (r.code == 0 <==> r.branch == Created)
      && r.expiry == if r.code == 0 then s.expiry[Own(p) := s.now + TTL] else s.expiry
  {
    assert Own(p) !in s.expiry;
    assert s.expiry[Own(p) := s.now + TTL] - {Own(p)} == s.expiry;
  }

  lemma {:induction false} StepKeepsInv(s: State, e: Event, limit: int)
    requires Inv(s) && Can(s, e, limit)
    ensures Inv(After(s, e, limit))
  {
    if e.Attempt? { AttemptOutcome(s, e.p, limit, e.scan, e.scan2); }
  }

  lemma {:induction false} RunKeepsInv(r: seq<State>, limit: int)
    requires Run(r, limit)
    ensures Inv(r[|r| - 1])
  {
    var n := |r| - 1;
    if n > 0 {
      assert SomeStep(r[n - 1], r[n], limit);
      RunKeepsInv(r[..n], limit);
      var e :| Can(r[n - 1], e, limit) && r[n] == After(r[n - 1], e, limit);
      StepKeepsInv(r[n - 1], e, limit);
    }
  }

  predicate WithinLimit(s: State, limit: int) { Holders(s) == {} || |Holders(s)| <= limit }

  lemma {:induction false} NobodyEnters(s: State, s': State, limit: int)
    requires WithinLimit(s, limit) && Holders(s') <= Holders(s)
    ensures WithinLimit(s', limit)
  {
    assert |Holders(s)| == |Holders(s')| + |Holders(s) - Holders(s')| by {
      assert Holders(s) == Holders(s') + (Holders(s) - Holders(s'));
    }
  }

  // ----- Refreshing is needed: a holder whose key is not counted for a moment lets one too many in

  lemma {:induction false} Extend(r: seq<State>, e: Event, s': State, limit: int)
    requires Run(r, limit) && Can(r[|r| - 1], e, limit) && s' == After(r[|r| - 1], e, limit)
    ensures Run(r + [s'], limit)
  {
    assert (r + [s'])[..|r|] == r;
    assert SomeStep(r[|r| - 1], s', limit);
  }

  /** Two calls begin, and the first gets the only place at time 0. */
  lemma {:induction false} OneHolder() returns (r: seq<State>)
    ensures Run(r, 1) && r[|r| - 1] == State(0, map[Own(0) := 1000], [Holding, Trying])
  {
    var none: map<Key, int> := map[];
    r := [State(0, none, [])];
    Extend(r, Begin, State(0, none, [Trying]), 1);
    r := r + [State(0, none, [Trying])];
    Extend(r, Begin, State(0, none, [Trying, Trying]), 1);
    r := r + [State(0, none, [Trying, Trying])];
    var s := State(0, map[Own(0) := 1000], [Holding, Trying]);
    assert Count(0, s.expiry, []) + 1 == Count(0, s.expiry, [Own(0)]) by { assert [Own(0)][..0] == []; }
    Extend(r, Attempt(0, [], [Own(0)], true), s, 1);
    r := r + [s];
  }

  /** After 501 milliseconds its key exists but is not counted, so the second call gets a place as well. */
  lemma {:induction false} LateHolder() returns (r: seq<State>, i: nat)
    ensures Run(r, 1) && Holders(r[|r| - 1]) == {0, 1} && i < |r| && !Refreshed(r[i])
  {
    r := OneHolder();
    var expiry := r[|r| - 1].expiry;
    var late := State(501, expiry, [Holding, Trying]);
    Extend(r, Tick(501), late, 1);
    r := r + [late];
    i := |r| - 1;
    assert 0 in Holders(late) && !Refreshed(r[i]);
    var set' := expiry[Own(1) := 1501];
    var scan, scan2 := [Own(0)], [Own(0), Own(1)];
    assert scan[..0] == [] && scan2[..1] == scan;
    assert Count(501, expiry, scan) == 0 && Count(501, set', scan) == 0;
    assert Count(501, set', scan2) == 1;
    var both := State(501, set', [Holding, Holding]);
    Extend(r, Attempt(1, scan, scan2, true), both, 1);
    r := r + [both];
    assert Holders(both) == {0, 1};
  }

  lemma {:induction false} UnrefreshedHolderBreaksLimit()
    ensures exists r: seq<State> ::
              Run(r, 1) && !WithinLimit(r[|r| - 1], 1) && exists i :: 0 <= i < |r| && !Refreshed(r[i])
  {
    var r, i := LateHolder();
    assert |Holders(r[|r| - 1])| == 2;
  }

  // ----- Liveness of the count

  function CountedKeys(now: int, expiry: Expiry): set<Key> { set k | k in expiry && Counted(now, expiry, k) }

  ghost predicate NoRepeats(scan: seq<Key>) { forall i, j :: 0 <= i < j < |scan| ==> scan[i] != scan[j] }

  /** Without repetitions, the loop over SCAN counts the counted keys. */
  lemma {:induction false} CountOf(now: int, expiry: Expiry, scan: seq<Key>)
    requires NoRepeats(scan)
    ensures Count(now, expiry, scan) == |set k | k in scan && Counted(now, expiry, k)|
  {
    var all := set k | k in scan && Counted(now, expiry, k);
    if scan != [] {
      var n := |scan| - 1;
      var k := scan[n];
      var rest := set k | k in scan[..n] && Counted(now, expiry, k);
      CountOf(now, expiry, scan[..n]);
      assert k !in scan[..n];
      if Counted(now, expiry, k) { assert all == rest + {k}; } else { assert all == rest; }
    }
  }

  lemma {:induction false} CountIsExact(now: int, expiry: Expiry, scan: seq<Key>)
    requires NoRepeats(scan) && Scans(now, expiry, scan)
    ensures Count(now, expiry, scan) == |CountedKeys(now, expiry)|
  {
    CountOf(now, expiry, scan);
    assert (set k | k in scan && Counted(now, expiry, k)) == CountedKeys(now, expiry);
  }

  lemma {:induction false} OneMoreKey(now: int, expiry: Expiry, p: nat)
    requires Own(p) !in expiry
    ensures |CountedKeys(now, expiry[Own(p) := now + TTL])| == |CountedKeys(now, expiry)| + 1
  {
    var k, set' := Own(p), expiry[Own(p) := now + TTL];
    var before, after := CountedKeys(now, expiry), CountedKeys(now, set');
    assert Counted(now, set', k) && k in after && k !in before;
    forall q ensures q in after <==> q in before + {k} {
      if q != k { assert Counted(now, set', q) <==> Counted(now, expiry, q); }
    }
    assert after == before + {k};
  }

  /** When SCAN repeats nothing, an attempt succeeds exactly when fewer than limit keys are counted; the recount then
    * never fails, nor does setting the key. */
  lemma {:induction false} AttemptSucceedsIff(r: seq<State>, limit: int, p: nat, scan: seq<Key>, scan2: seq<Key>)
    requires Run(r, limit) && Can(r[|r| - 1], Attempt(p, scan, scan2, true), limit)
    requires NoRepeats(scan) && NoRepeats(scan2)
    ensures var s := r[|r| - 1]; var reply := Script(s.now, s.expiry, p, limit, scan, scan2);
      && reply.branch in {Created, Full}
      && (reply.code == 0 <==> |CountedKeys(s.now, s.expiry)| < limit)
  {
    RunKeepsInv(r, limit);
    OutcomeIff(r[|r| - 1], limit, p, scan, scan2);
  }

  lemma {:induction false} OutcomeIff(s: State, limit: int, p: nat, scan: seq<Key>, scan2: seq<Key>)
    requires Inv(s) && Is(s, p, Trying) && NoRepeats(scan) && NoRepeats(scan2)
    requires Scans(s.now, s.expiry, scan) && Scans(s.now, s.expiry[Own(p) := s.now + TTL], scan2)
    ensures var reply := Script(s.now, s.expiry, p, limit, scan, scan2);
      && reply.branch in {Created, Full}
      && (reply.code == 0 <==> |CountedKeys(s.now, s.expiry)| < limit)
  {
    CountIsExact(s.now, s.expiry, scan);
    CountIsExact(s.now, s.expiry[Own(p) := s.now + TTL], scan2);
    OneMoreKey(s.now, s.expiry, p);
  }

  // ----- Exactly when the limit breaks

  lemma {:induction false} CountCoversKeys(now: int, expiry: Expiry, scan: seq<Key>, keys: set<Key>)
    requires forall k :: k in keys ==> Counted(now, expiry, k) && k in scan
    ensures |keys| <= Count(now, expiry, scan)
  {
    if scan == [] {
      assert keys == {};
    } else {
      var n := |scan| - 1;
      var rest := keys - {scan[n]};
      CountCoversKeys(now, expiry, scan[..n], rest);
      if scan[n] in keys { assert keys == rest + {scan[n]}; } else { assert keys == rest; }
    }
  }

  /** Some order in which SCAN can return the keys. */
  lemma {:induction false} InSomeOrder(keys: set<Key>) returns (scan: seq<Key>)
    ensures NoRepeats(scan) && forall k :: k in keys <==> k in scan
    decreases |keys|
  {
    if keys == {} {
      scan := [];
    } else {
      var k :| k in keys;
      var rest := InSomeOrder(keys - {k});
      scan := rest + [k];
      assert forall q :: q in keys <==> q == k || q in keys - {k};
    }
  }

  /** Fewer keys are counted than the limit allows, although the limit is reached. */
  predicate Overbooked(s: State, limit: int) { |CountedKeys(s.now, s.expiry)| < limit <= |Holders(s)| }

  ghost predicate Breaks(s: State, p: nat, scan: seq<Key>, scan2: seq<Key>, limit: int) {
    Can(s, Attempt(p, scan, scan2, true), limit) && !WithinLimit(After(s, Attempt(p, scan, scan2, true), limit), limit)
  }

  ghost predicate CanBreak(s: State, p: nat, limit: int) {
    exists scan: seq<Key>, scan2: seq<Key> :: Breaks(s, p, scan, scan2, limit)
  }

  lemma {:induction false} OneMoreHolder(s: State, p: nat)
    requires Is(s, p, Trying)
    ensures Holders(To(s, p, Holding)) == Holders(s) + {p} && |Holders(To(s, p, Holding))| == |Holders(s)| + 1
  {
    assert Holders(To(s, p, Holding)) == Holders(s) + {p};
  }

  lemma {:induction false} SuccessEnters(s: State, limit: int, p: nat, scan: seq<Key>, scan2: seq<Key>)
    requires Inv(s) && Can(s, Attempt(p, scan, scan2, true), limit)
    ensures var s' := After(s, Attempt(p, scan, scan2, true), limit);
      if Script(s.now, s.expiry, p, limit, scan, scan2).code == 0
      then |CountedKeys(s.now, s.expiry)| < limit && |Holders(s')| == |Holders(s)| + 1
      else Holders(s') == Holders(s)
  {
    AttemptOutcome(s, p, limit, scan, scan2);
    var r := Script(s.now, s.expiry, p, limit, scan, scan2);
    var s' := After(s, Attempt(p, scan, scan2, true), limit);
    if r.code == 0 {
      OneMoreHolder(s, p);
      assert Holders(s') == Holders(To(s, p, Holding));
      CountCoversKeys(s.now, s.expiry, scan, CountedKeys(s.now, s.expiry));
    }
  }

  /** Nothing but an attempt in an overbooked state breaks the limit, even if SCAN repeats keys. */
  lemma {:induction false} OnlyOverbookingBreaks(s: State, e: Event, limit: int)
    requires Inv(s) && Can(s, e, limit) && WithinLimit(s, limit) && !WithinLimit(After(s, e, limit), limit)
    ensures e.Attempt? && e.answered && Overbooked(s, limit)
  {
    if e.Attempt? && e.answered {
      SuccessEnters(s, limit, e.p, e.scan, e.scan2);
      assert Holders(s) == {} ==> |Holders(s)| == 0;
    } else {
      NobodyEnters(s, After(s, e, limit), limit);
    }
  }

  /** From a state within the limit, a call that is retrying can break the limit exactly when fewer keys are counted
    * than the limit allows while the limit is reached. */
  lemma {:induction false} BreaksIffOverbooked(r: seq<State>, limit: int, p: nat)
    requires Run(r, limit) && Is(r[|r| - 1], p, Trying) && WithinLimit(r[|r| - 1], limit)
    ensures CanBreak(r[|r| - 1], p, limit) <==> Overbooked(r[|r| - 1], limit)
  {
    var s := r[|r| - 1];
    RunKeepsInv(r, limit);
    if Overbooked(s, limit) {
      var scan := InSomeOrder(s.expiry.Keys);
      var scan2 := InSomeOrder(s.expiry[Own(p) := s.now + TTL].Keys);
      OutcomeIff(s, limit, p, scan, scan2);
      SuccessEnters(s, limit, p, scan, scan2);
      assert Breaks(s, p, scan, scan2, limit);
    }
    if scan: seq<Key>, scan2: seq<Key> :| Breaks(s, p, scan, scan2, limit) {
      OnlyOverbookingBreaks(s, Attempt(p, scan, scan2, true), limit);
    }
  }

  /** Over a whole run, the limit holds as long as no state was overbooked. */
  lemma {:induction false} WithinUnlessOverbooked(r: seq<State>, limit: int)
    requires Run(r, limit) && forall i :: 0 <= i < |r| - 1 ==> !Overbooked(r[i], limit)
    ensures WithinLimit(r[|r| - 1], limit)
  {
    var n := |r| - 1;
    if n > 0 {
      assert SomeStep(r[n - 1], r[n], limit);
      WithinUnlessOverbooked(r[..n], limit);
      RunKeepsInv(r[..n], limit);
      assert r[..n][n - 1] == r[n - 1];
      var e :| Can(r[n - 1], e, limit) && r[n] == After(r[n - 1], e, limit);
      if !WithinLimit(r[n], limit) { OnlyOverbookingBreaks(r[n - 1], e, limit); }
    }
  }

  lemma {:induction false} RefreshedIsNotOverbooked(s: State, limit: int)
    requires Refreshed(s)
    ensures !Overbooked(s, limit)
  {
    var scan := InSomeOrder(s.expiry.Keys);
    CountIsExact(s.now, s.expiry, scan);
    CountCovers(s.now, s.expiry, scan, Holders(s));
  }

  /** If every holder has kept its key counted so far, no more than limit processes hold the semaphore, even if SCAN
    * repeats keys, attempts are lost, and holders crash. */
  lemma {:induction false} HoldersWithinLimit(r: seq<State>, limit: int)
    requires Run(r, limit) && forall i :: 0 <= i < |r| - 1 ==> Refreshed(r[i])
    ensures WithinLimit(r[|r| - 1], limit)
  {
    forall i | 0 <= i < |r| - 1 ensures !Overbooked(r[i], limit) { RefreshedIsNotOverbooked(r[i], limit); }
    WithinUnlessOverbooked(r, limit);
  }

  // ----- What becomes of a call's key

  /** What an attempt does that is answered: the call gets in with a fresh key, or everything stays as it was. */
  lemma {:induction false} AttemptAnswered(r: seq<State>, limit: int, p: nat, scan: seq<Key>, scan2: seq<Key>)
    requires Run(r, limit) && Can(r[|r| - 1], Attempt(p, scan, scan2, true), limit)
    ensures var s := r[|r| - 1]; var s' := After(s, Attempt(p, scan, scan2, true), limit);
      if Script(s.now, s.expiry, p, limit, scan, scan2).code == 0
      then s' == State(s.now, s.expiry[Own(p) := s.now + TTL], s.phases[p := Holding])
      else s' == s
  {
    RunKeepsInv(r, limit);
    AttemptOutcome(r[|r| - 1], p, limit, scan, scan2);
  }

  /** An attempt whose answer is lost does to the keys what it would have done, and the call is over. */
  lemma {:induction false} AttemptLost(s: State, limit: int, p: nat, scan: seq<Key>, scan2: seq<Key>)
    requires Can(s, Attempt(p, scan, scan2, false), limit)
    ensures var lost := After(s, Attempt(p, scan, scan2, false), limit);
      && Is(lost, p, Done)
      && lost.(phases := s.phases) == After(s, Attempt(p, scan, scan2, true), limit).(phases := s.phases)
      && forall q :: 0 <= q < |s.phases| && q != p ==> lost.phases[q] == s.phases[q]
  {
  }

  /** The call got in at some time; it is in possession, or gives it back, or has died. */
  predicate Owns(s: State, p: nat) { Is(s, p, Holding) || Is(s, p, Releasing) || Is(s, p, Crashed) }

  /** While the call is not over, its key is there if it was there, and expires no earlier than it would have; a key
    * that has expired is not renewed.  When the call is over, its key is gone. */
  predicate KeyStays(s: State, s': State, p: nat) {
    var k := Own(p);
    if Owns(s', p) then
      && (k in s'.expiry <==> k in s.expiry)
      && (k in s.expiry ==> s.expiry[k] <= s'.expiry[k])
      && (!Exists(s.now, s.expiry, k) ==> !Exists(s'.now, s'.expiry, k))
    else Is(s', p, Done) && k !in s'.expiry
  }

  lemma {:induction false} StepKeepsKey(s: State, e: Event, limit: int, p: nat)
    requires Inv(s) && Can(s, e, limit) && Owns(s, p)
    ensures var s' := After(s, e, limit); s.now <= s'.now && KeyStays(s, s', p)
  {
    if e.Attempt? { AttemptOutcome(s, e.p, limit, e.scan, e.scan2); }
  }

  lemma {:induction false} StaysReleased(s: State, e: Event, limit: int, p: nat)
    requires Inv(s) && Can(s, e, limit) && Is(s, p, Done) && Own(p) !in s.expiry
    ensures Is(After(s, e, limit), p, Done) && Own(p) !in After(s, e, limit).expiry
  {
    if e.Attempt? { AttemptOutcome(s, e.p, limit, e.scan, e.scan2); }
  }

  /** From any moment after it got in, the key of a call is its own. */
  lemma {:induction false} KeyOfHolder(r: seq<State>, limit: int, i: nat, p: nat)
    requires Run(r, limit) && i < |r| && Owns(r[i], p)
    ensures r[i].now <= r[|r| - 1].now && KeyStays(r[i], r[|r| - 1], p)
  {
    var n := |r| - 1;
    if i < n {
      assert SomeStep(r[n - 1], r[n], limit);
      KeyOfHolder(r[..n], limit, i, p);
      RunKeepsInv(r[..n], limit);
      assert r[..n][n - 1] == r[n - 1];
      var e :| Can(r[n - 1], e, limit) && r[n] == After(r[n - 1], e, limit);
      if Owns(r[n - 1], p) { StepKeepsKey(r[n - 1], e, limit, p); } else { StaysReleased(r[n - 1], e, limit, p); }
    }
  }

  /** A release frees the place: when a call that had got in is over, its key is gone. */
  lemma {:induction false} ReleaseFreesPlace(r: seq<State>, limit: int, i: nat, p: nat)
    requires Run(r, limit) && i < |r| && Owns(r[i], p) && Is(r[|r| - 1], p, Done)
    ensures Own(p) !in r[|r| - 1].expiry && Own(p) !in CountedKeys(r[|r| - 1].now, r[|r| - 1].expiry)
  {
    KeyOfHolder(r, limit, i, p);
  }

  /** p gets in, or refreshes a key that has not expired. */
  ghost predicate Renews(s: State, e: Event, limit: int, p: nat) {
    && Can(s, e, limit)
    && if e.Attempt? then e.p == p && e.answered && Is(After(s, e, limit), p, Holding)
       else e == Refresh(p) && Exists(s.now, s.expiry, Own(p))
  }

  /** Whatever others do, a key that is renewed counts for the next half of its time to live, unless it is given
    * back. */
  lemma {:induction false} RenewedKeyCounts(r: seq<State>, limit: int, i: nat, e: Event, p: nat)
    requires Run(r, limit) && i + 1 < |r| && Renews(r[i], e, limit, p) && r[i + 1] == After(r[i], e, limit)
    requires !Is(r[|r| - 1], p, Done) && r[|r| - 1].now <= r[i].now + TTL / 2
    ensures Counted(r[|r| - 1].now, r[|r| - 1].expiry, Own(p))
  {
    Beginning(r, limit, i);
    RunKeepsInv(r[..i + 1], limit);
    if e.Attempt? { AttemptOutcome(r[i], p, limit, e.scan, e.scan2); }
    KeyOfHolder(r, limit, i + 1, p);
  }

  lemma {:induction false} Beginning(r: seq<State>, limit: int, i: nat)
    requires Run(r, limit) && i < |r|
    ensures Run(r[..i + 1], limit)
  {
    if i == |r| - 1 {
      assert r[..i + 1] == r;
    } else {
      Beginning(r[..|r| - 1], limit, i);
      assert r[..|r| - 1][..i + 1] == r[..i + 1];
    }
  }

  /** Refreshing in time is all it takes to be counted. */
  lemma {:induction false} RefreshedInTime(r: seq<State>, limit: int)
    requires Run(r, limit) && forall p: nat :: p in Holders(r[|r| - 1]) ==> RenewedLately(r, limit, p)
    ensures Refreshed(r[|r| - 1])
  {
    var s := r[|r| - 1];
    forall p: nat | p in Holders(s) ensures Counted(s.now, s.expiry, Own(p)) {
      assert RenewedLately(r, limit, p);
      var i: nat, e :| i + 1 < |r| && RenewedAt(r, limit, p, i, e);
      RenewedKeyCounts(r, limit, i, e, p);
    }
  }

  ghost predicate RenewedAt(r: seq<State>, limit: int, p: nat, i: nat, e: Event)
    requires i + 1 < |r|
  {
    Renews(r[i], e, limit, p) && r[i + 1] == After(r[i], e, limit) && r[|r| - 1].now <= r[i].now + TTL / 2
  }

  ghost predicate RenewedLately(r: seq<State>, limit: int, p: nat) {
    exists i: nat, e :: i + 1 < |r| && RenewedAt(r, limit, p, i, e)
  }

  /** The limit holds over a run in which, in every state, every holder got in or refreshed a living key no longer than
    * half a time to live ago. */
  lemma {:induction false} LimitWhileRefreshing(r: seq<State>, limit: int)
    requires Run(r, limit)
    requires forall j, p: nat :: 0 <= j < |r| - 1 && p in Holders(r[j]) ==> RenewedLately(r[..j + 1], limit, p)
    ensures WithinLimit(r[|r| - 1], limit)
  {
    forall j | 0 <= j < |r| - 1 ensures Refreshed(r[j]) {
      Beginning(r, limit, j);
      RefreshedInTime(r[..j + 1], limit);
    }
    HoldersWithinLimit(r, limit);
  }

  /** The key of a call that has crashed, or ended without an answer, stops being counted half a second into its last
    * second, and is gone at the end of it. */
  lemma {:induction false} CrashedSlotFrees(r: seq<State>, limit: int, i: nat, p: nat)
    requires Run(r, limit) && i < |r| && (Is(r[i], p, Crashed) || Is(r[i], p, Done))
    ensures Is(r[|r| - 1], p, r[i].phases[p])
    ensures var s := r[|r| - 1];
      && (Own(p) in s.expiry ==> s.expiry[Own(p)] <= r[i].now + TTL)
      && (s.now >= r[i].now + TTL ==> !Exists(s.now, s.expiry, Own(p)))
      && (s.now > r[i].now + TTL / 2 ==> Own(p) !in CountedKeys(s.now, s.expiry))
  {
    var n := |r| - 1;
    if i == n {
      RunKeepsInv(r, limit);
    } else {
      assert SomeStep(r[n - 1], r[n], limit);
      CrashedSlotFrees(r[..n], limit, i, p);
      RunKeepsInv(r[..n], limit);
      assert r[..n][n - 1] == r[n - 1];
      var e :| Can(r[n - 1], e, limit) && r[n] == After(r[n - 1], e, limit);
      if e.Attempt? { AttemptOutcome(r[n - 1], e.p, limit, e.scan, e.scan2); }
    }
  }
}
