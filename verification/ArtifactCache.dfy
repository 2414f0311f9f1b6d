/** The artifact cache: per-artifact reader and writer locks kept in maps, guarding directories on disk.
  *
  * Only the lock maps are protected by the mutex; renaming and removing directories happens outside it.  The cache
  * directory and the temporary directory are maps from identifier to what was written there.
  */
module ArtifactCache {

  type ID = nat

  type Content = seq<int>

  datatype Err = NotFound | Exists | WriteLocked | ReadLocked | IO

  datatype Result = Ok | Error(err: Err)

  // ----- The lock maps

  datatype Locks = Locks(writeLocked: set<ID>, readLocked: map<ID, int>)

  datatype Reply = Reply(result: Result, locks: Locks)

  /** What os.Stat said of the artifact's directory. */
  datatype Stat = Present | Missing | StatFailed

  function Readers(l: Locks, id: ID): int { if id in l.readLocked then l.readLocked[id] else 0 }

  function LockRead(l: Locks, id: ID): Reply {
    if id in l.writeLocked then Reply(Error(WriteLocked), l)
    else Reply(Ok, l.(readLocked := l.readLocked[id := Readers(l, id) + 1]))
  }

  function UnlockRead(l: Locks, id: ID): Locks {
    if Readers(l, id) == 1 then l.(readLocked := l.readLocked - {id})
    else l.(readLocked := l.readLocked[id := Readers(l, id) - 1])
  }

  function LockWrite(l: Locks, id: ID, stat: Stat, remove: bool): Reply {
    if stat == StatFailed then Reply(Error(IO), l)
    else if stat == Present && !remove then Reply(Error(Exists), l)
    else if id in l.writeLocked then Reply(Error(WriteLocked), l)
    else if Readers(l, id) > 0 then Reply(Error(ReadLocked), l)
    else Reply(Ok, l.(writeLocked := l.writeLocked + {id}))
  }

  function UnlockWrite(l: Locks, id: ID): Locks { l.(writeLocked := l.writeLocked - {id}) }

  // ----- Calls and their interleaved steps

  datatype Op = Create | Get | Remove

  datatype PC =
    | Called
    | Statted(stat: Stat)        // inside writeLock, holding the mutex
    | Locked                     // the lock is taken, the call on the file system is next
    | Open(content: Content)     // the caller has its handle; what it wrote, or found
    | Unlocking(result: Result)
    | Returned(result: Result)

  datatype Proc = Proc(op: Op, id: ID, pc: PC)

  datatype Mutex = Unheld | HeldBy(t: nat)

  datatype State = State(
    mu: Mutex, locks: Locks, files: map<ID, Content>, tmp: map<ID, Content>, procs: seq<Proc>)

  datatype Event =
    | Call(op: Op, id: ID)
    | Look(t: nat, ok: bool)                       // the first half of writeLock
    | Lock(t: nat)                                 // the second half of writeLock; readLock
    | File(t: nat, ok: bool, left: Content)        // MkdirAll, Stat or RemoveAll; left is what a failed removal leaves
    | Write(t: nat, datum: int)
    | Commit(t: nat, ok: bool)
    | Abort(t: nat, ok: bool, left: Content)
    | Unlock(t: nat)

  predicate At(s: State, t: nat, op: Op) { t < |s.procs| && s.procs[t].op == op }

  /** The event can happen: each handle is used once, and the mutex is free where it must be taken. */
  predicate Can(s: State, e: Event) {
    match e
    case Call(_, _) => true
    case Look(t, _) => t < |s.procs| && s.procs[t].op != Get && s.procs[t].pc.Called? && s.mu.Unheld?
    case Lock(t) =>
      && t < |s.procs|
      && if s.procs[t].op == Get then s.procs[t].pc.Called? && s.mu.Unheld? else s.procs[t].pc.Statted?
    case File(t, _, _) => t < |s.procs| && s.procs[t].pc.Locked?
    case Write(t, _) => At(s, t, Create) && s.procs[t].pc.Open? && s.procs[t].id in s.tmp
    case Commit(t, _) => At(s, t, Create) && s.procs[t].pc.Open? && s.procs[t].id in s.tmp
    case Abort(t, _, _) => At(s, t, Create) && s.procs[t].pc.Open?
    case Unlock(t) =>
      && t < |s.procs| && s.mu.Unheld?
      && (s.procs[t].pc.Unlocking? || (s.procs[t].op == Get && s.procs[t].pc.Open?))
  }

  function To(s: State, t: nat, pc: PC): State
    requires t < |s.procs|
  {
    s.(procs := s.procs[t := s.procs[t].(pc := pc)])
  }

  function AfterLock(s: State, t: nat): State
    requires Can(s, Lock(t))
  {
    var p := s.procs[t];
    var r := if p.op == Get then LockRead(s.locks, p.id) else LockWrite(s.locks, p.id, p.pc.stat, p.op == Remove);
    To(s.(mu := Unheld, locks := r.locks), t, if r.result == Ok then Locked else Returned(r.result))
  }

  function AfterFile(s: State, t: nat, ok: bool, left: Content): State
    requires t < |s.procs|
  {
    var id := s.procs[t].id;
    match s.procs[t].op
    case Create =>
      if !ok then To(s, t, Unlocking(Error(IO)))
      else
        var content := if id in s.tmp then s.tmp[id] else [];
        To(s.(tmp := s.tmp[id := content]), t, Open(content))
    case Get =>
      if !ok then To(s, t, Unlocking(Error(IO)))
      else if id in s.files then To(s, t, Open(s.files[id]))
      else To(s, t, Unlocking(Error(NotFound)))
    case Remove =>
      if ok then To(s.(files := s.files - {id}), t, Unlocking(Ok))
      else if id in s.files then To(s.(files := s.files[id := left]), t, Unlocking(Error(IO)))
      else To(s, t, Unlocking(Error(IO)))
  }

  function AfterUnlock(s: State, t: nat): State
    requires t < |s.procs|
  {
    var p := s.procs[t];
    To(s.(locks := if p.op == Get then UnlockRead(s.locks, p.id) else UnlockWrite(s.locks, p.id)), t,
       Returned(if p.pc.Unlocking? then p.pc.result else Ok))
  }

  function After(s: State, e: Event): State
    requires Can(s, e)
  {
    match e
    case Call(op, id) => s.(procs := s.procs + [Proc(op, id, Called)])
    case Look(t, ok) =>
      To(s.(mu := HeldBy(t)), t,
         Statted(if !ok then StatFailed else if s.procs[t].id in s.files then Present else Missing))
    case Lock(t) => AfterLock(s, t)
    case File(t, ok, left) => AfterFile(s, t, ok, left)
    case Write(t, datum) =>
      var p := s.procs[t];
      To(s.(tmp := s.tmp[p.id := s.tmp[p.id] + [datum]]), t, Open(p.pc.content + [datum]))
    case Commit(t, ok) =>
      var id := s.procs[t].id;
      if ok then To(s.(files := s.files[id := s.tmp[id]], tmp := s.tmp - {id}), t, Unlocking(Ok))
      else To(s, t, Unlocking(Error(IO)))
    case Abort(t, ok, left) =>
      var id := s.procs[t].id;
      if ok then To(s.(tmp := s.tmp - {id}), t, Unlocking(Ok))
      else To(s.(tmp := s.tmp[id := left]), t, Unlocking(Error(IO)))
    case Unlock(t) => AfterUnlock(s, t)
  }

  ghost predicate SomeStep(s: State, s': State) { exists e :: Can(s, e) && s' == After(s, e) }

  ghost predicate Fresh(s: State) {
    s.mu.Unheld? && s.locks == Locks({}, map[]) && s.tmp == map[] && s.procs == []
  }

  /** The states of an interleaving, from an empty temporary directory and any artifacts already cached. */
  ghost predicate Run(r: seq<State>) {
    r != [] && if |r| == 1 then Fresh(r[0]) else Run(r[..|r| - 1]) && SomeStep(r[|r| - 2], r[|r| - 1])
  }

  // ----- The lock maps count the calls inside

  /** The call is between its lock and its unlock. */
  predicate Inside(p: Proc) { p.pc.Locked? || p.pc.Open? || p.pc.Unlocking? }

  predicate Counts(p: Proc, id: ID, writing: bool) { p.id == id && Inside(p) && (p.op != Get) == writing }

  function One(p: Proc, id: ID, writing: bool): nat { if Counts(p, id, writing) then 1 else 0 }

  function Count(procs: seq<Proc>, id: ID, writing: bool): nat
  {
    if procs == [] then 0
    else Count(procs[..|procs| - 1], id, writing) + One(procs[|procs| - 1], id, writing)
  }

  lemma {:induction false} CountUpdate(procs: seq<Proc>, t: nat, p: Proc, id: ID, writing: bool)
    requires t < |procs|
    ensures Count(procs[t := p], id, writing) ==
            Count(procs, id, writing) - One(procs[t], id, writing) + One(p, id, writing)
  {
    var n := |procs| - 1;
    if t < n {
      CountUpdate(procs[..n], t, p, id, writing);
      assert procs[t := p][..n] == procs[..n][t := p];
    } else {
      assert procs[t := p][..n] == procs[..n];
    }
  }

  lemma {:induction false} CountAtLeast(procs: seq<Proc>, t: nat, id: ID, writing: bool)
    requires t < |procs| && Counts(procs[t], id, writing)
    ensures Count(procs, id, writing) >= 1
  {
    var n := |procs| - 1;
    if t < n { CountAtLeast(procs[..n], t, id, writing); }
  }

  lemma {:induction false} CountTwo(procs: seq<Proc>, t: nat, u: nat, id: ID, writing: bool)
    requires t < u < |procs| && Counts(procs[t], id, writing) && Counts(procs[u], id, writing)
    ensures Count(procs, id, writing) >= 2
  {
    var n := |procs| - 1;
    if u < n { CountTwo(procs[..n], t, u, id, writing); } else { CountAtLeast(procs[..n], t, id, writing); }
  }

  ghost predicate LocksCount(s: State) {
    && (forall id :: Count(s.procs, id, true) == if id in s.locks.writeLocked then 1 else 0)
    && (forall id :: Count(s.procs, id, false) == Readers(s.locks, id))
    && (forall id :: id in s.locks.readLocked ==> id !in s.locks.writeLocked && s.locks.readLocked[id] > 0)
  }

  predicate MutexOf(s: State, t: nat)
    requires t < |s.procs|
  {
    s.procs[t].pc.Statted? <==> s.mu == HeldBy(t)
  }

  /** What a call may rely on about the directories of its artifact. */
  predicate Relies(s: State, p: Proc) {
    match p.pc
    case Called => true
    case Statted(stat) => p.op != Get && (stat == Missing ==> p.id !in s.files || p.id in s.locks.writeLocked)
    case Locked => p.op == Create ==> p.id !in s.files
    case Open(content) =>
      if p.op == Get then p.id in s.files && s.files[p.id] == content
      else p.op == Create && p.id !in s.files && p.id in s.tmp && s.tmp[p.id] == content
    case Unlocking(_) => true
    case Returned(_) => true
  }

  ghost predicate Inv(s: State) {
    && LocksCount(s)
    && (s.mu.HeldBy? ==> s.mu.t < |s.procs|)
    && (forall t :: 0 <= t < |s.procs| ==> MutexOf(s, t) && Relies(s, s.procs[t]))
  }

  /** Nobody else is inside while t writes. */
  lemma {:induction false} WriterIsAlone(s: State, t: nat, u: nat)
    requires LocksCount(s) && t < |s.procs| && u < |s.procs| && t != u
    requires Counts(s.procs[t], s.procs[t].id, true)
    ensures !(Inside(s.procs[u]) && s.procs[u].id == s.procs[t].id)
    ensures s.procs[t].id in s.locks.writeLocked
  {
    var id := s.procs[t].id;
    CountAtLeast(s.procs, t, id, true);
    if Counts(s.procs[u], id, true) {
      if t < u { CountTwo(s.procs, t, u, id, true); } else { CountTwo(s.procs, u, t, id, true); }
    }
    if Counts(s.procs[u], id, false) { CountAtLeast(s.procs, u, id, false); }
  }

  // ----- Every step keeps this

  /** A step of t that neither takes nor gives back a lock, and touches the directories of its own artifact only. */
  lemma {:induction false} StaysInside(s: State, s': State, t: nat, pc: PC)
    requires Inv(s) && t < |s.procs| && s'.procs == s.procs[t := s.procs[t].(pc := pc)]
    requires s'.locks == s.locks && s'.mu == s.mu && Inside(s.procs[t]) && Inside(s'.procs[t])
    requires Relies(s', s'.procs[t])
    requires forall id :: id != s.procs[t].id || s.procs[t].op == Get ==>
      (id in s.files <==> id in s'.files) && (id in s.tmp <==> id in s'.tmp)
    requires forall id :: id in s.files && (id != s.procs[t].id || s.procs[t].op == Get) ==> s'.files[id] == s.files[id]
    requires forall id :: id in s.tmp && (id != s.procs[t].id || s.procs[t].op == Get) ==> s'.tmp[id] == s.tmp[id]
    ensures Inv(s')
  {
    var p := s'.procs[t];
    forall id, writing ensures Count(s'.procs, id, writing) == Count(s.procs, id, writing) {
      CountUpdate(s.procs, t, p, id, writing);
    }
    forall u | 0 <= u < |s.procs| ensures MutexOf(s', u) && Relies(s', s'.procs[u]) {
      assert MutexOf(s, u) && Relies(s, s.procs[u]);
      if u != t && s.procs[t].op != Get { WriterIsAlone(s, t, u); }
    }
  }

  /** A step of t between or around its locks: only the lock maps and the mutex change. */
  lemma {:induction false} LocksOnly(s: State, s': State, t: nat, pc: PC)
    requires Inv(s) && t < |s.procs| && s'.procs == s.procs[t := s.procs[t].(pc := pc)]
    requires s'.files == s.files && s'.tmp == s.tmp
    requires LocksCount(s') && Relies(s', s'.procs[t])
    requires s.mu.Unheld? || s.mu == HeldBy(t)
    requires s'.mu == if pc.Statted? then HeldBy(t) else Unheld
    requires s'.mu.Unheld? ==> s.mu == HeldBy(t) || s.locks.writeLocked - {s.procs[t].id} <= s'.locks.writeLocked
    requires s.mu.HeldBy? ==> s.locks.writeLocked <= s'.locks.writeLocked
    ensures Inv(s')
  {
    forall u | 0 <= u < |s.procs| ensures MutexOf(s', u) && Relies(s', s'.procs[u]) {
      assert MutexOf(s, u) && Relies(s, s.procs[u]);
    }
  }

  lemma {:induction false} CountSame(s: State, s': State, t: nat, pc: PC)
    requires LocksCount(s) && t < |s.procs| && s'.procs == s.procs[t := s.procs[t].(pc := pc)] && s'.locks == s.locks
    requires Inside(s.procs[t]) <==> Inside(s.procs[t].(pc := pc))
    ensures LocksCount(s')
  {
    forall id, writing ensures Count(s'.procs, id, writing) == Count(s.procs, id, writing) {
      CountUpdate(s.procs, t, s'.procs[t], id, writing);
    }
  }

  lemma {:induction false} CountTakes(s: State, t: nat)
    requires LocksCount(s) && Can(s, Lock(t)) && AfterLock(s, t).procs[t].pc.Locked?
    ensures LocksCount(AfterLock(s, t))
  {
    var s' := AfterLock(s, t);
    forall id, writing
      ensures Count(s'.procs, id, writing) == Count(s.procs, id, writing) + One(s'.procs[t], id, writing)
    {
      CountUpdate(s.procs, t, s'.procs[t], id, writing);
    }
  }

  lemma {:induction false} CountGivesBack(s: State, t: nat)
    requires LocksCount(s) && Can(s, Unlock(t))
    ensures LocksCount(AfterUnlock(s, t))
  {
    var s', p := AfterUnlock(s, t), s.procs[t];
    CountAtLeast(s.procs, t, p.id, p.op != Get);
    forall id, writing
      ensures Count(s'.procs, id, writing) == Count(s.procs, id, writing) - One(p, id, writing)
    {
      CountUpdate(s.procs, t, s'.procs[t], id, writing);
    }
  }

  lemma {:induction false} LookKeeps(s: State, t: nat, ok: bool)
    requires Inv(s) && Can(s, Look(t, ok))
    ensures Inv(After(s, Look(t, ok)))
  {
    var s' := After(s, Look(t, ok));
    CountSame(s, s', t, s'.procs[t].pc);
    LocksOnly(s, s', t, s'.procs[t].pc);
  }

  lemma {:induction false} LockKeeps(s: State, t: nat)
    requires Inv(s) && Can(s, Lock(t))
    ensures Inv(After(s, Lock(t)))
  {
    var s' := AfterLock(s, t);
    assert MutexOf(s, t) && Relies(s, s.procs[t]);
    if s'.procs[t].pc.Locked? { CountTakes(s, t); } else { CountSame(s, s', t, s'.procs[t].pc); }
    LocksOnly(s, s', t, s'.procs[t].pc);
  }

  lemma {:induction false} UnlockKeeps(s: State, t: nat)
    requires Inv(s) && Can(s, Unlock(t))
    ensures Inv(After(s, Unlock(t)))
  {
    var s', p := AfterUnlock(s, t), s.procs[t];
    CountGivesBack(s, t);
    forall u | 0 <= u < |s.procs| ensures MutexOf(s', u) && Relies(s', s'.procs[u]) {
      assert MutexOf(s, u) && Relies(s, s.procs[u]);
    }
  }

  lemma {:induction false} FileKeeps(s: State, e: Event)
    requires Inv(s) && Can(s, e) && (e.File? || e.Write?)
    ensures Inv(After(s, e))
  {
    var s' := After(s, e);
    assert Relies(s, s.procs[e.t]);
    StaysInside(s, s', e.t, s'.procs[e.t].pc);
  }

  lemma {:induction false} CloseKeeps(s: State, e: Event)
    requires Inv(s) && Can(s, e) && (e.Commit? || e.Abort?)
    ensures Inv(After(s, e))
  {
    var s' := After(s, e);
    assert Relies(s, s.procs[e.t]);
    StaysInside(s, s', e.t, s'.procs[e.t].pc);
  }

  lemma {:induction false} CallKeeps(s: State, op: Op, id: ID)
    requires Inv(s)
    ensures Inv(After(s, Call(op, id)))
  {
    var s' := After(s, Call(op, id));
    assert s'.procs[..|s.procs|] == s.procs;
    forall u | 0 <= u < |s'.procs| ensures MutexOf(s', u) && Relies(s', s'.procs[u]) {
      if u < |s.procs| { assert MutexOf(s, u) && Relies(s, s.procs[u]); }
    }
  }

  lemma {:induction false} StepKeepsInv(s: State, e: Event)
    requires Inv(s) && Can(s, e)
    ensures Inv(After(s, e))
  {
    match e
    case Call(op, id) => CallKeeps(s, op, id);
    case Look(t, ok) => LookKeeps(s, t, ok);
    case Lock(t) => LockKeeps(s, t);
    case Unlock(t) => UnlockKeeps(s, t);
    case File(_, _, _) => FileKeeps(s, e);
    case Write(_, _) => FileKeeps(s, e);
    case Commit(_, _) => CloseKeeps(s, e);
    case Abort(_, _, _) => CloseKeeps(s, e);
  }

  lemma {:induction false} RunKeepsInv(r: seq<State>)
    requires Run(r)
    ensures Inv(r[|r| - 1])
  {
    var n := |r| - 1;
    if n > 0 {
      assert SomeStep(r[n - 1], r[n]);
      RunKeepsInv(r[..n]);
      var e :| Can(r[n - 1], e) && r[n] == After(r[n - 1], e);
      StepKeepsInv(r[n - 1], e);
    }
  }

  // ----- What the locks are for

  /** A call that creates or removes an artifact is alone with it, from its lock to its unlock. */
  lemma {:induction false} WritersExcludeAll(r: seq<State>, t: nat, u: nat)
    requires Run(r) && t < |r[|r| - 1].procs| && u < |r[|r| - 1].procs| && t != u
    requires var ps := r[|r| - 1].procs; ps[t].op != Get && Inside(ps[t]) && Inside(ps[u])
    ensures r[|r| - 1].procs[t].id != r[|r| - 1].procs[u].id
    ensures r[|r| - 1].procs[t].id !in r[|r| - 1].locks.readLocked
  {
    RunKeepsInv(r);
    WriterIsAlone(r[|r| - 1], t, u);
  }

  /** Since it had its handle, the reader kept it or has unlocked. */
  predicate SinceOpen(s: State, s': State, t: nat) {
    && At(s, t, Get) && At(s', t, Get) && s'.procs[t].id == s.procs[t].id
    && (s'.procs[t].pc == s.procs[t].pc || s'.procs[t].pc.Returned?)
  }

  lemma ReaderStep(s: State, e: Event, t: nat)
    requires Can(s, e) && At(s, t, Get) && (s.procs[t].pc.Open? || s.procs[t].pc.Returned?)
    ensures SinceOpen(s, After(s, e), t)
  {}

  lemma {:induction false} ReaderSinceOpen(r: seq<State>, i: nat, t: nat)
    requires Run(r) && i < |r| && At(r[i], t, Get) && r[i].procs[t].pc.Open?
    ensures SinceOpen(r[i], r[|r| - 1], t)
  {
    var n := |r| - 1;
    if i < n {
      assert SomeStep(r[n - 1], r[n]);
      ReaderSinceOpen(r[..n], i, t);
      var e :| Can(r[n - 1], e) && r[n] == After(r[n - 1], e);
      ReaderStep(r[n - 1], e, t);
    }
  }

  lemma {:induction false} Prefix(r: seq<State>, i: nat)
    requires Run(r) && i < |r|
    ensures Run(r[..i + 1])
  {
    if i == |r| - 1 {
      assert r[..i + 1] == r;
    } else {
      Prefix(r[..|r| - 1], i);
      assert r[..|r| - 1][..i + 1] == r[..i + 1];
    }
  }

  /** An artifact that Get returned is there, with the contents it had, until its unlock. */
  lemma {:induction false} ArtifactStays(r: seq<State>, i: nat, t: nat)
    requires Run(r) && i < |r| && At(r[i], t, Get) && r[i].procs[t].pc.Open?
    ensures var s := r[|r| - 1]; var id := r[i].procs[t].id;
      && SinceOpen(r[i], s, t)
      && (!s.procs[t].pc.Returned? ==> id in r[i].files && id in s.files && s.files[id] == r[i].files[id])
  {
    ReaderSinceOpen(r, i, t);
    Prefix(r, i);
    RunKeepsInv(r[..i + 1]);
    RunKeepsInv(r);
    assert Relies(r[i], r[i].procs[t]) && Relies(r[|r| - 1], r[|r| - 1].procs[t]);
  }

  /** A commit finds nothing at the place it renames to, and publishes what its own caller was given and wrote. */
  lemma {:induction false} CommitIsClean(r: seq<State>, t: nat)
    requires Run(r) && Can(r[|r| - 1], Commit(t, true))
    ensures var s := r[|r| - 1]; var id := s.procs[t].id; var s' := After(s, Commit(t, true));
      && id !in s.files
      && s'.files == s.files[id := s.procs[t].pc.content]
      && id !in s'.tmp
  {
    RunKeepsInv(r);
    assert Relies(r[|r| - 1], r[|r| - 1].procs[t]);
  }

  lemma {:induction false} NobodyInside(procs: seq<Proc>, id: ID, writing: bool)
    requires forall p :: p in procs ==> !Inside(p)
    ensures Count(procs, id, writing) == 0
  {
    if procs != [] { NobodyInside(procs[..|procs| - 1], id, writing); }
  }

  /** When every call has returned, no lock is left. */
  lemma {:induction false} NothingLeaks(r: seq<State>)
    requires Run(r) && forall p :: p in r[|r| - 1].procs ==> p.pc.Returned?
    ensures r[|r| - 1].locks == Locks({}, map[]) && r[|r| - 1].mu.Unheld?
  {
    var s := r[|r| - 1];
    RunKeepsInv(r);
    NoneLocked(s);
    assert s.locks.writeLocked == {} && s.locks.readLocked == map[];
    forall t | 0 <= t < |s.procs| ensures s.mu != HeldBy(t) {
      assert MutexOf(s, t) && s.procs[t] in s.procs;
    }
  }

  lemma {:induction false} NoneLocked(s: State)
    requires LocksCount(s) && forall p :: p in s.procs ==> !Inside(p)
    ensures forall id :: id !in s.locks.writeLocked && id !in s.locks.readLocked
  {
    forall id ensures id !in s.locks.writeLocked && id !in s.locks.readLocked {
      NobodyInside(s.procs, id, true);
      NobodyInside(s.procs, id, false);
    }
  }

  // ----- What a new artifact starts with

  predicate Writing(p: Proc, id: ID) { p.op == Create && p.id == id && p.pc.Open? }

  ghost predicate Busy(s: State, id: ID) { exists t: nat :: t < |s.procs| && Writing(s.procs[t], id) }

  /** In this step call t ends its commit or abort of id. */
  predicate Ends(s: State, s': State, t: nat, id: ID) {
    t < |s.procs| && t < |s'.procs| && Writing(s.procs[t], id) && !Writing(s'.procs[t], id)
  }

  ghost predicate SomeEnds(s: State, s': State, id: ID) { exists t: nat :: Ends(s, s', t, id) }

  predicate Fails(s: State, s': State, t: nat, id: ID) {
    Ends(s, s', t, id) && s'.procs[t].pc == Unlocking(Error(IO))
  }

  ghost predicate SomeFails(s: State, s': State, id: ID) { exists t: nat :: Fails(s, s', t, id) }

  /** The last commit or abort of id ended with an error. */
  ghost predicate LastFailed(r: seq<State>, id: ID)
  {
    |r| > 1 &&
    if SomeEnds(r[|r| - 2], r[|r| - 1], id) then SomeFails(r[|r| - 2], r[|r| - 1], id)
    else LastFailed(r[..|r| - 1], id)
  }

  /** What was in the temporary directory of id after its last commit or abort. */
  ghost function LastLeft(r: seq<State>, id: ID): Content
  {
    if |r| <= 1 then []
    else if SomeEnds(r[|r| - 2], r[|r| - 1], id) then
      var tmp := r[|r| - 1].tmp;
      if id in tmp then tmp[id] else []
    else LastLeft(r[..|r| - 1], id)
  }

  /** Nobody but a writer of id touches its temporary directory. */
  lemma {:induction false} IdleStep(s: State, e: Event, id: ID)
    requires Can(s, e) && !Busy(s, id) && !Busy(After(s, e), id)
    ensures id in After(s, e).tmp <==> id in s.tmp
    ensures id in s.tmp ==> After(s, e).tmp[id] == s.tmp[id]
  {
    if !e.Call? && e.t < |s.procs| {
      assert !Writing(s.procs[e.t], id) && !Writing(After(s, e).procs[e.t], id);
    }
  }

  /** A commit or abort clears the temporary directory exactly when it does not fail. */
  lemma {:induction false} EndStep(s: State, e: Event, t: nat, id: ID)
    requires Inv(s) && Can(s, e) && Ends(s, After(s, e), t, id)
    ensures id in After(s, e).tmp <==> After(s, e).procs[t].pc == Unlocking(Error(IO))
  {
    assert Relies(s, s.procs[t]);
    assert !e.Call? && e.t == t;
  }

  lemma {:induction false} LeftoverAtEnd(r: seq<State>, e: Event, id: ID)
    requires |r| > 1 && Inv(r[|r| - 2]) && Can(r[|r| - 2], e) && r[|r| - 1] == After(r[|r| - 2], e)
    requires SomeEnds(r[|r| - 2], r[|r| - 1], id)
    ensures id in r[|r| - 1].tmp <==> LastFailed(r, id)
    ensures id in r[|r| - 1].tmp ==> r[|r| - 1].tmp[id] == LastLeft(r, id)
  {
    var s, s' := r[|r| - 2], r[|r| - 1];
    forall t: nat | Ends(s, s', t, id) ensures id in s'.tmp <==> Fails(s, s', t, id) { EndStep(s, e, t, id); }
  }

  lemma {:induction false} IdleBefore(s: State, e: Event, id: ID)
    requires Can(s, e) && !Busy(After(s, e), id) && !SomeEnds(s, After(s, e), id)
    ensures !Busy(s, id)
  {
    var s' := After(s, e);
    forall t: nat | t < |s.procs| ensures !Writing(s.procs[t], id) {
      assert !Ends(s, s', t, id) && !Writing(s'.procs[t], id);
    }
  }

  /** While nobody writes id, its temporary directory is there exactly if the last commit or abort of id failed, and
    * holds what that left. */
  lemma {:induction false} LeftoverIff(r: seq<State>, id: ID)
    requires Run(r) && !Busy(r[|r| - 1], id)
    ensures id in r[|r| - 1].tmp <==> LastFailed(r, id)
    ensures id in r[|r| - 1].tmp ==> r[|r| - 1].tmp[id] == LastLeft(r, id)
  {
    var n := |r| - 1;
    if n > 0 {
      assert SomeStep(r[n - 1], r[n]);
      RunKeepsInv(r[..n]);
      var e :| Can(r[n - 1], e) && r[n] == After(r[n - 1], e);
      if SomeEnds(r[n - 1], r[n], id) {
        LeftoverAtEnd(r, e, id);
      } else {
        IdleBefore(r[n - 1], e, id);
        LeftoverIff(r[..n], id);
        IdleStep(r[n - 1], e, id);
      }
    }
  }

  /** A new artifact starts with what the last commit or abort of its name left, if that failed, and else empty. */
  lemma {:induction false} StartsWith(r: seq<State>, t: nat, left: Content)
    requires Run(r) && At(r[|r| - 1], t, Create) && Can(r[|r| - 1], File(t, true, left))
    ensures var id := r[|r| - 1].procs[t].id;
      After(r[|r| - 1], File(t, true, left)).procs[t].pc == Open(if LastFailed(r, id) then LastLeft(r, id) else [])
  {
    var s := r[|r| - 1];
    RunKeepsInv(r);
    if u: nat :| u < |s.procs| && Writing(s.procs[u], s.procs[t].id) {
      WriterIsAlone(s, t, u);
    }
    LeftoverIff(r, s.procs[t].id);
  }

  /** A failed commit leaves what its caller was given and wrote. */
  lemma {:induction false} CommitFailure(s: State, t: nat)
    requires Inv(s) && Can(s, Commit(t, false))
    ensures var p := s.procs[t];
      Fails(s, After(s, Commit(t, false)), t, p.id) && p.id in s.tmp && s.tmp[p.id] == p.pc.content
  {
    assert Relies(s, s.procs[t]);
  }

  lemma {:induction false} FailedCommitLeaves(r: seq<State>, t: nat)
    requires Run(r) && Can(r[|r| - 1], Commit(t, false))
    ensures var s := r[|r| - 1]; var id := s.procs[t].id; var r' := r + [After(s, Commit(t, false))];
      Run(r') && LastFailed(r', id) && LastLeft(r', id) == s.procs[t].pc.content
  {
    var s := r[|r| - 1];
    var id, s' := s.procs[t].id, After(s, Commit(t, false));
    var r' := r + [s'];
    Extend(r, Commit(t, false), s');
    RunKeepsInv(r);
    CommitFailure(s, t);
    assert r'[|r'| - 2] == s && r'[|r'| - 1] == s';
  }

  lemma {:induction false} Extend(r: seq<State>, e: Event, s': State)
    requires Run(r) && Can(r[|r| - 1], e) && s' == After(r[|r| - 1], e)
    ensures Run(r + [s'])
  {
    assert (r + [s'])[..|r|] == r;
    assert SomeStep(r[|r| - 1], s');
  }

  lemma {:induction false} GoOn(r: seq<State>, e: Event) returns (r': seq<State>)
    requires Run(r) && Can(r[|r| - 1], e)
    ensures Run(r') && r'[|r'| - 1] == After(r[|r| - 1], e)
  {
    r' := r + [After(r[|r| - 1], e)];
    Extend(r, e, After(r[|r| - 1], e));
  }

  /** From call to lock. */
  lemma {:induction false} TakesLock(r: seq<State>, id: ID) returns (r': seq<State>)
    requires Run(r) && r[|r| - 1].mu.Unheld? && r[|r| - 1].locks == Locks({}, map[]) && id !in r[|r| - 1].files
    ensures Run(r')
    ensures var s := r[|r| - 1];
            r'[|r'| - 1] == s.(procs := s.procs + [Proc(Create, id, Locked)], locks := Locks({id}, map[]))
  {
    var s := r[|r| - 1];
    var t := |s.procs|;
    r' := GoOn(r, Call(Create, id));
    r' := GoOn(r', Look(t, true));
    assert r'[|r'| - 1] == s.(procs := s.procs + [Proc(Create, id, Statted(Missing))], mu := HeldBy(t));
    r' := GoOn(r', Lock(t));
    assert r'[|r'| - 1].procs == s.procs + [Proc(Create, id, Locked)];
  }

  /** From call to handle. */
  lemma {:induction false} Opens(r: seq<State>, id: ID) returns (r': seq<State>, t: nat)
    requires Run(r) && r[|r| - 1].mu.Unheld? && r[|r| - 1].locks == Locks({}, map[]) && id !in r[|r| - 1].files
    ensures t == |r[|r| - 1].procs| && Run(r')
    ensures var s, s' := r[|r| - 1], r'[|r'| - 1]; var content := if id in s.tmp then s.tmp[id] else [];
      && s'.procs == s.procs + [Proc(Create, id, Open(content))] && s'.tmp == s.tmp[id := content]
      && s'.files == s.files && s'.mu.Unheld? && s'.locks == Locks({id}, map[])
  {
    t := |r[|r| - 1].procs|;
    r' := TakesLock(r, id);
    r' := GoOn(r', File(t, true, []));
  }

  lemma {:induction false} OpensFirst() returns (r: seq<State>)
    ensures Run(r)
    ensures r[|r| - 1] == State(Unheld, Locks({0}, map[]), map[], map[0 := []], [Proc(Create, 0, Open([]))])
  {
    r := [State(Unheld, Locks({}, map[]), map[], map[], [])];
    var t: nat;
    r, t := Opens(r, 0);
  }

  lemma {:induction false} CommitFails() returns (r: seq<State>)
    ensures Run(r)
    ensures r[|r| - 1] ==
            State(Unheld, Locks({}, map[]), map[], map[0 := [7]], [Proc(Create, 0, Returned(Error(IO)))])
  {
    r := OpensFirst();
    var tmp: map<ID, Content> := map[0 := [7]];
    var s1 := State(Unheld, Locks({0}, map[]), map[], tmp, [Proc(Create, 0, Open([7]))]);
    assert [] + [7] == [7];
    assert After(r[|r| - 1], Write(0, 7)).tmp == tmp;
    assert After(r[|r| - 1], Write(0, 7)).procs == s1.procs;
    Extend(r, Write(0, 7), s1);
    r := r + [s1];
    var s2 := s1.(procs := [Proc(Create, 0, Unlocking(Error(IO)))]);
    assert After(s1, Commit(0, false)).procs == s2.procs;
    Extend(r, Commit(0, false), s2);
    r := r + [s2];
    var s3 := State(Unheld, Locks({}, map[]), map[], tmp, [Proc(Create, 0, Returned(Error(IO)))]);
    assert After(s2, Unlock(0)).procs == s3.procs && After(s2, Unlock(0)).locks == s3.locks;
    Extend(r, Unlock(0), s3);
    r := r + [s3];
  }

  /** After a failed commit the next artifact of that name starts with what the failed one had written. */
  lemma {:induction false} FailedCommitLeavesData()
    ensures exists r: seq<State> ::
              Run(r) && At(r[|r| - 1], 1, Create) && r[|r| - 1].procs[1].pc == Open([7])
  {
    var r := CommitFails();
    var t: nat;
    r, t := Opens(r, 0);
  }

  // ----- Where the cached artifacts come from

  /** The run r goes by the events es. */
  ghost predicate GoesBy(r: seq<State>, es: seq<Event>) {
    && |r| == |es| + 1 && Fresh(r[0])
    && forall i :: 0 <= i < |es| ==> Can(r[i], es[i]) && r[i + 1] == After(r[i], es[i])
  }

  lemma {:induction false} RunGoesBy(r: seq<State>) returns (es: seq<Event>)
    requires Run(r)
    ensures GoesBy(r, es)
  {
    var n := |r| - 1;
    es := [];
    if n > 0 {
      assert SomeStep(r[n - 1], r[n]);
      var front := RunGoesBy(r[..n]);
      var e :| Can(r[n - 1], e) && r[n] == After(r[n - 1], e);
      es := front + [e];
      forall i | 0 <= i < |es| ensures Can(r[i], es[i]) && r[i + 1] == After(r[i], es[i]) {
        if i < n - 1 { assert r[..n][i + 1] == After(r[..n][i], front[i]); }
      }
    }
  }

  lemma {:induction false} GoesByFront(r: seq<State>, es: seq<Event>)
    requires GoesBy(r, es) && es != []
    ensures GoesBy(r[..|es|], es[..|es| - 1])
  {
    var front := r[..|es|];
    forall i | 0 <= i < |es| - 1 ensures Can(front[i], es[i]) && front[i + 1] == After(front[i], es[i]) {
      assert Can(r[i], es[i]);
    }
  }

  lemma {:induction false} GoesByIsRun(r: seq<State>, es: seq<Event>)
    requires GoesBy(r, es)
    ensures Run(r)
  {
    if es != [] {
      GoesByFront(r, es);
      GoesByIsRun(r[..|es|], es[..|es| - 1]);
      assert Can(r[|es| - 1], es[|es| - 1]) && SomeStep(r[|r| - 2], r[|r| - 1]);
    }
  }

  /** A commit of id that succeeds, or a removal of id that gets as far as the directory. */
  predicate Touches(s: State, e: Event, id: ID) {
    && (e.File? || e.Commit?) && e.t < |s.procs| && s.procs[e.t].id == id
    && if e.File? then s.procs[e.t].op == Remove else e.ok
  }

  /** The last event that touched id, or -1. */
  function LastTouch(r: seq<State>, es: seq<Event>, id: ID): (k: int)
    requires |r| == |es| + 1
    ensures -1 <= k < |es| && (k >= 0 ==> Touches(r[k], es[k], id))
    ensures forall i :: k < i < |es| ==> !Touches(r[i], es[i], id)
    decreases |es|
  {
    if es == [] then -1
    else
      var n := |es| - 1;
      if Touches(r[n], es[n], id) then n else LastTouch(r[..n + 1], es[..n], id)
  }

  /** The same artifact, or none in both. */
  predicate Same(files: map<ID, Content>, files': map<ID, Content>, id: ID) {
    && (id in files <==> id in files')
    && (id in files ==> files[id] == files'[id])
  }

  lemma UntouchedStays(s: State, e: Event, id: ID)
    requires Can(s, e) && !Touches(s, e, id)
    ensures Same(s.files, After(s, e).files, id)
  {
  }

  /** A commit leaves the content of its own handle, a removal nothing or, failing, some of what was there. */
  predicate LeftBy(s: State, e: Event, id: ID, files: map<ID, Content>)
    requires Touches(s, e, id)
  {
    var p := s.procs[e.t];
    if e.Commit? then p.op == Create && p.pc.Open? && id in files && files[id] == p.pc.content
    else if e.ok then id !in files
    else (id in files <==> id in s.files) && (id in files ==> files[id] == e.left)
  }

  lemma {:induction false} TouchLeaves(s: State, e: Event, id: ID)
    requires Inv(s) && Can(s, e) && Touches(s, e, id)
    ensures LeftBy(s, e, id, After(s, e).files)
  {
    assert Relies(s, s.procs[e.t]);
  }

  /** The artifact is what the last event that touched it left, or was there from the beginning. */
  ghost predicate CameFrom(r: seq<State>, es: seq<Event>, id: ID, files: map<ID, Content>)
    requires |r| == |es| + 1
  {
    var k := LastTouch(r, es, id);
    if k < 0 then Same(r[0].files, files, id) else LeftBy(r[k], es[k], id, files)
  }

  /** Where each cached artifact comes from.  Aborts, failed commits, readers and calls for other names change
    * nothing. */
  lemma {:induction false} ArtifactOrigin(r: seq<State>, es: seq<Event>, id: ID)
    requires GoesBy(r, es)
    ensures CameFrom(r, es, id, r[|es|].files)
  {
    if es != [] {
      var n := |es| - 1;
      GoesByFront(r, es);
      if Touches(r[n], es[n], id) {
        GoesByIsRun(r[..n + 1], es[..n]);
        RunKeepsInv(r[..n + 1]);
        TouchLeaves(r[n], es[n], id);
      } else {
        ArtifactOrigin(r[..n + 1], es[..n], id);
        UntouchedStays(r[n], es[n], id);
        SameOrigin(r, es, id);
      }
    }
  }

  /** Every run goes by some events, so this holds in all of them. */
  lemma {:induction false} OriginInRun(r: seq<State>, id: ID) returns (es: seq<Event>)
    requires Run(r)
    ensures GoesBy(r, es) && CameFrom(r, es, id, r[|r| - 1].files)
  {
    es := RunGoesBy(r);
    ArtifactOrigin(r, es, id);
  }

  lemma {:induction false} SameOrigin(r: seq<State>, es: seq<Event>, id: ID)
    requires |r| == |es| + 1 && es != [] && !Touches(r[|es| - 1], es[|es| - 1], id)
    requires CameFrom(r[..|es|], es[..|es| - 1], id, r[|es| - 1].files)
    requires Same(r[|es| - 1].files, r[|es|].files, id)
    ensures CameFrom(r, es, id, r[|es|].files)
  {
  }

  /** What the call wrote through its handle. */
  function Written(es: seq<Event>, t: nat): Content
  {
    if es == [] then []
    else
      var e := es[|es| - 1];
      Written(es[..|es| - 1], t) + if e.Write? && e.t == t then [e.datum] else []
  }

  /** What was in the directory when the call got its handle. */
  function Given(r: seq<State>, es: seq<Event>, t: nat): Content
    requires |r| == |es| + 1
    decreases |es|
  {
    if es == [] then []
    else
      var n := |es| - 1;
      if es[n].File? && es[n].t == t && t < |r[n + 1].procs| && r[n + 1].procs[t].pc.Open? then
        r[n + 1].procs[t].pc.content
      else Given(r[..n + 1], es[..n], t)
  }

  predicate NotOpened(pc: PC) { pc.Called? || pc.Statted? || pc.Locked? }

  lemma {:induction false} NothingWritten(r: seq<State>, es: seq<Event>, t: nat)
    requires GoesBy(r, es)
    requires t < |r[|es|].procs| ==> NotOpened(r[|es|].procs[t].pc)
    ensures Written(es, t) == []
  {
    if es != [] {
      var n := |es| - 1;
      GoesByFront(r, es);
      assert Can(r[n], es[n]) && r[n + 1] == After(r[n], es[n]);
      NothingWritten(r[..n + 1], es[..n], t);
    }
  }

  /** The content of a handle is what its caller was given, followed by what it wrote, in order. */
  lemma {:induction false} HandleHolds(r: seq<State>, es: seq<Event>, t: nat)
    requires GoesBy(r, es) && At(r[|es|], t, Create) && r[|es|].procs[t].pc.Open?
    ensures r[|es|].procs[t].pc.content == Given(r, es, t) + Written(es, t)
  {
    var n := |es| - 1;
    assert es != [];
    GoesByFront(r, es);
    assert Can(r[n], es[n]) && r[n + 1] == After(r[n], es[n]);
    if es[n].File? && es[n].t == t {
      NothingWritten(r[..n + 1], es[..n], t);
    } else {
      HandleHolds(r[..n + 1], es[..n], t);
    }
  }

  // ----- The methods, each run from beginning to end

  /** The next event of call 0, when it runs alone; the outcomes of its calls on the file system are given. */
  function NextEvent(s: State, statFails: bool, fileFails: bool, left: Content): Event
    requires |s.procs| == 1
  {
    match s.procs[0].pc
    case Called => if s.procs[0].op == Get then Lock(0) else Look(0, !statFails)
    case Statted(_) => Lock(0)
    case Locked => File(0, !fileFails, left)
    case _ => Unlock(0)
  }

  function StepsLeft(pc: PC): nat {
    match pc case Called => 4 case Statted(_) => 3 case Locked => 2 case Unlocking(_) => 1 case _ => 0
  }

  /** The end of what call 0 does alone, from its call until it has its handle or returns. */
  function Alone(s: State, statFails: bool, fileFails: bool, left: Content): State
    requires |s.procs| == 1
    decreases StepsLeft(s.procs[0].pc)
  {
    var e := NextEvent(s, statFails, fileFails, left);
    if StepsLeft(s.procs[0].pc) == 0 || !Can(s, e) then s else Alone(After(s, e), statFails, fileFails, left)
  }

  lemma {:induction false} OneStep(s: State, s': State, statFails: bool, fileFails: bool, left: Content)
    requires |s.procs| == |s'.procs| == 1 && StepsLeft(s.procs[0].pc) > 0
    requires Can(s, NextEvent(s, statFails, fileFails, left))
    requires var next := After(s, NextEvent(s, statFails, fileFails, left));
             next.(procs := []) == s'.(procs := []) && next.procs[0] == s'.procs[0]
    ensures Alone(s, statFails, fileFails, left) == Alone(s', statFails, fileFails, left)
  {
    assert After(s, NextEvent(s, statFails, fileFails, left)).procs == s'.procs;
  }

  /** The critical section of writeLock. */
  lemma {:induction false} WriteLockSteps(s: State, statFails: bool, fileFails: bool, left: Content)
    requires |s.procs| == 1 && s.mu.Unheld? && s.procs[0].pc.Called? && s.procs[0].op != Get
    ensures var p := s.procs[0];
      var stat := if statFails then StatFailed else if p.id in s.files then Present else Missing;
      var reply := LockWrite(s.locks, p.id, stat, p.op == Remove);
      Alone(s, statFails, fileFails, left) ==
      Alone(s.(locks := reply.locks,
               procs := [p.(pc := if reply.result == Ok then Locked else Returned(reply.result))]),
            statFails, fileFails, left)
  {
    var p := s.procs[0];
    var stat := if statFails then StatFailed else if p.id in s.files then Present else Missing;
    var reply := LockWrite(s.locks, p.id, stat, p.op == Remove);
    var s1 := s.(mu := HeldBy(0), procs := [p.(pc := Statted(stat))]);
    OneStep(s, s1, statFails, fileFails, left);
    OneStep(s1, s.(locks := reply.locks,
                   procs := [p.(pc := if reply.result == Ok then Locked else Returned(reply.result))]),
            statFails, fileFails, left);
  }

  /** The call on the file system, and the unlock if no handle comes of it. */
  lemma {:induction false} FileSteps(s: State, statFails: bool, fileFails: bool, left: Content)
    requires |s.procs| == 1 && s.mu.Unheld? && s.procs[0].pc.Locked?
    ensures var f := AfterFile(s, 0, !fileFails, left);
            Alone(s, statFails, fileFails, left) == if f.procs[0].pc.Open? then f else AfterUnlock(f, 0)
  {
    var f := AfterFile(s, 0, !fileFails, left);
    FileEnds(s, !fileFails, left);
    OneStep(s, f, statFails, fileFails, left);
    if f.procs[0].pc.Unlocking? { UnlockStep(f, statFails, fileFails, left); }
  }

  lemma FileEnds(s: State, ok: bool, left: Content)
    requires |s.procs| == 1 && s.procs[0].pc.Locked?
    ensures var f := AfterFile(s, 0, ok, left);
            f.mu == s.mu && |f.procs| == 1 && (f.procs[0].pc.Open? || f.procs[0].pc.Unlocking?)
  {
  }

  lemma {:induction false} UnlockStep(s: State, statFails: bool, fileFails: bool, left: Content)
    requires |s.procs| == 1 && s.mu.Unheld? && s.procs[0].pc.Unlocking?
    ensures Alone(s, statFails, fileFails, left) == AfterUnlock(s, 0)
  {
    OneStep(s, AfterUnlock(s, 0), statFails, fileFails, left);
  }

  class Cache {
    var writeLocked: set<ID>
    var readLocked: map<ID, int>
    var files: map<ID, Content>
    var tmp: map<ID, Content>

    function Maps(): Locks
      reads this`writeLocked, this`readLocked
    {
      Locks(writeLocked, readLocked)
    }

    /** The state in which one call is under way. */
    function Shown(op: Op, id: ID, pc: PC): State
      reads this
    {
      State(Unheld, Maps(), files, tmp, [Proc(op, id, pc)])
    }

    function StatOf(id: ID, fails: bool): Stat
      reads this`files
    {
      if fails then StatFailed else if id in files then Present else Missing
    }

    method ReadLock(id: ID) returns (r: Result)
      modifies this`readLocked
      ensures Reply(r, Maps()) == LockRead(old(Maps()), id)
      ensures r == if id in writeLocked then Error(WriteLocked) else Ok
      ensures Readers(Maps(), id) == Readers(old(Maps()), id) + if r == Ok then 1 else 0
    {
      if id in writeLocked { return Error(WriteLocked); }
      readLocked := readLocked[id := if id in readLocked then readLocked[id] + 1 else 1];
      return Ok;
    }

    method ReadUnlock(id: ID)
      modifies this`readLocked
      ensures Maps() == UnlockRead(old(Maps()), id)
    {
      readLocked := readLocked[id := if id in readLocked then readLocked[id] - 1 else -1];
      if readLocked[id] == 0 { readLocked := readLocked - {id}; }
    }

    method WriteLock(id: ID, remove: bool, statFails: bool) returns (r: Result)
      modifies this`writeLocked
      ensures Reply(r, Maps()) == LockWrite(old(Maps()), id, StatOf(id, statFails), remove)
      ensures r == Error(IO) <==> statFails
      ensures r == Error(Exists) <==> !statFails && id in files && !remove
      ensures r == Error(WriteLocked) <==> !statFails && (id in files ==> remove) && id in old(writeLocked)
      ensures r == Error(ReadLocked) <==>
              !statFails && (id in files ==> remove) && id !in old(writeLocked) && Readers(old(Maps()), id) > 0
      ensures writeLocked == if r == Ok then old(writeLocked) + {id} else old(writeLocked)
    {
      if statFails { return Error(IO); }
      if id in files && !remove { return Error(Exists); }
      if id in writeLocked { return Error(WriteLocked); }
      if id in readLocked && readLocked[id] > 0 { return Error(ReadLocked); }
      writeLocked := writeLocked + {id};
      return Ok;
    }

    method WriteUnlock(id: ID)
      modifies this`writeLocked
      ensures Maps() == UnlockWrite(old(Maps()), id)
    {
      writeLocked := writeLocked - {id};
    }

    /** left is what a failed removal leaves of the directory. */
    method Remove(id: ID, statFails: bool, removeFails: bool, left: Content) returns (r: Result)
      modifies this
      ensures Maps() == old(Maps()) && tmp == old(tmp)
      ensures var locked := old(LockWrite(Maps(), id, StatOf(id, statFails), true).result);
        && r == (if locked == Ok && removeFails then Error(IO) else locked)
        && files == if locked != Ok then old(files)
                    else if !removeFails then old(files) - {id}
                    else if id in old(files) then old(files)[id := left] else old(files)
      ensures Shown(Op.Remove, id, Returned(r)) ==
              old(Alone(Shown(Op.Remove, id, Called), statFails, removeFails, left))
    {
      WriteLockSteps(Shown(Op.Remove, id, Called), statFails, removeFails, left);
      r := WriteLock(id, true, statFails);
      if r != Ok { return; }
      FileSteps(Shown(Op.Remove, id, Locked), statFails, removeFails, left);
      if !removeFails {
        files := files - {id};
      } else {
        if id in files { files := files[id := left]; }
        r := Error(IO);
      }
      WriteUnlock(id);
      assert old(writeLocked) + {id} - {id} == old(writeLocked);
    }

    method Create(id: ID, statFails: bool, mkdirFails: bool) returns (r: Result)
      modifies this`writeLocked, this`tmp
      ensures var locked := old(LockWrite(Maps(), id, StatOf(id, statFails), false).result);
        r == if locked == Ok && mkdirFails then Error(IO) else locked
      ensures r == Ok ==> id !in files && writeLocked == old(writeLocked) + {id}
      ensures r == Ok ==> tmp == if id in old(tmp) then old(tmp) else old(tmp)[id := []]
      ensures r != Ok ==> writeLocked == old(writeLocked) && tmp == old(tmp)
      ensures Shown(Op.Create, id, if r == Ok then Open(tmp[id]) else Returned(r)) ==
              old(Alone(Shown(Op.Create, id, Called), statFails, mkdirFails, []))
    {
      WriteLockSteps(Shown(Op.Create, id, Called), statFails, mkdirFails, []);
      r := WriteLock(id, false, statFails);
      if r != Ok { return; }
      FileSteps(Shown(Op.Create, id, Locked), statFails, mkdirFails, []);
      if mkdirFails {
        WriteUnlock(id);
        assert old(writeLocked) + {id} - {id} == old(writeLocked);
        return Error(IO);
      }
      if id !in tmp { tmp := tmp[id := []]; }
    }

    method Commit(id: ID, renameFails: bool) returns (r: Result)
      requires id in tmp && id in writeLocked
      modifies this`files, this`tmp, this`writeLocked
      ensures Maps() == UnlockWrite(old(Maps()), id)
      ensures r == Ok ==> files == old(files)[id := old(tmp)[id]] && tmp == old(tmp) - {id}
      ensures r == (if renameFails then Error(IO) else Ok)
      ensures r != Ok ==> files == old(files) && tmp == old(tmp)
      ensures Shown(Op.Create, id, Returned(r)) ==
              old(Alone(After(Shown(Op.Create, id, Open(tmp[id])), Event.Commit(0, !renameFails)), false, false, []))
    {
      if renameFails {
        r := Error(IO);
      } else {
        files, tmp := files[id := tmp[id]], tmp - {id};
        r := Ok;
      }
      WriteUnlock(id);
    }

    /** left is what a failed removal leaves of the temporary directory. */
    method Abort(id: ID, removeFails: bool, left: Content) returns (r: Result)
      requires id in tmp && id in writeLocked
      modifies this`tmp, this`writeLocked
      ensures Maps() == UnlockWrite(old(Maps()), id) && r == (if removeFails then Error(IO) else Ok)
      ensures tmp == if removeFails then old(tmp)[id := left] else old(tmp) - {id}
      ensures Shown(Op.Create, id, Returned(r)) ==
              old(Alone(After(Shown(Op.Create, id, Open(tmp[id])), Event.Abort(0, !removeFails, left)),
                        false, false, []))
    {
      if removeFails {
        tmp := tmp[id := left];
        r := Error(IO);
      } else {
        tmp := tmp - {id};
        r := Ok;
      }
      WriteUnlock(id);
    }

    method Get(id: ID, statFails: bool) returns (r: Result)
      requires Readers(Maps(), id) >= 0
      modifies this`readLocked
      ensures r == Ok ==> id in files && Maps() == LockRead(old(Maps()), id).locks
      ensures r != Ok ==> Readers(Maps(), id) == Readers(old(Maps()), id)
      ensures r == Error(NotFound) <==> id !in writeLocked && !statFails && id !in files
      ensures r == Error(IO) <==> id !in writeLocked && statFails
      ensures r == Error(WriteLocked) <==> id in writeLocked
      ensures Shown(Op.Get, id, if r == Ok then Open(files[id]) else Returned(r)) ==
              old(Alone(Shown(Op.Get, id, Called), false, statFails, []))
    {
      ghost var locked := AfterLock(Shown(Op.Get, id, Called), 0);
      OneStep(Shown(Op.Get, id, Called), locked, false, statFails, []);
      r := ReadLock(id);
      assert locked.procs == [Proc(Op.Get, id, if r == Ok then Locked else Returned(r))];
      if r != Ok { return; }
      FileSteps(Shown(Op.Get, id, Locked), false, statFails, []);
      if statFails {
        ReadUnlock(id);
        return Error(IO);
      }
      if id !in files {
        ReadUnlock(id);
        return Error(NotFound);
      }
    }
  }
}
