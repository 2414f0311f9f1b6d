/** Bank accounts in a database table with row locks: deposits, withdrawals and transfers as transactions.
  *
  * A transaction sees the committed rows under its own writes, keeps the row locks it takes until it ends, and changes
  * the committed rows only when it commits.
  */
module Ledger {

  type ID = string

  type Rows = map<ID, int>

  const MAX_BALANCE := 0x7FFF_FFFF_FFFF_FFFF

  datatype Op = Deposit(id: ID, amount: int) | Withdraw(id: ID, amount: int) | Transfer(from: ID, to: ID, amount: int)

  datatype Result = Committed | NegativeAmount | NoMoney | NoRows | Failed

  // ----- What each operation means when it runs alone

  datatype Reply = Reply(result: Result, rows: Rows)

  function Apply(op: Op, rows: Rows): Reply
  {
    if op.amount < 0 then Reply(NegativeAmount, rows) else
    match op
    case Deposit(id, amount) =>
      if id !in rows then Reply(NoRows, rows)
      else if rows[id] + amount > MAX_BALANCE then Reply(Failed, rows)
      else Reply(Committed, rows[id := rows[id] + amount])
    case Withdraw(id, amount) =>
      if id !in rows then Reply(NoRows, rows)
      else if rows[id] < amount then Reply(NoMoney, rows)
      else Reply(Committed, rows[id := rows[id] - amount])
    case Transfer(from, to, amount) =>
      if from !in rows || to !in rows then Reply(NoRows, rows)
      else if rows[from] < amount then Reply(NoMoney, rows)
      else if from == to then Reply(Committed, rows)
      else if rows[to] + amount > MAX_BALANCE then Reply(Failed, rows)
      else Reply(Committed, rows[from := rows[from] - amount][to := rows[to] + amount])
  }

  ghost function Sum(rows: Rows, ids: set<ID>): int
    requires ids <= rows.Keys
  {
    if ids == {} then 0 else var id :| id in ids; rows[id] + Sum(rows, ids - {id})
  }

  ghost function Total(rows: Rows): int { Sum(rows, rows.Keys) }

  lemma {:induction false} SumSplits(rows: Rows, ids: set<ID>, id: ID)
    requires ids <= rows.Keys && id in ids
    ensures Sum(rows, ids) == rows[id] + Sum(rows, ids - {id})
    decreases |ids|
  {
    var other :| other in ids && Sum(rows, ids) == rows[other] + Sum(rows, ids - {other});
    if other != id {
      SumSplits(rows, ids - {other}, id);
      SumSplits(rows, ids - {id}, other);
      assert ids - {other} - {id} == ids - {id} - {other};
    }
  }

  lemma {:induction false} SumAgrees(rows: Rows, rows': Rows, ids: set<ID>)
    requires ids <= rows.Keys && ids <= rows'.Keys && forall id :: id in ids ==> rows[id] == rows'[id]
    ensures Sum(rows, ids) == Sum(rows', ids)
    decreases |ids|
  {
    if ids != {} {
      var id :| id in ids;
      SumSplits(rows, ids, id);
      SumSplits(rows', ids, id);
      SumAgrees(rows, rows', ids - {id});
    }
  }

  lemma {:induction false} TotalUpdate(rows: Rows, id: ID, balance: int)
    ensures Total(rows[id := balance]) == Total(rows) + balance - if id in rows then rows[id] else 0
  {
    var rows' := rows[id := balance];
    SumSplits(rows', rows'.Keys, id);
    assert rows'.Keys - {id} == rows.Keys - {id};
    SumAgrees(rows, rows', rows.Keys - {id});
    if id in rows {
      SumSplits(rows, rows.Keys, id);
    } else {
      assert rows.Keys - {id} == rows.Keys;
    }
  }

  /** By how much an operation that commits changes the money in the bank. */
  function Delta(op: Op): int { match op case Deposit(_, a) => a case Withdraw(_, a) => -a case Transfer(_, _, _) => 0 }

  /** Transfers keep the total, also from an account to itself. */
  lemma {:induction false} ApplyTotal(op: Op, rows: Rows)
    ensures var r := Apply(op, rows);
      Total(r.rows) == Total(rows) + if r.result == Committed then Delta(op) else 0
  {
    if op.Transfer? && op.from in rows && op.to in rows {
      TotalUpdate(rows, op.from, rows[op.from] - op.amount);
      TotalUpdate(rows[op.from := rows[op.from] - op.amount], op.to, rows[op.to] + op.amount);
    } else if !op.Transfer? && op.id in rows {
      TotalUpdate(rows, op.id, rows[op.id] + op.amount);
      TotalUpdate(rows, op.id, rows[op.id] - op.amount);
    }
  }

  /** What an operation takes from an account, and what it gives to it. */
  function Debit(op: Op, id: ID): int {
    if (op.Withdraw? && op.id == id) || (op.Transfer? && op.from == id) then op.amount else 0
  }

  function Credit(op: Op, id: ID): int {
    if (op.Deposit? && op.id == id) || (op.Transfer? && op.to == id) then op.amount else 0
  }

  predicate Concerns(op: Op, id: ID) { if op.Transfer? then id == op.from || id == op.to else id == op.id }

  /** Which operations commit, and what an operation that does not commit answers. */
  lemma {:induction false} ApplyResult(op: Op, rows: Rows)
    requires Balances(rows)
    ensures var r := Apply(op, rows).result;
      if op.amount < 0 then r == NegativeAmount
      else if exists id :: Concerns(op, id) && id !in rows then r == NoRows
      else if exists id :: id in rows && Debit(op, id) > rows[id] then r == NoMoney
      else if exists id :: id in rows && rows[id] + Credit(op, id) - Debit(op, id) > MAX_BALANCE then r == Failed
      else r == Committed
  {
    var r := Apply(op, rows).result;
    if op.amount >= 0 {
      var a, b := if op.Transfer? then op.from else op.id, if op.Transfer? then op.to else op.id;
      assert Concerns(op, a) && Concerns(op, b);
      if a in rows && b in rows {
        assert Debit(op, a) > rows[a] <==> r == NoMoney;
        assert rows[b] + Credit(op, b) - Debit(op, b) > MAX_BALANCE ==> r == Failed || r == NoMoney;
      }
    }
  }

  /** Each account changes by what is given to it less what is taken from it. */
  lemma ApplyBalance(op: Op, rows: Rows, id: ID)
    ensures var r := Apply(op, rows);
      && r.rows.Keys == rows.Keys
      && (id in rows ==>
            r.rows[id] == rows[id] + if r.result == Committed then Credit(op, id) - Debit(op, id) else 0)
      && (r.result == Committed && id !in rows ==> Credit(op, id) == Debit(op, id) == 0)
  {
  }

  predicate InRange(balance: int) { 0 <= balance <= MAX_BALANCE }

  /** The column's constraint. */
  predicate Balances(rows: Rows) { forall id :: id in rows ==> InRange(rows[id]) }

  // ----- The order of identifiers

  predicate Less(a: ID, b: ID)
  {
    b != [] && (a == [] || a[0] < b[0] || (a[0] == b[0] && Less(a[1..], b[1..])))
  }

  lemma {:induction false} LessTransitive(a: ID, b: ID, c: ID)
    requires Less(a, b) && Less(b, c)
    ensures Less(a, c)
  {
    if a != [] && a[0] == b[0] == c[0] { LessTransitive(a[1..], b[1..], c[1..]); }
  }

  lemma {:induction false} LessIrreflexive(a: ID)
    ensures !Less(a, a)
  {
    if a != [] { LessIrreflexive(a[1..]); }
  }

  lemma {:induction false} LessTotal(a: ID, b: ID)
    requires a != b && !Less(a, b)
    ensures Less(b, a)
  {
    if a != [] && b != [] && a[0] == b[0] {
      assert a == a[..1] + a[1..] && b == b[..1] + b[1..];
      LessTotal(a[1..], b[1..]);
    }
  }

  /** The row a transaction locks first, and for a transfer the one it locks second. */
  function FirstId(op: Op): ID { if !op.Transfer? then op.id else if Less(op.from, op.to) then op.from else op.to }

  function SecondId(op: Op): ID { if !op.Transfer? then op.id else if Less(op.from, op.to) then op.to else op.from }

  // ----- Transactions step by step

  datatype PC = Begun | First(balance: int) | Locked(fromBalance: int) | Debited | Updated | Returned(result: Result)

  datatype Proc = Proc(op: Op, pc: PC, writes: Rows)

  /** Entry of the history: an account created, or an operation that committed. */
  datatype Entry = Created(id: ID) | Did(op: Op)

  datatype State = State(rows: Rows, locks: map<ID, nat>, procs: seq<Proc>, log: seq<Entry>)

  /** What the transaction's own statements see. */
  function View(s: State, t: nat, id: ID): int
    requires t < |s.procs| && (id in s.rows || id in s.procs[t].writes)
  {
    if id in s.procs[t].writes then s.procs[t].writes[id] else s.rows[id]
  }

  function To(s: State, t: nat, pc: PC): State
    requires t < |s.procs|
  {
    s.(procs := s.procs[t := s.procs[t].(pc := pc)])
  }

  function Lock(s: State, t: nat, id: ID): State { s.(locks := s.locks[id := t]) }

  /** The end of a transaction: its locks are released and its writes dropped. */
  function Finish(s: State, t: nat, result: Result): State
    requires t < |s.procs|
  {
    s.(procs := s.procs[t := Proc(s.procs[t].op, Returned(result), map[])],
       locks := map id | id in s.locks && s.locks[id] != t :: s.locks[id])
  }

  function Commit(s: State, t: nat): State
    requires t < |s.procs|
  {
    Finish(s, t, Committed).(rows := s.rows + s.procs[t].writes, log := s.log + [Did(s.procs[t].op)])
  }

  /** UPDATE of one row: no row, or a value the column refuses, ends the transaction. */
  function Update(s: State, t: nat, id: ID, change: int, pc: PC): State
    requires t < |s.procs|
  {
    if id !in s.rows then Finish(s, t, NoRows)
    else if !InRange(View(s, t, id) + change) then Finish(s, t, Failed)
    else
      var p := s.procs[t];
      s.(procs := s.procs[t := Proc(p.op, pc, p.writes[id := View(s, t, id) + change])])
  }

  /** The row the transaction's next statement locks. */
  datatype Want = Nothing | Row(id: ID)

  function Wanted(p: Proc): Want
  {
    if p.pc.Begun? && p.op.amount >= 0 then Row(FirstId(p.op))
    else if p.pc.First? then Row(SecondId(p.op))
    else Nothing
  }

  predicate Blocked(s: State, t: nat)
    requires t < |s.procs|
  {
    var w := Wanted(s.procs[t]);
    w.Row? && w.id in s.locks && s.locks[w.id] != t
  }

  /** The next statement of transaction t, or its next step in the client. */
  function Advance(s: State, t: nat): State
    requires t < |s.procs|
  {
    var op := s.procs[t].op;
    match s.procs[t].pc
    case Begun =>
      var id := FirstId(op);
      if op.amount < 0 then Finish(s, t, NegativeAmount)
      else if id !in s.rows then Finish(s, t, NoRows)
      else
        var s' := Lock(s, t, id);
        (match op
         case Deposit(_, amount) => Update(s', t, id, amount, Updated)
         case Withdraw(_, _) => To(s', t, Locked(s.rows[id]))
         case Transfer(_, _, _) => To(s', t, First(s.rows[id])))
    case First(balance) =>
      var id := SecondId(op);
      if id !in s.rows then Finish(s, t, NoRows)
      else To(Lock(s, t, id), t, Locked(if op.Transfer? && Less(op.from, op.to) then balance else s.rows[id]))
    case Locked(balance) =>
      if balance < op.amount then Finish(s, t, NoMoney)
      else if op.Transfer? then Update(s, t, op.from, -op.amount, Debited)
      else Update(s, t, op.id, -op.amount, Updated)
    case Debited => if op.Transfer? then Update(s, t, op.to, op.amount, Updated) else s
    case Updated => Commit(s, t)
    case Returned(_) => s
  }

  datatype Event = Begin(op: Op) | Step(t: nat) | Error(t: nat) | Create(id: ID)

  predicate Live(s: State, t: nat) { t < |s.procs| && !s.procs[t].pc.Returned? }

  predicate Can(s: State, e: Event) {
    match e
    case Begin(_) => true
    case Step(t) => Live(s, t) && !Blocked(s, t)
    case Error(t) => Live(s, t)
    case Create(id) => id !in s.rows
  }

  function After(s: State, e: Event): State
    requires Can(s, e)
  {
    match e
    case Begin(op) => s.(procs := s.procs + [Proc(op, Begun, map[])])
    case Step(t) => Advance(s, t)
    case Error(t) => Finish(s, t, Failed)
    case Create(id) => s.(rows := s.rows[id := 0], log := s.log + [Created(id)])
  }

  const EMPTY := State(map[], map[], [], [])

  ghost predicate SomeStep(s: State, s': State) { exists e :: Can(s, e) && s' == After(s, e) }

  /** The states of an interleaving. */
  ghost predicate Run(r: seq<State>) {
    r != [] && if |r| == 1 then r[0] == EMPTY else Run(r[..|r| - 1]) && SomeStep(r[|r| - 2], r[|r| - 1])
  }

  // ----- What every step keeps

  function Ids(op: Op): set<ID> { {FirstId(op), SecondId(op)} }

  function Held(p: Proc): set<ID> {
    match p.pc
    case Begun => {}
    case First(_) => {FirstId(p.op)}
    case Locked(_) => Ids(p.op)
    case Debited => Ids(p.op)
    case Updated => Ids(p.op)
    case Returned(_) => {}
  }

  /** What a transaction has written, in terms of the committed rows it has locked. */
  predicate Knows(p: Proc, rows: Rows)
    requires Held(p) <= rows.Keys
  {
    match p.pc
    case Begun => p.writes == map[]
    case First(b) => p.op.Transfer? && p.op.amount >= 0 && p.writes == map[] && b == rows[FirstId(p.op)]
    case Locked(b) =>
      && !p.op.Deposit? && p.op.amount >= 0 && p.writes == map[]
      && b == rows[if p.op.Transfer? then p.op.from else p.op.id]
    case Debited =>
      && p.op.Transfer? && p.op.amount >= 0 && rows[p.op.from] >= p.op.amount
      && p.writes == map[p.op.from := rows[p.op.from] - p.op.amount]
    case Updated => p.writes.Keys <= Ids(p.op) && Writes(p.op, p.writes, rows)
    case Returned(_) => p.writes == map[]
  }

  /** The writes make the operation's result out of the rows. */
  predicate Writes(op: Op, writes: Rows, rows: Rows)
    requires Ids(op) <= rows.Keys
  {
    op.amount >= 0 &&
    match op
    case Deposit(id, a) => rows[id] + a <= MAX_BALANCE && writes == map[id := rows[id] + a]
    case Withdraw(id, a) => rows[id] >= a && writes == map[id := rows[id] - a]
    case Transfer(from, to, a) =>
      && rows[from] >= a
      && if from == to then writes == map[from := rows[from]]
         else rows[to] + a <= MAX_BALANCE && writes == map[from := rows[from] - a, to := rows[to] + a]
  }

  ghost predicate OwnersHold(s: State) {
    forall id :: id in s.locks ==> s.locks[id] < |s.procs| && id in Held(s.procs[s.locks[id]])
  }

  ghost predicate HoldersOwn(s: State) {
    forall t, id :: 0 <= t < |s.procs| && id in Held(s.procs[t]) ==> id in s.locks && s.locks[id] == t
  }

  ghost predicate LocksMatch(s: State) { OwnersHold(s) && HoldersOwn(s) }

  ghost predicate AllKnow(s: State) {
    forall t :: 0 <= t < |s.procs| ==> Held(s.procs[t]) <= s.rows.Keys && Knows(s.procs[t], s.rows)
  }

  ghost predicate Inv(s: State) { Balances(s.rows) && LocksMatch(s) && AllKnow(s) }

  /** Only the t-th transaction moves; it ends up with the locks of its new position and knows what it must. */
  lemma Moves(s: State, s': State, t: nat)
    requires Inv(s) && t < |s.procs| && |s'.procs| == |s.procs| && s'.rows == s.rows
    requires forall u :: 0 <= u < |s.procs| && u != t ==> s'.procs[u] == s.procs[u]
    requires Held(s'.procs[t]) <= s.rows.Keys && Knows(s'.procs[t], s.rows)
    requires forall id :: id in s'.locks && s'.locks[id] != t ==> id in s.locks && s'.locks[id] == s.locks[id]
    requires forall id :: id in s.locks && s.locks[id] != t ==> id in s'.locks && s'.locks[id] == s.locks[id]
    requires forall id :: id in s'.locks && s'.locks[id] == t <==> id in Held(s'.procs[t])
    ensures Inv(s')
  {}

  lemma {:induction false} Finishes(s: State, t: nat, result: Result)
    requires Inv(s) && t < |s.procs|
    ensures Inv(Finish(s, t, result))
  {
    Moves(s, Finish(s, t, result), t);
  }

  /** What a step of the t-th transaction does to everybody's data: all of its operation, or nothing. */
  predicate Atomic(s: State, s': State, t: nat) {
    && t < |s.procs| && |s'.procs| == |s.procs|
    && (forall u :: 0 <= u < |s.procs| && u != t ==> s'.procs[u] == s.procs[u])
    && var op, pc := s.procs[t].op, s'.procs[t].pc;
    && s'.procs[t].op == op
    && if pc == Returned(Committed) then s'.log == s.log + [Did(op)] && Apply(op, s.rows) == Reply(Committed, s'.rows)
       else s'.log == s.log && s'.rows == s.rows && (pc.Returned? ==> Apply(op, s.rows) == Reply(pc.result, s.rows))
  }

  /** A transaction that ends without committing ends with its operation's own error. */
  lemma {:induction false} EndsWith(s: State, t: nat, result: Result)
    requires Inv(s) && t < |s.procs| && Apply(s.procs[t].op, s.rows) == Reply(result, s.rows) && result != Committed
    ensures Inv(Finish(s, t, result)) && Atomic(s, Finish(s, t, result), t)
  {
    Finishes(s, t, result);
  }

  /** A transaction that goes on. */
  lemma GoesOn(s: State, s': State, t: nat)
    requires t < |s.procs| && |s'.procs| == |s.procs| && s'.log == s.log && s'.rows == s.rows
    requires forall u :: 0 <= u < |s.procs| && u != t ==> s'.procs[u] == s.procs[u]
    requires s'.procs[t].op == s.procs[t].op && !s'.procs[t].pc.Returned?
    ensures Atomic(s, s', t)
  {}

  /** It has locked one more row, or none, and is in its new position. */
  lemma {:induction false} Locks(s: State, t: nat, id: ID, p: Proc)
    requires Inv(s) && t < |s.procs| && p.op == s.procs[t].op && !p.pc.Returned?
    requires id in s.locks ==> s.locks[id] == t
    requires Held(p) == Held(s.procs[t]) + {id} && Held(p) <= s.rows.Keys && Knows(p, s.rows)
    ensures var s' := Lock(s, t, id).(procs := s.procs[t := p]); Inv(s') && Atomic(s, s', t)
  {
    var s' := Lock(s, t, id).(procs := s.procs[t := p]);
    Moves(s, s', t);
    GoesOn(s, s', t);
  }

  lemma {:induction false} Wrote(s: State, t: nat, p: Proc)
    requires Inv(s) && t < |s.procs| && p.op == s.procs[t].op && !p.pc.Returned?
    requires Held(p) == Held(s.procs[t]) && Knows(p, s.rows)
    ensures var s' := s.(procs := s.procs[t := p]); Inv(s') && Atomic(s, s', t)
  {
    KeepsPlace(s, t, p);
    GoesOn(s, s.(procs := s.procs[t := p]), t);
  }

  lemma {:induction false} StillHold(s: State, s': State)
    requires OwnersHold(s) && s'.locks == s.locks && |s'.procs| == |s.procs|
    requires forall u :: 0 <= u < |s.procs| ==> Held(s'.procs[u]) == Held(s.procs[u])
    ensures OwnersHold(s')
  {
    forall id | id in s'.locks ensures s'.locks[id] < |s'.procs| && id in Held(s'.procs[s'.locks[id]]) {
      assert id in Held(s.procs[s.locks[id]]);
    }
  }

  lemma {:induction false} StillOwn(s: State, s': State)
    requires HoldersOwn(s) && s'.locks == s.locks && |s'.procs| == |s.procs|
    requires forall u :: 0 <= u < |s.procs| ==> Held(s'.procs[u]) == Held(s.procs[u])
    ensures HoldersOwn(s')
  {
    forall u, id | 0 <= u < |s'.procs| && id in Held(s'.procs[u]) ensures id in s'.locks && s'.locks[id] == u {
      assert Held(s'.procs[u]) == Held(s.procs[u]) && id in Held(s.procs[u]);
    }
  }

  lemma {:induction false} KeepsPlace(s: State, t: nat, p: Proc)
    requires Inv(s) && t < |s.procs| && Held(p) == Held(s.procs[t]) && Knows(p, s.rows)
    ensures Inv(s.(procs := s.procs[t := p]))
  {
    var s' := s.(procs := s.procs[t := p]);
    StillHold(s, s');
    StillOwn(s, s');
  }

  lemma {:induction false} FinishUnlocks(s: State, t: nat, id: ID, result: Result)
    requires t < |s.procs| && (id in s.locks ==> s.locks[id] == t)
    ensures Finish(Lock(s, t, id), t, result) == Finish(s, t, result)
  {
    assert Finish(Lock(s, t, id), t, result).locks == Finish(s, t, result).locks;
  }

  lemma {:induction false} StepBegun(s: State, t: nat)
    requires Inv(s) && Live(s, t) && !Blocked(s, t) && s.procs[t].pc.Begun?
    ensures Inv(Advance(s, t)) && Atomic(s, Advance(s, t), t)
  {
    var s' := Advance(s, t);
    var op := s.procs[t].op;
    var id := FirstId(op);
    if op.amount < 0 {
      EndsWith(s, t, NegativeAmount);
    } else if id !in s.rows {
      EndsWith(s, t, NoRows);
    } else if op.Deposit? && s.rows[id] + op.amount > MAX_BALANCE {
      EndsWith(s, t, Failed);
      FinishUnlocks(s, t, id, Failed);
    } else {
      assert s' == Lock(s, t, id).(procs := s.procs[t := s'.procs[t]]);
      Locks(s, t, id, s'.procs[t]);
    }
  }

  lemma {:induction false} StepFirst(s: State, t: nat)
    requires Inv(s) && Live(s, t) && !Blocked(s, t) && s.procs[t].pc.First?
    ensures Inv(Advance(s, t)) && Atomic(s, Advance(s, t), t)
  {
    if SecondId(s.procs[t].op) !in s.rows {
      EndsWith(s, t, NoRows);
    } else {
      var s' := Advance(s, t);
      assert s' == Lock(s, t, SecondId(s.procs[t].op)).(procs := s.procs[t := s'.procs[t]]);
      Locks(s, t, SecondId(s.procs[t].op), s'.procs[t]);
    }
  }

  lemma {:induction false} StepLocked(s: State, t: nat)
    requires Inv(s) && Live(s, t) && s.procs[t].pc.Locked?
    ensures Inv(Advance(s, t)) && Atomic(s, Advance(s, t), t)
  {
    var p, s' := s.procs[t], Advance(s, t);
    if p.pc.fromBalance < p.op.amount {
      EndsWith(s, t, NoMoney);
    } else {
      var id := if p.op.Transfer? then p.op.from else p.op.id;
      assert InRange(s.rows[id]) && s' == s.(procs := s.procs[t := s'.procs[t]]);
      Wrote(s, t, s'.procs[t]);
    }
  }

  /** Crediting after debiting: it makes the operation's result, or the new balance does not fit. */
  lemma {:induction false} CreditAfterDebit(p: Proc, rows: Rows)
    requires p.pc.Debited? && Held(p) <= rows.Keys && Knows(p, rows) && Balances(rows)
    ensures var balance := (if p.op.to in p.writes then p.writes[p.op.to] else rows[p.op.to]) + p.op.amount;
      if InRange(balance) then Knows(Proc(p.op, Updated, p.writes[p.op.to := balance]), rows)
      else Apply(p.op, rows) == Reply(Failed, rows)
  {
    assert InRange(rows[p.op.to]) && InRange(rows[p.op.from]);
  }

  lemma {:induction false} StepDebited(s: State, t: nat)
    requires Inv(s) && Live(s, t) && s.procs[t].pc.Debited?
    ensures Inv(Advance(s, t)) && Atomic(s, Advance(s, t), t)
  {
    var p, s' := s.procs[t], Advance(s, t);
    CreditAfterDebit(p, s.rows);
    if InRange(View(s, t, p.op.to) + p.op.amount) {
      assert s' == s.(procs := s.procs[t := s'.procs[t]]);
      Wrote(s, t, s'.procs[t]);
    } else {
      EndsWith(s, t, Failed);
    }
  }

  /** What a transaction knows depends on its locked rows only. */
  lemma KnowsFrame(p: Proc, rows: Rows, rows': Rows)
    requires Held(p) <= rows.Keys && Held(p) <= rows'.Keys && forall id :: id in Held(p) ==> rows[id] == rows'[id]
    requires Knows(p, rows)
    ensures Knows(p, rows')
  {}

  lemma {:induction false} WritesApply(op: Op, writes: Rows, rows: Rows)
    requires Ids(op) <= rows.Keys && Writes(op, writes, rows)
    ensures Apply(op, rows) == Reply(Committed, rows + writes)
  {
    match op
    case Deposit(id, a) =>
      assert rows + writes == rows[id := rows[id] + a];
    case Withdraw(id, a) =>
      assert rows + writes == rows[id := rows[id] - a];
    case Transfer(from, to, a) =>
      if from == to {
        assert rows + writes == rows;
      } else {
        assert rows + writes == rows[from := rows[from] - a][to := rows[to] + a];
      }
  }

  lemma ApplyBalances(op: Op, rows: Rows)
    requires Balances(rows)
    ensures Balances(Apply(op, rows).rows) && Apply(op, rows).rows.Keys == rows.Keys
  {}

  lemma {:induction false} HeldApart(s: State, t: nat, u: nat)
    requires LocksMatch(s) && t < |s.procs| && u < |s.procs| && t != u
    ensures Held(s.procs[t]) !! Held(s.procs[u])
  {
    forall id | id in Held(s.procs[t]) ensures id !in Held(s.procs[u]) { assert s.locks[id] == t; }
  }

  lemma {:induction false} OthersKnow(s: State, t: nat, u: nat, rows: Rows)
    requires Inv(s) && t < |s.procs| && u < |s.procs| && t != u && rows.Keys == s.rows.Keys
    requires forall id :: id in s.rows && id !in Held(s.procs[t]) ==> rows[id] == s.rows[id]
    ensures Held(s.procs[u]) <= rows.Keys && Knows(s.procs[u], rows)
  {
    HeldApart(s, t, u);
    KnowsFrame(s.procs[u], s.rows, rows);
  }

  lemma {:induction false} StepUpdated(s: State, t: nat)
    requires Inv(s) && Live(s, t) && s.procs[t].pc.Updated?
    ensures Inv(Advance(s, t)) && Atomic(s, Advance(s, t), t)
  {
    var s1, s' := Finish(s, t, Committed), Advance(s, t);
    var p := s.procs[t];
    Finishes(s, t, Committed);
    WritesApply(p.op, p.writes, s.rows);
    ApplyBalances(p.op, s.rows);
    forall u | 0 <= u < |s.procs| ensures Held(s'.procs[u]) <= s'.rows.Keys && Knows(s'.procs[u], s'.rows) {
      if u != t { OthersKnow(s, t, u, s'.rows); }
    }
  }

  /** Interleaving does not show: every step of a transaction is all or nothing, judged on the rows of that moment. */
  lemma {:induction false} StepIsAtomic(s: State, t: nat)
    requires Inv(s) && Live(s, t) && !Blocked(s, t)
    ensures Inv(Advance(s, t)) && Atomic(s, Advance(s, t), t)
  {
    match s.procs[t].pc
    case Begun => StepBegun(s, t);
    case First(_) => StepFirst(s, t);
    case Locked(_) => StepLocked(s, t);
    case Debited => StepDebited(s, t);
    case Updated => StepUpdated(s, t);
    case Returned(_) => assert false;
  }

  lemma {:induction false} StepKeepsInv(s: State, e: Event)
    requires Inv(s) && Can(s, e)
    ensures Inv(After(s, e))
  {
    var s' := After(s, e);
    match e
    case Step(t) => StepIsAtomic(s, t);
    case Error(t) => Finishes(s, t, Failed);
    case Begin(op) => {}
    case Create(id) =>
      forall u | 0 <= u < |s.procs| ensures Held(s'.procs[u]) <= s'.rows.Keys && Knows(s'.procs[u], s'.rows) {
        KnowsFrame(s.procs[u], s.rows, s'.rows);
      }
  }

  lemma {:induction false} RunKeepsInv(r: seq<State>)
    requires Run(r)
    ensures Inv(r[|r| - 1])
  {
    var n := |r| - 1;
    if n > 0 {
      assert SomeStep(r[n - 1], r[n]);
      RunKeepsInv(r[..n]);
      var e :| Can(r[n - 1], e) && r[n] == After(r[n - 1], e);
      StepKeepsInv(r[n - 1], e);
    }
  }

  // ----- Every run amounts to the committed operations, one after another

  function Play(e: Entry, rows: Rows): Rows { if e.Created? then rows[e.id := 0] else Apply(e.op, rows).rows }

  /** The account is new, or the operation commits. */
  predicate CanFollow(e: Entry, rows: Rows) {
    if e.Created? then e.id !in rows else Apply(e.op, rows).result == Committed
  }

  function Ops(e: Entry): multiset<Op> { if e.Created? then multiset{} else multiset{e.op} }

  /** The rows after the entries of a history, each alone. */
  function Replay(log: seq<Entry>): Rows
  {
    if log == [] then map[] else Play(log[|log| - 1], Replay(log[..|log| - 1]))
  }

  predicate Sound(log: seq<Entry>)
  {
    log == [] || (Sound(log[..|log| - 1]) && CanFollow(log[|log| - 1], Replay(log[..|log| - 1])))
  }

  /** What the operations of a history change in all. */
  function Net(log: seq<Entry>): int
  {
    if log == [] then 0
    else
      var e := log[|log| - 1];
      Net(log[..|log| - 1]) + if e.Created? then 0 else Delta(e.op)
  }

  function Logged(log: seq<Entry>): multiset<Op>
  {
    if log == [] then multiset{} else Logged(log[..|log| - 1]) + Ops(log[|log| - 1])
  }

  /** The operations whose caller was told that they committed. */
  function Acknowledged(procs: seq<Proc>): multiset<Op>
  {
    if procs == [] then multiset{}
    else
      var p := procs[|procs| - 1];
      Acknowledged(procs[..|procs| - 1]) + if p.pc == Returned(Committed) then multiset{p.op} else multiset{}
  }

  lemma {:induction false} AcknowledgedUpdate(procs: seq<Proc>, p: Proc, t: nat)
    requires t < |procs| && procs[t].pc != Returned(Committed)
    ensures Acknowledged(procs[t := p]) ==
            Acknowledged(procs) + if p.pc == Returned(Committed) then multiset{p.op} else multiset{}
  {
    var n := |procs| - 1;
    if t < n {
      AcknowledgedUpdate(procs[..n], p, t);
      assert procs[t := p][..n] == procs[..n][t := p];
    } else {
      assert procs[t := p][..n] == procs[..n];
    }
  }

  /** The history explains the rows and what callers were told. */
  ghost predicate Explained(s: State) {
    Sound(s.log) && s.rows == Replay(s.log) && Logged(s.log) == Acknowledged(s.procs)
  }

  lemma {:induction false} Appended(log: seq<Entry>, e: Entry)
    requires Sound(log) && CanFollow(e, Replay(log))
    ensures Sound(log + [e]) && Replay(log + [e]) == Play(e, Replay(log)) && Logged(log + [e]) == Logged(log) + Ops(e)
  {
    assert (log + [e])[..|log|] == log;
  }

  lemma {:induction false} StepExplained(s: State, s': State, t: nat)
    requires Explained(s) && Atomic(s, s', t) && s.procs[t].pc != Returned(Committed)
    ensures Explained(s')
  {
    var op := s.procs[t].op;
    assert s'.procs == s.procs[t := s'.procs[t]];
    AcknowledgedUpdate(s.procs, s'.procs[t], t);
    if s'.procs[t].pc == Returned(Committed) { Appended(s.log, Did(op)); }
  }

  lemma {:induction false} EventExplained(s: State, e: Event)
    requires Inv(s) && Explained(s) && Can(s, e)
    ensures Explained(After(s, e))
  {
    var s' := After(s, e);
    match e
    case Step(t) =>
      StepIsAtomic(s, t);
      StepExplained(s, s', t);
    case Error(t) => ErrorExplained(s, t);
    case Begin(op) => BeginExplained(s, op);
    case Create(id) => Appended(s.log, Created(id));
  }

  lemma {:induction false} ErrorExplained(s: State, t: nat)
    requires Explained(s) && Can(s, Error(t))
    ensures Explained(After(s, Error(t)))
  {
    AcknowledgedUpdate(s.procs, After(s, Error(t)).procs[t], t);
  }

  lemma {:induction false} BeginExplained(s: State, op: Op)
    requires Explained(s)
    ensures Explained(After(s, Begin(op)))
  {
    assert After(s, Begin(op)).procs[..|s.procs|] == s.procs;
  }

  /** Every interleaving leaves the rows that its committed operations leave when run alone in the order of their
    * commits, and callers are told of exactly these. */
  lemma {:induction false} Serializable(r: seq<State>)
    requires Run(r)
    ensures Explained(r[|r| - 1])
  {
    var n := |r| - 1;
    if n > 0 {
      assert SomeStep(r[n - 1], r[n]);
      Serializable(r[..n]);
      RunKeepsInv(r[..n]);
      var e :| Can(r[n - 1], e) && r[n] == After(r[n - 1], e);
      EventExplained(r[n - 1], e);
    }
  }

  lemma {:induction false} ReplayTotal(log: seq<Entry>)
    requires Sound(log)
    ensures Total(Replay(log)) == Net(log)
  {
    if log != [] {
      var past := log[..|log| - 1];
      ReplayTotal(past);
      match log[|log| - 1] {
        case Created(id) => TotalUpdate(Replay(past), id, 0);
        case Did(op) => ApplyTotal(op, Replay(past));
      }
    }
  }

  /** The bank's total is what committed deposits brought less what committed withdrawals took; no balance is ever
    * negative. */
  lemma {:induction false} MoneyIsConserved(r: seq<State>)
    requires Run(r)
    ensures Total(r[|r| - 1].rows) == Net(r[|r| - 1].log) && Balances(r[|r| - 1].rows)
  {
    Serializable(r);
    RunKeepsInv(r);
    ReplayTotal(r[|r| - 1].log);
  }

  /** What the operations of a history give to an account, less what they take from it. */
  function Flow(log: seq<Entry>, id: ID): int
  {
    if log == [] then 0
    else
      var e := log[|log| - 1];
      Flow(log[..|log| - 1], id) + if e.Created? then 0 else Credit(e.op, id) - Debit(e.op, id)
  }

  lemma {:induction false} ReplayFlow(log: seq<Entry>, id: ID)
    requires Sound(log)
    ensures Flow(log, id) == if id in Replay(log) then Replay(log)[id] else 0
  {
    if log != [] {
      var past := log[..|log| - 1];
      ReplayFlow(past, id);
      match log[|log| - 1] {
        case Created(_) =>
        case Did(op) => ApplyBalance(op, Replay(past), id);
      }
    }
  }

  /** Every account holds what committed deposits and transfers brought to it, less what committed withdrawals and
    * transfers took from it. */
  lemma {:induction false} BalanceIsFlow(r: seq<State>, id: ID)
    requires Run(r) && id in r[|r| - 1].rows
    ensures r[|r| - 1].rows[id] == Flow(r[|r| - 1].log, id)
  {
    Serializable(r);
    ReplayFlow(r[|r| - 1].log, id);
  }

  // ----- Nobody waits in a circle

  /** Transaction t waits for a row that u has locked. */
  predicate WaitsFor(s: State, t: nat, u: nat) {
    t < |s.procs| && Blocked(s, t) && s.locks[Wanted(s.procs[t]).id] == u
  }

  /** A waiting transaction's locks are below the row it waits for. */
  lemma {:induction false} WaitsAbove(s: State, t: nat, id: ID)
    requires Inv(s) && t < |s.procs| && Blocked(s, t) && id in Held(s.procs[t])
    ensures Less(id, Wanted(s.procs[t]).id)
  {
    var op := s.procs[t].op;
    assert op.Transfer? && id == FirstId(op);
    if op.from != op.to && !Less(op.from, op.to) { LessTotal(op.from, op.to); }
  }

  /** Along a chain of waiting transactions the wanted rows ascend. */
  lemma {:induction false} ChainAscends(s: State, ts: seq<nat>)
    requires Inv(s) && |ts| > 1 && forall i :: 0 <= i < |ts| - 1 ==> WaitsFor(s, ts[i], ts[i + 1])
    requires ts[|ts| - 1] < |s.procs| && Blocked(s, ts[|ts| - 1])
    ensures WaitsFor(s, ts[0], ts[1])
    ensures Less(Wanted(s.procs[ts[0]]).id, Wanted(s.procs[ts[|ts| - 1]]).id)
  {
    var n := |ts| - 1;
    assert WaitsFor(s, ts[n - 1], ts[n]);
    assert n == 1 || WaitsFor(s, ts[0], ts[1]);
    WaitsAbove(s, ts[n], Wanted(s.procs[ts[n - 1]]).id);
    if n > 1 {
      ChainAscends(s, ts[..n]);
      LessTransitive(Wanted(s.procs[ts[0]]).id, Wanted(s.procs[ts[n - 1]]).id, Wanted(s.procs[ts[n]]).id);
    }
  }

  lemma {:induction false} NoDeadlockCycle(r: seq<State>, ts: seq<nat>)
    requires Run(r)
    requires |ts| > 1 && forall i :: 0 <= i < |ts| - 1 ==> WaitsFor(r[|r| - 1], ts[i], ts[i + 1])
    ensures ts[0] != ts[|ts| - 1]
  {
    var s := r[|r| - 1];
    RunKeepsInv(r);
    if ts[0] == ts[|ts| - 1] {
      assert WaitsFor(s, ts[0], ts[1]);
      ChainAscends(s, ts);
      LessIrreflexive(Wanted(s.procs[ts[0]]).id);
    }
  }

  /** Following the waiting transactions leads to one that can go on; above are the locked rows still ahead. */
  lemma {:induction false} SomebodyMoves(s: State, t: nat, above: set<ID>) returns (u: nat)
    requires Inv(s) && Live(s, t)
    requires Blocked(s, t) ==> forall id :: id in s.locks && !Less(id, Wanted(s.procs[t]).id) ==> id in above
    ensures Live(s, u) && !Blocked(s, u)
    decreases |above|
  {
    u := t;
    if Blocked(s, t) {
      var id := Wanted(s.procs[t]).id;
      var v := s.locks[id];
      LessIrreflexive(id);
      if Blocked(s, v) {
        var next := Wanted(s.procs[v]).id;
        WaitsAbove(s, v, id);
        forall x | x in s.locks && !Less(x, next) ensures x in above - {id} {
          if Less(x, id) { LessTransitive(x, id, next); }
        }
      }
      u := SomebodyMoves(s, v, above - {id});
    }
  }

  lemma {:induction false} NobodyIsStuck(r: seq<State>, t: nat)
    requires Run(r) && Live(r[|r| - 1], t)
    ensures exists u :: Can(r[|r| - 1], Step(u))
  {
    RunKeepsInv(r);
    var u := SomebodyMoves(r[|r| - 1], t, r[|r| - 1].locks.Keys);
    assert Can(r[|r| - 1], Step(u));
  }

  function Rank(pc: PC): nat {
    match pc
    case Begun => 5
    case First(_) => 4
    case Locked(_) => 3
    case Debited => 2
    case Updated => 1
    case Returned(_) => 0
  }

  function Remaining(procs: seq<Proc>): nat {
    if procs == [] then 0 else Remaining(procs[..|procs| - 1]) + Rank(procs[|procs| - 1].pc)
  }

  lemma {:induction false} RemainingUpdate(procs: seq<Proc>, p: Proc, t: nat)
    requires t < |procs| && Rank(p.pc) < Rank(procs[t].pc)
    ensures Remaining(procs[t := p]) < Remaining(procs)
  {
    var n := |procs| - 1;
    if t < n {
      RemainingUpdate(procs[..n], p, t);
      assert procs[t := p][..n] == procs[..n][t := p];
    } else {
      assert procs[t := p][..n] == procs[..n];
    }
  }

  lemma {:induction false} OnlyOneMoves(s: State, s': State, t: nat)
    requires Atomic(s, s', t)
    ensures s'.procs == s.procs[t := s'.procs[t]]
  {
    assert forall u :: 0 <= u < |s.procs| ==> s'.procs[u] == s.procs[t := s'.procs[t]][u];
  }

  lemma {:induction false} RankFalls(s: State, t: nat)
    requires Live(s, t) && (s.procs[t].pc.Debited? ==> s.procs[t].op.Transfer?)
    ensures |Advance(s, t).procs| == |s.procs| && Rank(Advance(s, t).procs[t].pc) < Rank(s.procs[t].pc)
  {
  }

  /** Every step of a transaction brings the end of all of them nearer, so the transactions begun always end. */
  lemma {:induction false} StepsRunOut(s: State, t: nat)
    requires Inv(s) && Can(s, Step(t))
    ensures Remaining(After(s, Step(t)).procs) < Remaining(s.procs)
  {
    StepIsAtomic(s, t);
    OnlyOneMoves(s, Advance(s, t), t);
    RankFalls(s, t);
    RemainingUpdate(s.procs, Advance(s, t).procs[t], t);
  }

  // ----- The operations, statement by statement, when they run alone

  class Database {
    var rows: Rows

    /** UPDATE inside a transaction that has written pending so far. */
    method UpdateRow(pending: Rows, id: ID, change: int) returns (result: Result, pending': Rows)
      requires pending.Keys <= rows.Keys
      ensures result ==
              if id !in rows then NoRows
              else if !InRange((rows + pending)[id] + change) then Failed else Committed
      ensures result == Committed ==> pending' == pending[id := (rows + pending)[id] + change]
    {
      pending' := pending;
      if id !in rows { return NoRows, pending; }
      var balance := (rows + pending)[id] + change;
      if !InRange(balance) { return Failed, pending; }
      return Committed, pending[id := balance];
    }

    method Deposit(id: ID, amount: int) returns (result: Result)
      requires Balances(rows)
      modifies this
      ensures Reply(result, rows) == Apply(Op.Deposit(id, amount), old(rows))
    {
      if amount < 0 { return NegativeAmount; }
      var pending;
      result, pending := UpdateRow(map[], id, amount);
      if result == Committed { rows := rows + pending; }
    }

    method Withdraw(id: ID, amount: int) returns (result: Result)
      requires Balances(rows)
      modifies this
      ensures Reply(result, rows) == Apply(Op.Withdraw(id, amount), old(rows))
    {
      if amount < 0 { return NegativeAmount; }
      if id !in rows { return NoRows; }
      var balance := rows[id];
      if balance < amount { return NoMoney; }
      var pending;
      result, pending := UpdateRow(map[], id, -amount);
      if result == Committed { rows := rows + pending; }
    }

    method Transfer(from: ID, to: ID, amount: int) returns (result: Result)
      requires Balances(rows)
      modifies this
      ensures Reply(result, rows) == Apply(Op.Transfer(from, to, amount), old(rows))
    {
      if amount < 0 { return NegativeAmount; }
      var firstId, secondId, isFromFirst := to, from, false;
      if Less(from, to) { firstId, secondId, isFromFirst := from, to, true; }
      if firstId !in rows { return NoRows; }
      var firstBalance := rows[firstId];
      if secondId !in rows { return NoRows; }
      var secondBalance := rows[secondId];
      var fromBalance := if isFromFirst then firstBalance else secondBalance;
      if fromBalance < amount { return NoMoney; }
      var pending;
      result, pending := UpdateRow(map[], from, -amount);
      if result != Committed { return; }
      result, pending := UpdateRow(pending, to, amount);
      if result != Committed { return; }
      rows := rows + pending;
    }
  }
}
