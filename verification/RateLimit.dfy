/** The managing goroutine of the rate limiter.
  *
  * One pass of its loop is a `Round`: it reads the clock, wakes waiting requests, and then blocks until an event.
  * Requests are named by the order in which they were received.  What the environment decides (clock readings,
  * arrivals, cancelled contexts) is part of the round.
  */
module RateLimit {

  datatype Verdict = Granted(stamp: int) | Cancelled | Stopped

  /** What is sent on the response channel of a request, and when. */
  datatype Answer = Answer(id: nat, verdict: Verdict, at: int)

  datatype Event =
    | Request(cancelled: bool, at: int)
    | Tick(at: int)
    | Stop(at: int, gone: set<nat>, late: nat)   // `late` more requests arrive before the drain gives up

  /** `now` is the clock reading; `sent` says when the waiting requests that are woken get their answers, if later than
    * that; `gone` are those found cancelled then. */
  datatype Round = Round(now: int, sent: map<nat, int>, gone: set<nat>, event: Event)

  datatype Manager = Manager(timestamps: seq<int>, waiting: seq<nat>, received: nat, answers: seq<Answer>)

  const START := Manager([], [], 0, [])

  datatype Config = Config(maxCount: int, interval: int)

  // ----- Specification of the loop's parts

  function Cleanup(timestamps: seq<int>, cutoff: int): (r: seq<int>)
  {
    if timestamps != [] && timestamps[0] < cutoff then Cleanup(timestamps[1..], cutoff) else timestamps
  }

  function SendTime(r: Round, id: nat): int { if id in r.sent then r.sent[id] else r.now }

  /** Answers the requests at the head of the queue while there is room. */
  function Wake(c: Config, m: Manager, r: Round): Manager
    decreases |m.waiting|
  {
    if m.waiting == [] || |m.timestamps| >= c.maxCount then m
    else
      var id := m.waiting[0];
      var rest := m.(waiting := m.waiting[1..]);
      Wake(c,
           if id in r.gone then rest.(answers := m.answers + [Answer(id, Cancelled, SendTime(r, id))])
           else rest.(timestamps := m.timestamps + [r.now],
                      answers := m.answers + [Answer(id, Granted(r.now), SendTime(r, id))]),
           r)
  }

  function Receive(c: Config, m: Manager, now: int, cancelled: bool, at: int): Manager
  {
    var id := m.received;
    var m1 := m.(received := id + 1);
    if cancelled then m1.(answers := m.answers + [Answer(id, Cancelled, at)])
    else
      var ts := Cleanup(m.timestamps, now - c.interval);
      if |ts| < c.maxCount then m1.(timestamps := ts + [now], answers := m.answers + [Answer(id, Granted(now), at)])
      else m1.(timestamps := ts, waiting := m.waiting + [id])
  }

  function StopVerdict(id: nat, gone: set<nat>): Verdict { if id in gone then Cancelled else Stopped }

  /** Every waiting request and every late one is told that the limiter stopped. */
  function Drain(m: Manager, at: int, gone: set<nat>, late: nat): Manager
    decreases |m.waiting|, late
  {
    if m.waiting != [] then
      var id := m.waiting[0];
      Drain(m.(waiting := m.waiting[1..], answers := m.answers + [Answer(id, StopVerdict(id, gone), at)]),
            at, gone, late)
    else if late > 0 then
      var id := m.received;
      Drain(m.(received := id + 1, answers := m.answers + [Answer(id, StopVerdict(id, gone), at)]), at, gone, late - 1)
    else m
  }

  function Before(c: Config, m: Manager, r: Round): Manager
  {
    Wake(c, Cleaned(c, m, r.now), r)
  }

  function HandleEvent(c: Config, w: Manager, r: Round): Manager
  {
    match r.event
    case Request(cancelled, at) => Receive(c, w, r.now, cancelled, at)
    case Tick(_) => w
    case Stop(at, gone, late) => Drain(w, at, gone, late)
  }

  function Step(c: Config, m: Manager, r: Round): Manager
  {
    HandleEvent(c, Before(c, m, r), r)
  }

  /** The manager after some rounds; a stop ends the loop. */
  function Run(c: Config, rounds: seq<Round>): Manager
  {
    if rounds == [] then START
    else
      var n := |rounds| - 1;
      var m := Run(c, rounds[..n]);
      if HasStopped(rounds[..n]) then m else Step(c, m, rounds[n])
  }

  predicate HasStopped(rounds: seq<Round>) {
    rounds != [] && (rounds[|rounds| - 1].event.Stop? || HasStopped(rounds[..|rounds| - 1]))
  }

  // ----- The methods of the limiter

  class Limiter {
    const maxCount: int
    const interval: int

    constructor (maxCount: int, interval: int)
      ensures this.maxCount == maxCount && this.interval == interval
    {
      this.maxCount, this.interval := maxCount, interval;
    }

    function Settings(): Config { Config(maxCount, interval) }

    method CleanupOldTimestamps(timestamps: seq<int>, now: int) returns (r: seq<int>)
      ensures r == Cleanup(timestamps, now - interval)
    {
      r := timestamps;
      while |r| > 0 && r[0] < now - interval
        invariant Cleanup(r, now - interval) == Cleanup(timestamps, now - interval)
      {
        r := r[1..];
      }
    }

    method ProcessWaitingRequests(m: Manager, r: Round) returns (m': Manager)
      ensures m' == Wake(Settings(), m, r)
    {
      m' := m;
      while |m'.waiting| > 0 && |m'.timestamps| < maxCount
        invariant Wake(Settings(), m', r) == Wake(Settings(), m, r)
        decreases |m'.waiting|
      {
        var req := m'.waiting[0];
        m' := m'.(waiting := m'.waiting[1..]);
        if req in r.gone {
          m' := m'.(answers := m'.answers + [Answer(req, Cancelled, SendTime(r, req))]);
          continue;
        }
        m' := m'.(timestamps := m'.timestamps + [r.now]);
        m' := m'.(answers := m'.answers + [Answer(req, Granted(r.now), SendTime(r, req))]);
      }
    }

    method HandleNewRequest(m: Manager, now: int, cancelled: bool, at: int) returns (m': Manager)
      ensures m' == Receive(Settings(), m, now, cancelled, at)
    {
      var req := m.received;
      m' := m.(received := req + 1);
      if cancelled {
        m' := m'.(answers := m'.answers + [Answer(req, Cancelled, at)]);
        return;
      }
      var timestamps := CleanupOldTimestamps(m.timestamps, now);
      m' := m'.(timestamps := timestamps);
      if |timestamps| < maxCount {
        m' := m'.(timestamps := timestamps + [now]);
        m' := m'.(answers := m'.answers + [Answer(req, Granted(now), at)]);
      } else {
        m' := m'.(waiting := m'.waiting + [req]);
      }
    }

    method HandleStop(m: Manager, at: int, gone: set<nat>, late: nat) returns (m': Manager)
      ensures m' == Drain(m, at, gone, late)
    {
      m' := m;
      while |m'.waiting| > 0
        invariant Drain(m', at, gone, late) == Drain(m, at, gone, late)
        decreases |m'.waiting|
      {
        var req := m'.waiting[0];
        m' := m'.(waiting := m'.waiting[1..], answers := m'.answers + [Answer(req, StopVerdict(req, gone), at)]);
      }
      var left := late;
      while left > 0
        invariant m'.waiting == []
        invariant Drain(m', at, gone, left) == Drain(m, at, gone, late)
      {
        var req := m'.received;
        m' := m'.(received := req + 1, answers := m'.answers + [Answer(req, StopVerdict(req, gone), at)]);
        left := left - 1;
      }
    }

    method ProcessEvents(m: Manager, r: Round) returns (m': Manager, shouldStop: bool)
      ensures m' == HandleEvent(Settings(), m, r) && shouldStop == r.event.Stop?
    {
      m', shouldStop := m, false;
      match r.event
      case Request(cancelled, at) => m' := HandleNewRequest(m, r.now, cancelled, at);
      case Tick(_) =>
      case Stop(at, gone, late) =>
        m' := HandleStop(m, at, gone, late);
        shouldStop := true;
    }

    method RunLoop(rounds: seq<Round>) returns (m: Manager)
      ensures m == Run(Settings(), rounds)
    {
      m := START;
      for i := 0 to |rounds|
        invariant m == Run(Settings(), rounds[..i]) && !HasStopped(rounds[..i])
      {
        var timestamps := CleanupOldTimestamps(m.timestamps, rounds[i].now);
        m := ProcessWaitingRequests(m.(timestamps := timestamps), rounds[i]);
        var shouldStop;
        m, shouldStop := ProcessEvents(m, rounds[i]);
        RunNext(Settings(), rounds, i);
        if shouldStop {
          RunEnds(Settings(), rounds, i);
          return;
        }
      }
      assert rounds[..|rounds|] == rounds;
    }
  }

  lemma {:induction false} RunNext(c: Config, rounds: seq<Round>, i: nat)
    requires i < |rounds| && !HasStopped(rounds[..i])
    ensures Run(c, rounds[..i + 1]) == Step(c, Run(c, rounds[..i]), rounds[i])
    ensures HasStopped(rounds[..i + 1]) == rounds[i].event.Stop?
  {
    assert rounds[..i + 1][..i] == rounds[..i];
  }

  /** Rounds after a stop do not happen. */
  lemma {:induction false} RunEnds(c: Config, rounds: seq<Round>, i: nat)
    requires i < |rounds| && rounds[i].event.Stop?
    ensures Run(c, rounds) == Run(c, rounds[..i + 1]) && HasStopped(rounds)
    decreases |rounds|
  {
    var n := |rounds| - 1;
    if i < n {
      assert rounds[..n][..i + 1] == rounds[..i + 1];
      RunEnds(c, rounds[..n], i);
    } else {
      assert rounds[..i + 1] == rounds;
    }
  }

  // ----- Clocks

  function EventTime(e: Event): int { e.at }

  /** Answers are sent between the clock reading of their round and its event. */
  ghost predicate InTime(r: Round) {
    && r.now <= EventTime(r.event)
    && forall id: nat :: r.now <= SendTime(r, id) <= EventTime(r.event)
  }

  /** Clock readings never go back, and nothing is answered before the reading of its round. */
  ghost predicate Clocked(rounds: seq<Round>) {
    && (forall i :: 0 <= i < |rounds| ==> InTime(rounds[i]))
    && (forall i :: 0 < i < |rounds| ==> EventTime(rounds[i - 1].event) <= rounds[i].now)
  }

  // ----- What was granted

  /** The stamps of the granted requests, oldest first. */
  function Stamps(answers: seq<Answer>): seq<int>
  {
    if answers == [] then []
    else
      var n := |answers| - 1;
      Stamps(answers[..n]) + match answers[n].verdict case Granted(s) => [s] case _ => []
  }

  /** The requests that were granted, in the order of their grants. */
  function GrantedIds(answers: seq<Answer>): seq<nat>
  {
    if answers == [] then []
    else
      var n := |answers| - 1;
      GrantedIds(answers[..n]) + if answers[n].verdict.Granted? then [answers[n].id] else []
  }

  /** How many answers a request got. */
  function AnswersTo(answers: seq<Answer>, id: nat): nat
  {
    if answers == [] then 0
    else
      var n := |answers| - 1;
      AnswersTo(answers[..n], id) + if answers[n].id == id then 1 else 0
  }

  lemma {:induction false} MoreAnswers(answers: seq<Answer>, a: Answer)
    ensures Stamps(answers + [a]) == if a.verdict.Granted? then Stamps(answers) + [a.verdict.stamp] else Stamps(answers)
    ensures GrantedIds(answers + [a]) ==
            if a.verdict.Granted? then GrantedIds(answers) + [a.id] else GrantedIds(answers)
    ensures forall id :: AnswersTo(answers + [a], id) == AnswersTo(answers, id) + if a.id == id then 1 else 0
  {
    assert (answers + [a])[..|answers|] == answers;
  }

  ghost predicate Sorted(xs: seq<int>) { forall i, j :: 0 <= i < j < |xs| ==> xs[i] <= xs[j] }

  predicate Increasing(xs: seq<nat>) { forall i, j :: 0 <= i < j < |xs| ==> xs[i] < xs[j] }

  function Cap(c: Config): nat { if c.maxCount < 0 then 0 else c.maxCount }

  /** Stamps that are `cap` grants apart are more than an interval apart. */
  ghost predicate Spread(stamps: seq<int>, cap: nat, interval: int) {
    forall i :: 0 <= i < |stamps| - cap ==> stamps[i + cap] - stamps[i] > interval
  }

  // ----- The window invariant

  /** `timestamps` are the recent ones of all stamps `g`, and those dropped have left the window that ends at `now`. */
  ghost predicate WindowInv(c: Config, g: seq<int>, timestamps: seq<int>, now: int) {
    && Sorted(g) && (forall i :: 0 <= i < |g| ==> g[i] <= now)
    && |timestamps| <= |g| && |timestamps| <= Cap(c)
    && timestamps == g[|g| - |timestamps|..]
    && (forall i :: 0 <= i < |g| - |timestamps| ==> g[i] < now - c.interval)
    && Spread(g, Cap(c), c.interval)
  }

  lemma {:induction false} CleanupKeepsWindow(c: Config, g: seq<int>, timestamps: seq<int>, now: int)
    requires WindowInv(c, g, timestamps, now)
    ensures WindowInv(c, g, Cleanup(timestamps, now - c.interval), now)
    decreases |timestamps|
  {
    if timestamps != [] && timestamps[0] < now - c.interval {
      assert timestamps[1..] == g[|g| - |timestamps[1..]|..];
      CleanupKeepsWindow(c, g, timestamps[1..], now);
    }
  }

  lemma {:induction false} GrantKeepsWindow(c: Config, g: seq<int>, timestamps: seq<int>, now: int)
    requires WindowInv(c, g, timestamps, now) && |timestamps| < c.maxCount
    ensures WindowInv(c, g + [now], timestamps + [now], now)
  {
    var g' := g + [now];
    forall i | 0 <= i < |g'| - Cap(c) ensures g'[i + Cap(c)] - g'[i] > c.interval {
      if i + Cap(c) < |g| { assert g[i + Cap(c)] - g[i] > c.interval; }
    }
  }

  // ----- The queue invariant

  /** Every received request is waiting or has been answered, once; grants and the queue keep the order of arrival. */
  ghost predicate QueueInv(m: Manager) { Accounted(m) && InOrder(m) }

  ghost predicate Accounted(m: Manager) {
    forall id: nat :: AnswersTo(m.answers, id) == if id < m.received && id !in m.waiting then 1 else 0
  }

  ghost predicate InOrder(m: Manager) {
    var ids := GrantedIds(m.answers) + m.waiting;
    Increasing(ids) && AllBelow(ids, m.received)
  }

  ghost predicate Inv(c: Config, m: Manager, now: int) {
    WindowInv(c, Stamps(m.answers), m.timestamps, now) && QueueInv(m)
  }

  /** Nobody waits while there is room. */
  predicate Full(c: Config, m: Manager) { m.waiting == [] || |m.timestamps| >= c.maxCount }

  function PopHead(m: Manager, v: Verdict, at: int): Manager
    requires m.waiting != []
  {
    m.(waiting := m.waiting[1..], answers := m.answers + [Answer(m.waiting[0], v, at)])
  }

  function Enqueue(m: Manager): Manager { m.(received := m.received + 1, waiting := m.waiting + [m.received]) }

  function Refuse(m: Manager, v: Verdict, at: int): Manager {
    m.(received := m.received + 1, answers := m.answers + [Answer(m.received, v, at)])
  }

  lemma IncreasingAppend(xs: seq<nat>, x: nat)
    requires Increasing(xs) && AllBelow(xs, x)
    ensures Increasing(xs + [x])
  {
  }

  predicate AllBelow(xs: seq<nat>, bound: nat) { forall i :: 0 <= i < |xs| ==> xs[i] < bound }

  lemma {:induction false} IncreasingRemove(xs: seq<nat>, ys: seq<nat>, bound: nat)
    requires ys != [] && Increasing(xs + ys) && AllBelow(xs + ys, bound)
    ensures Increasing(xs + ys[1..]) && AllBelow(xs + ys[1..], bound)
  {
    var all, left := xs + ys, xs + ys[1..];
    forall i | 0 <= i < |left| ensures left[i] < bound {
      assert left[i] == all[if i < |xs| then i else i + 1];
    }
    forall i, j | 0 <= i < j < |left| ensures left[i] < left[j] {
      var i', j' := if i < |xs| then i else i + 1, if j < |xs| then j else j + 1;
      assert left[i] == all[i'] && left[j] == all[j'];
    }
  }

  lemma {:induction false} HeadIsFirst(m: Manager)
    requires InOrder(m) && m.waiting != []
    ensures m.waiting[0] < m.received && m.waiting[0] !in m.waiting[1..]
    ensures forall id :: id != m.waiting[0] ==> (id in m.waiting <==> id in m.waiting[1..])
  {
    var g, w := GrantedIds(m.answers), m.waiting;
    assert (g + w)[|g|] == w[0];
    forall i | 1 <= i < |w| ensures w[0] < w[i] { assert (g + w)[|g| + i] == w[i]; }
    assert w == [w[0]] + w[1..];
  }

  lemma {:induction false} PopHeadAccounted(m: Manager, v: Verdict, at: int)
    requires QueueInv(m) && m.waiting != []
    ensures Accounted(PopHead(m, v, at))
  {
    HeadIsFirst(m);
    MoreAnswers(m.answers, Answer(m.waiting[0], v, at));
    var m' := PopHead(m, v, at);
    forall id: nat ensures AnswersTo(m'.answers, id) == if id < m'.received && id !in m'.waiting then 1 else 0 {
      assert AnswersTo(m.answers, id) == if id < m.received && id !in m.waiting then 1 else 0;
    }
  }

  lemma {:induction false} Regroup(xs: seq<nat>, ys: seq<nat>)
    requires ys != []
    ensures (xs + [ys[0]]) + ys[1..] == xs + ys
  {
    assert ys == [ys[0]] + ys[1..];
  }

  lemma {:induction false} PopHeadInOrder(m: Manager, v: Verdict, at: int)
    requires InOrder(m) && m.waiting != []
    ensures InOrder(PopHead(m, v, at))
  {
    var a := Answer(m.waiting[0], v, at);
    var ids := GrantedIds(m.answers);
    MoreAnswers(m.answers, a);
    if v.Granted? {
      Regroup(ids, m.waiting);
    } else {
      IncreasingRemove(ids, m.waiting, m.received);
    }
  }

  lemma {:induction false} PopHeadKeepsQueue(m: Manager, v: Verdict, at: int)
    requires QueueInv(m) && m.waiting != []
    ensures QueueInv(PopHead(m, v, at))
  {
    PopHeadAccounted(m, v, at);
    PopHeadInOrder(m, v, at);
  }

  lemma {:induction false} NextIsNew(m: Manager)
    requires InOrder(m)
    ensures m.received !in m.waiting
  {
    var g, w := GrantedIds(m.answers), m.waiting;
    forall i | 0 <= i < |w| ensures w[i] < m.received { assert (g + w)[|g| + i] == w[i]; }
  }

  lemma {:induction false} EnqueueKeepsQueue(m: Manager)
    requires QueueInv(m)
    ensures QueueInv(Enqueue(m))
  {
    var xs := GrantedIds(m.answers) + m.waiting;
    NextIsNew(m);
    IncreasingAppend(xs, m.received);
    assert GrantedIds(m.answers) + (m.waiting + [m.received]) == xs + [m.received];
  }

  lemma {:induction false} RefuseKeepsQueue(m: Manager, v: Verdict, at: int)
    requires QueueInv(m) && !v.Granted?
    ensures QueueInv(Refuse(m, v, at))
  {
    NextIsNew(m);
    MoreAnswers(m.answers, Answer(m.received, v, at));
  }

  // ----- The loop keeps the invariants

  function GrantHead(m: Manager, now: int, at: int): Manager
    requires m.waiting != []
  {
    PopHead(m, Granted(now), at).(timestamps := m.timestamps + [now])
  }

  lemma {:induction false} GrantHeadKeeps(c: Config, m: Manager, now: int, at: int)
    requires Inv(c, m, now) && m.waiting != [] && |m.timestamps| < c.maxCount
    ensures Inv(c, GrantHead(m, now, at), now)
  {
    PopHeadKeepsQueue(m, Granted(now), at);
    assert QueueInv(GrantHead(m, now, at));
    MoreAnswers(m.answers, Answer(m.waiting[0], Granted(now), at));
    GrantKeepsWindow(c, Stamps(m.answers), m.timestamps, now);
  }

  lemma {:induction false} WakeKeeps(c: Config, m: Manager, r: Round)
    requires Inv(c, m, r.now)
    ensures Inv(c, Wake(c, m, r), r.now) && Full(c, Wake(c, m, r))
    decreases |m.waiting|
  {
    if !Full(c, m) {
      var id := m.waiting[0];
      var at := SendTime(r, id);
      if id in r.gone {
        TurnAwayKeeps(c, m, r.now, Cancelled, at);
        WakeKeeps(c, PopHead(m, Cancelled, at), r);
      } else {
        GrantHeadKeeps(c, m, r.now, at);
        WakeKeeps(c, GrantHead(m, r.now, at), r);
      }
    }
  }

  lemma {:induction false} DirectGrantKeeps(c: Config, m: Manager, now: int, at: int)
    requires Inv(c, m, now) && m.waiting == [] && |m.timestamps| < c.maxCount
    ensures Inv(c, m.(received := m.received + 1, timestamps := m.timestamps + [now],
                      answers := m.answers + [Answer(m.received, Granted(now), at)]), now)
  {
    EnqueueKeepsQueue(m);
    assert Enqueue(m).waiting == [m.received];
    GrantHeadKeeps(c, Enqueue(m), now, at);
  }

  /** Cleanup would leave the stamps as they are. */
  predicate NoneStale(timestamps: seq<int>, cutoff: int) { timestamps == [] || timestamps[0] >= cutoff }

  /** The cleanup in front of the queue check finds nothing new, so a request never gets past one that waits. */
  lemma {:induction false} ReceiveKeeps(c: Config, m: Manager, now: int, cancelled: bool, at: int)
    requires Inv(c, m, now) && Full(c, m)
    requires NoneStale(m.timestamps, now - c.interval)
    ensures Inv(c, Receive(c, m, now, cancelled, at), now)
  {
    if cancelled {
      TurnAwayKeeps(c, m, now, Cancelled, at);
    } else if |m.timestamps| < c.maxCount {
      DirectGrantKeeps(c, m, now, at);
    } else {
      EnqueueKeepsQueue(m);
    }
  }

  lemma {:induction false} TurnAwayKeeps(c: Config, m: Manager, now: int, v: Verdict, at: int)
    requires Inv(c, m, now) && !v.Granted?
    ensures m.waiting != [] ==> Inv(c, PopHead(m, v, at), now)
    ensures Inv(c, Refuse(m, v, at), now)
  {
    if m.waiting != [] {
      PopHeadKeepsQueue(m, v, at);
      MoreAnswers(m.answers, Answer(m.waiting[0], v, at));
    }
    RefuseKeepsQueue(m, v, at);
    MoreAnswers(m.answers, Answer(m.received, v, at));
  }

  lemma {:induction false} DrainKeeps(c: Config, m: Manager, now: int, at: int, gone: set<nat>, late: nat)
    requires Inv(c, m, now)
    ensures var d := Drain(m, at, gone, late); Inv(c, d, now) && d.waiting == []
    decreases |m.waiting|, late
  {
    if m.waiting != [] {
      var v := StopVerdict(m.waiting[0], gone);
      TurnAwayKeeps(c, m, now, v, at);
      DrainKeeps(c, PopHead(m, v, at), now, at, gone, late);
    } else if late > 0 {
      var v := StopVerdict(m.received, gone);
      TurnAwayKeeps(c, m, now, v, at);
      DrainKeeps(c, Refuse(m, v, at), now, at, gone, late - 1);
    }
  }

  lemma WindowLater(c: Config, g: seq<int>, timestamps: seq<int>, now: int, later: int)
    requires WindowInv(c, g, timestamps, now) && now <= later
    ensures WindowInv(c, g, timestamps, later)
  {
  }

  lemma {:induction false} CleanupIsDone(timestamps: seq<int>, cutoff: int)
    ensures NoneStale(Cleanup(timestamps, cutoff), cutoff)
    decreases |timestamps|
  {
    if timestamps != [] && timestamps[0] < cutoff { CleanupIsDone(timestamps[1..], cutoff); }
  }

  /** Granting appends to the stamps, so what cleanup has left alone stays alone. */
  lemma {:induction false} WakeAppends(c: Config, m: Manager, r: Round)
    requires c.interval >= 0
    requires NoneStale(m.timestamps, r.now - c.interval)
    ensures NoneStale(Wake(c, m, r).timestamps, r.now - c.interval)
    decreases |m.waiting|
  {
    if !Full(c, m) {
      var id := m.waiting[0];
      var at := SendTime(r, id);
      if id in r.gone {
        WakeAppends(c, PopHead(m, Cancelled, at), r);
      } else {
        WakeAppends(c, GrantHead(m, r.now, at), r);
      }
    }
  }

  function Cleaned(c: Config, m: Manager, now: int): Manager {
    m.(timestamps := Cleanup(m.timestamps, now - c.interval))
  }

  lemma {:induction false} CleanedKeeps(c: Config, m: Manager, now: int, later: int)
    requires Inv(c, m, now) && now <= later
    ensures Inv(c, Cleaned(c, m, later), later)
    ensures NoneStale(Cleaned(c, m, later).timestamps, later - c.interval)
  {
    WindowLater(c, Stamps(m.answers), m.timestamps, now, later);
    CleanupKeepsWindow(c, Stamps(m.answers), m.timestamps, later);
    CleanupIsDone(m.timestamps, later - c.interval);
  }

  lemma {:induction false} BeforeKeeps(c: Config, m: Manager, now: int, r: Round)
    requires c.interval > 0 && Inv(c, m, now) && now <= r.now
    ensures var w := Before(c, m, r);
            Inv(c, w, r.now) && Full(c, w) && NoneStale(w.timestamps, r.now - c.interval)
  {
    CleanedKeeps(c, m, now, r.now);
    WakeKeeps(c, Cleaned(c, m, r.now), r);
    WakeAppends(c, Cleaned(c, m, r.now), r);
  }

  lemma {:induction false} StepKeeps(c: Config, m: Manager, now: int, r: Round)
    requires c.interval > 0 && Inv(c, m, now) && now <= r.now
    ensures Inv(c, Step(c, m, r), r.now)
    ensures r.event.Stop? ==> Step(c, m, r).waiting == []
  {
    BeforeKeeps(c, m, now, r);
    EventKeeps(c, Before(c, m, r), r);
  }

  lemma {:induction false} EventKeeps(c: Config, w: Manager, r: Round)
    requires Inv(c, w, r.now) && Full(c, w) && NoneStale(w.timestamps, r.now - c.interval)
    ensures Inv(c, HandleEvent(c, w, r), r.now)
    ensures r.event.Stop? ==> HandleEvent(c, w, r).waiting == []
  {
    match r.event
    case Request(cancelled, at) => ReceiveKeeps(c, w, r.now, cancelled, at);
    case Tick(_) =>
    case Stop(at, gone, late) => DrainKeeps(c, w, r.now, at, gone, late);
  }

  function Latest(rounds: seq<Round>, default: int): int { if rounds == [] then default else rounds[|rounds| - 1].now }

  lemma {:induction false} RunKeeps(c: Config, rounds: seq<Round>)
    requires c.interval > 0 && Clocked(rounds)
    ensures Inv(c, Run(c, rounds), Latest(rounds, 0))
    ensures HasStopped(rounds) ==> Run(c, rounds).waiting == []
  {
    if rounds == [] {
      StartHolds(c, 0);
    } else {
      var n := |rounds| - 1;
      RunKeeps(c, rounds[..n]);
      var m := Run(c, rounds[..n]);
      if n == 0 {
        StartHolds(c, rounds[n].now);
        StepKeeps(c, m, rounds[n].now, rounds[n]);
      } else {
        assert InTime(rounds[n - 1]) && EventTime(rounds[n - 1].event) <= rounds[n].now;
        if HasStopped(rounds[..n]) {
          WindowLater(c, Stamps(m.answers), m.timestamps, rounds[n - 1].now, rounds[n].now);
        } else {
          StepKeeps(c, m, rounds[n - 1].now, rounds[n]);
        }
      }
    }
  }

  lemma NothingGranted(c: Config, now: int)
    ensures WindowInv(c, [], [], now)
  {}

  lemma {:induction false} NobodyReceived()
    ensures QueueInv(START)
  {
    assert GrantedIds([]) + [] == [];
  }

  lemma {:induction false} StartHolds(c: Config, now: int)
    ensures Inv(c, START, now)
  {
    assert Stamps(START.answers) == [];
    NothingGranted(c, now);
    NobodyReceived();
  }

  // ----- Main results

  function Window(times: seq<int>, from: int, to: int): set<int> {
    set i | 0 <= i < |times| && from <= times[i] <= to
  }

  /** The n indices from a on. */
  function Indices(a: int, n: nat): (s: set<int>)
    ensures forall i :: i in s <==> a <= i < a + n
    ensures |s| == n
  {
    if n == 0 then {} else Indices(a, n - 1) + {a + n - 1}
  }

  /** Times that are spread out leave at most `cap` of them in a closed window. */
  lemma {:induction false} WindowBound(times: seq<int>, cap: nat, length: int, from: int)
    requires forall i, j :: 0 <= i && i + cap <= j < |times| ==> times[j] - times[i] > length
    ensures |Window(times, from, from + length)| <= cap
  {
    var s := Window(times, from, from + length);
    var a := 0;
    while a < |times| && a !in s
      invariant 0 <= a <= |times| && forall i :: 0 <= i < a ==> i !in s
    {
      a := a + 1;
    }
    forall j | j in s ensures j in Indices(a, cap) {
      assert a in s && a <= j;
      assert times[j] - times[a] <= length;
    }
    SubsetSize(s, Indices(a, cap));
  }

  lemma {:induction false} SpreadPairs(g: seq<int>, cap: nat, interval: int)
    requires Sorted(g) && Spread(g, cap, interval)
    ensures forall i, j :: 0 <= i && i + cap <= j < |g| ==> g[j] - g[i] > interval
  {
    forall i, j | 0 <= i && i + cap <= j < |g| ensures g[j] - g[i] > interval {
      assert g[i + cap] - g[i] > interval;
    }
  }

  /** No closed window of the length of the interval holds more than maxCount grant stamps, over any run. */
  lemma {:induction false} StampsAreLimited(c: Config, rounds: seq<Round>, from: int)
    requires c.interval > 0 && Clocked(rounds)
    ensures |Window(Stamps(Run(c, rounds).answers), from, from + c.interval)| <= Cap(c)
  {
    RunKeeps(c, rounds);
    var g := Stamps(Run(c, rounds).answers);
    SpreadPairs(g, Cap(c), c.interval);
    WindowBound(g, Cap(c), c.interval, from);
  }

  /** The times at which requests were granted. */
  function Times(answers: seq<Answer>): seq<int>
  {
    if answers == [] then []
    else
      var n := |answers| - 1;
      Times(answers[..n]) + if answers[n].verdict.Granted? then [answers[n].at] else []
  }

  /** How many requests were granted in a closed window of real time. */
  function GrantsIn(c: Config, rounds: seq<Round>, from: int, length: int): nat
  {
    |Window(Times(Run(c, rounds).answers), from, from + length)|
  }

  /** What a round may grant is sent at most `delay` after the clock reading of the round. */
  ghost predicate Swift(r: Round, delay: int) {
    && (forall id: nat :: SendTime(r, id) <= r.now + delay)
    && (r.event.Request? && !r.event.cancelled ==> r.event.at <= r.now + delay)
  }

  ghost predicate Prompt(rounds: seq<Round>, delay: int) { forall i :: 0 <= i < |rounds| ==> Swift(rounds[i], delay) }

  /** Every grant happens between its stamp and `delay` later. */
  ghost predicate GrantsFollow(answers: seq<Answer>, delay: int) {
    forall i :: 0 <= i < |answers| && answers[i].verdict.Granted? ==>
      answers[i].verdict.stamp <= answers[i].at <= answers[i].verdict.stamp + delay
  }

  lemma {:induction false} WakeFollows(c: Config, m: Manager, r: Round, delay: int)
    requires InTime(r) && Swift(r, delay) && GrantsFollow(m.answers, delay)
    ensures GrantsFollow(Wake(c, m, r).answers, delay)
    decreases |m.waiting|
  {
    if !Full(c, m) {
      var id := m.waiting[0];
      var at := SendTime(r, id);
      WakeFollows(c, if id in r.gone then PopHead(m, Cancelled, at) else GrantHead(m, r.now, at), r, delay);
    }
  }

  lemma {:induction false} DrainFollows(m: Manager, at: int, gone: set<nat>, late: nat, delay: int)
    requires GrantsFollow(m.answers, delay)
    ensures GrantsFollow(Drain(m, at, gone, late).answers, delay)
    decreases |m.waiting|, late
  {
    if m.waiting != [] {
      DrainFollows(PopHead(m, StopVerdict(m.waiting[0], gone), at), at, gone, late, delay);
    } else if late > 0 {
      DrainFollows(Refuse(m, StopVerdict(m.received, gone), at), at, gone, late - 1, delay);
    }
  }

  lemma {:induction false} StepFollows(c: Config, m: Manager, r: Round, delay: int)
    requires InTime(r) && Swift(r, delay) && GrantsFollow(m.answers, delay)
    ensures GrantsFollow(Step(c, m, r).answers, delay)
  {
    WakeFollows(c, Cleaned(c, m, r.now), r, delay);
    if r.event.Stop? { DrainFollows(Before(c, m, r), r.event.at, r.event.gone, r.event.late, delay); }
  }

  lemma {:induction false} RunFollows(c: Config, rounds: seq<Round>, delay: int)
    requires Clocked(rounds) && Prompt(rounds, delay)
    ensures GrantsFollow(Run(c, rounds).answers, delay)
  {
    if rounds != [] {
      var n := |rounds| - 1;
      RunFollows(c, rounds[..n], delay);
      StepFollows(c, Run(c, rounds[..n]), rounds[n], delay);
    }
  }

  lemma {:induction false} TimesFollowStamps(answers: seq<Answer>, delay: int)
    requires GrantsFollow(answers, delay)
    ensures |Times(answers)| == |Stamps(answers)|
    ensures forall i :: 0 <= i < |Times(answers)| ==>
              Stamps(answers)[i] <= Times(answers)[i] <= Stamps(answers)[i] + delay
  {
    if answers != [] { TimesFollowStamps(answers[..|answers| - 1], delay); }
  }

  /** Times that follow spread stamps are spread by the delay less. */
  lemma {:induction false} SpreadTimes(g: seq<int>, times: seq<int>, cap: nat, interval: int, delay: int)
    requires Sorted(g) && Spread(g, cap, interval)
    requires |times| == |g| && forall i :: 0 <= i < |times| ==> g[i] <= times[i] <= g[i] + delay
    ensures forall i, j :: 0 <= i && i + cap <= j < |times| ==> times[j] - times[i] > interval - delay
  {
    SpreadPairs(g, cap, interval);
    forall i, j | 0 <= i && i + cap <= j < |times| ensures times[j] - times[i] > interval - delay {
      assert g[j] - g[i] > interval;
    }
  }

  /** When grants are sent at most `delay` after the clock reading of their round, any real window that is shorter than
    * the interval by `delay` holds at most maxCount grants. */
  lemma {:induction false} GrantsAreLimited(c: Config, rounds: seq<Round>, delay: int, from: int)
    requires c.interval > 0 && Clocked(rounds) && Prompt(rounds, delay)
    ensures GrantsIn(c, rounds, from, c.interval - delay) <= Cap(c)
  {
    RunKeeps(c, rounds);
    RunFollows(c, rounds, delay);
    var answers := Run(c, rounds).answers;
    var g, times := Stamps(answers), Times(answers);
    TimesFollowStamps(answers, delay);
    SpreadTimes(g, times, Cap(c), c.interval, delay);
    WindowBound(times, Cap(c), c.interval - delay, from);
  }

  // ----- The bound on real windows is tight

  function OneRequest(now: int, at: int): Round { Round(now, map[], {}, Request(false, at)) }

  /** A request that comes in `delay` after the clock was read as 0, and n more right after a clock reading. */
  function Burst(delay: int, n: nat): seq<Round>
  {
    if n == 0 then [OneRequest(0, delay)] else Burst(delay, n - 1) + [OneRequest(delay, delay)]
  }

  lemma {:induction false} CleanupShortens(timestamps: seq<int>, cutoff: int)
    ensures Cleanup(timestamps, cutoff) == timestamps || |Cleanup(timestamps, cutoff)| < |timestamps|
    ensures NoneStale(timestamps, cutoff) || |Cleanup(timestamps, cutoff)| < |timestamps|
    decreases |timestamps|
  {
    if timestamps != [] && timestamps[0] < cutoff { CleanupShortens(timestamps[1..], cutoff); }
  }

  /** A manager that has granted n requests at the time `at` and can grant another one when stamps of 0 are too old. */
  predicate Filled(m: Manager, n: nat, at: int) {
    m.waiting == [] && OldestIsZero(m.timestamps, n) && AllAt(Times(m.answers), n, at)
  }

  predicate AllAt(times: seq<int>, n: nat, at: int) { |times| == n && forall i :: 0 <= i < n ==> times[i] == at }

  predicate OldestIsZero(timestamps: seq<int>, n: nat) {
    |timestamps| <= n && (|timestamps| == n > 0 ==> timestamps[0] == 0)
  }

  lemma {:induction false} OldestStaysZero(timestamps: seq<int>, n: nat, cutoff: int, now: int)
    requires OldestIsZero(timestamps, n) && (n == 0 ==> now == 0)
    ensures |Cleanup(timestamps, cutoff)| <= n && OldestIsZero(Cleanup(timestamps, cutoff) + [now], n + 1)
  {
    CleanupShortens(timestamps, cutoff);
  }

  function OneGranted(c: Config, m: Manager, now: int, at: int): Manager {
    Manager(Cleanup(m.timestamps, now - c.interval) + [now], [], m.received + 1,
            m.answers + [Answer(m.received, Granted(now), at)])
  }

  /** With room after the cleanup, a request is granted at once. */
  lemma {:induction false} OneGrant(c: Config, rounds: seq<Round>, now: int, at: int)
    requires !HasStopped(rounds) && Run(c, rounds).waiting == []
    requires |Cleanup(Run(c, rounds).timestamps, now - c.interval)| < c.maxCount
    ensures Run(c, rounds + [OneRequest(now, at)]) == OneGranted(c, Run(c, rounds), now, at)
    ensures !HasStopped(rounds + [OneRequest(now, at)])
  {
    assert (rounds + [OneRequest(now, at)])[..|rounds|] == rounds;
    CleanupIsDone(Run(c, rounds).timestamps, now - c.interval);
  }

  lemma {:induction false} OneMoreTime(answers: seq<Answer>, a: Answer)
    requires a.verdict.Granted?
    ensures Times(answers + [a]) == Times(answers) + [a.at]
  {
    assert (answers + [a])[..|answers|] == answers;
  }

  lemma {:induction false} StaysFilled(c: Config, rounds: seq<Round>, n: nat, now: int, at: int)
    requires !HasStopped(rounds) && Filled(Run(c, rounds), n, at)
    requires n < c.maxCount && (n == 0 ==> now == 0)
    ensures !HasStopped(rounds + [OneRequest(now, at)])
    ensures Filled(Run(c, rounds + [OneRequest(now, at)]), n + 1, at)
  {
    var m := Run(c, rounds);
    OldestStaysZero(m.timestamps, n, now - c.interval, now);
    OneGrant(c, rounds, now, at);
    OneMoreTime(m.answers, Answer(m.received, Granted(now), at));
  }

  /** All requests of a burst are granted at the same time; the stamps leave room for one more after the interval. */
  lemma {:induction false} BurstIsGranted(c: Config, delay: int, n: nat)
    requires n < c.maxCount
    ensures !HasStopped(Burst(delay, n)) && Filled(Run(c, Burst(delay, n)), n + 1, delay)
  {
    if n == 0 {
      assert Burst(delay, 0) == [] + [OneRequest(0, delay)];
      StaysFilled(c, [], 0, 0, delay);
    } else {
      BurstIsGranted(c, delay, n - 1);
      StaysFilled(c, Burst(delay, n - 1), n, delay, delay);
    }
  }

  lemma {:induction false} BurstIsPrompt(delay: int, n: nat)
    requires 0 <= delay
    ensures Clocked(Burst(delay, n)) && Prompt(Burst(delay, n), delay)
    ensures EventTime(Burst(delay, n)[|Burst(delay, n)| - 1].event) == delay
  {
    if n > 0 { BurstIsPrompt(delay, n - 1); }
  }

  lemma {:induction false} WindowOfAll(times: seq<int>, from: int, length: int)
    requires forall i :: 0 <= i < |times| ==> from <= times[i] <= from + length
    ensures |Window(times, from, from + length)| == |times|
  {
    assert Window(times, from, from + length) == Indices(0, |times|);
  }

  /** One more request comes when the stamp of 0 is too old. */
  lemma {:induction false} OneMore(c: Config, rounds: seq<Round>, delay: int, last: int)
    requires c.interval > 0 && c.maxCount > 0 && last == c.interval + 1
    requires !HasStopped(rounds) && Filled(Run(c, rounds), c.maxCount, delay)
    ensures var times := Times(Run(c, rounds + [OneRequest(last, last)]).answers);
            && |times| == c.maxCount + 1 && times[c.maxCount] == last
            && forall i :: 0 <= i < c.maxCount ==> times[i] == delay
  {
    var m := Run(c, rounds);
    CleanupShortens(m.timestamps, last - c.interval);
    OneGrant(c, rounds, last, last);
    OneMoreTime(m.answers, Answer(m.received, Granted(last), last));
  }

  lemma {:induction false} OneTooMany(c: Config, rounds: seq<Round>, delay: int, length: int)
    requires c.interval > 0 && c.maxCount > 0 && delay <= c.interval + 1 <= delay + length
    requires !HasStopped(rounds) && Filled(Run(c, rounds), c.maxCount, delay)
    ensures GrantsIn(c, rounds + [OneRequest(c.interval + 1, c.interval + 1)], delay, length) == c.maxCount + 1
  {
    var last := c.interval + 1;
    OneMore(c, rounds, delay, last);
    WindowOfAll(Times(Run(c, rounds + [OneRequest(last, last)]).answers), delay, length);
  }

  lemma {:induction false} OneMoreIsPrompt(rounds: seq<Round>, delay: int, last: int)
    requires Clocked(rounds) && Prompt(rounds, delay) && delay >= 0 && rounds != []
    requires EventTime(rounds[|rounds| - 1].event) <= last
    ensures Clocked(rounds + [OneRequest(last, last)]) && Prompt(rounds + [OneRequest(last, last)], delay)
  {
  }

  /** For every limit, a window that is longer than the interval less the delay can hold one grant too many. */
  lemma {:induction false} DelayIsVisible(c: Config, delay: int, length: int) returns (rounds: seq<Round>)
    requires c.interval > 0 && c.maxCount > 0
    requires 0 <= delay <= c.interval + 1 && length + delay > c.interval
    ensures Clocked(rounds) && Prompt(rounds, delay)
    ensures GrantsIn(c, rounds, delay, length) == c.maxCount + 1
  {
    var burst, last := Burst(delay, c.maxCount - 1), c.interval + 1;
    rounds := burst + [OneRequest(last, last)];
    BurstIsPrompt(delay, c.maxCount - 1);
    OneMoreIsPrompt(burst, delay, last);
    BurstIsGranted(c, delay, c.maxCount - 1);
    OneTooMany(c, burst, delay, length);
  }

  lemma {:induction false} MorePrompt(rounds: seq<Round>, lag: int, delay: int)
    requires Prompt(rounds, lag) && lag <= delay
    ensures Prompt(rounds, delay)
  {
    forall i | 0 <= i < |rounds| ensures Swift(rounds[i], delay) { assert Swift(rounds[i], lag); }
  }

  lemma {:induction false} CloseToItself(g: seq<int>, interval: int)
    requires interval > 0 && g != []
    ensures exists i, j :: 0 <= i <= j < |g| && g[j] - g[i] <= interval
  {
    assert g[0] in g;
  }

  lemma {:induction false} NothingIsGranted(c: Config, rounds: seq<Round>, delay: int)
    requires c.interval > 0 && c.maxCount <= 0 && Clocked(rounds) && Prompt(rounds, delay)
    ensures Times(Run(c, rounds).answers) == []
  {
    RunKeeps(c, rounds);
    RunFollows(c, rounds, delay);
    var g := Stamps(Run(c, rounds).answers);
    TimesFollowStamps(Run(c, rounds).answers, delay);
    SpreadPairs(g, Cap(c), c.interval);
    if g != [] { CloseToItself(g, c.interval); }
  }

  lemma {:induction false} ShortWindow(c: Config, rounds: seq<Round>, delay: int, from: int, length: int)
    requires c.interval > 0 && Clocked(rounds) && Prompt(rounds, delay)
    requires c.maxCount <= 0 || length + delay <= c.interval
    ensures GrantsIn(c, rounds, from, length) <= Cap(c)
  {
    if c.maxCount <= 0 {
      NothingIsGranted(c, rounds, delay);
    } else {
      MorePrompt(rounds, delay, c.interval - length);
      GrantsAreLimited(c, rounds, c.interval - length, from);
    }
  }

  ghost predicate LimitHolds(c: Config, delay: int, length: int) {
    forall rounds: seq<Round>, from: int :: Clocked(rounds) && Prompt(rounds, delay) ==>
      GrantsIn(c, rounds, from, length) <= Cap(c)
  }

  /** Exactly when the promised limit holds over real time: for windows of any length, and any bound on the delay. */
  lemma {:induction false} LimitHoldsIff(c: Config, delay: int, length: int)
    requires c.interval > 0 && delay >= 0 && length >= 0
    ensures LimitHolds(c, delay, length) <==> c.maxCount <= 0 || length + delay <= c.interval
  {
    if c.maxCount <= 0 || length + delay <= c.interval {
      forall rounds: seq<Round>, from: int | Clocked(rounds) && Prompt(rounds, delay)
        ensures GrantsIn(c, rounds, from, length) <= Cap(c)
      {
        ShortWindow(c, rounds, delay, from, length);
      }
    } else {
      var lag := if length > c.interval then 0 else c.interval + 1 - length;
      var rounds := DelayIsVisible(c, lag, length);
      assert GrantsIn(c, rounds, lag, length) > Cap(c);
      assert Prompt(rounds, delay) by { MorePrompt(rounds, lag, delay); }
    }
  }

  // ----- Who is told what

  /** How many requests a round receives, the late ones of a stop included. */
  function ArrivalsIn(r: Round): nat { if r.event.Request? then 1 else if r.event.Stop? then r.event.late else 0 }

  function Arrivals(rounds: seq<Round>): nat
  {
    if rounds == [] then 0
    else
      var n := |rounds| - 1;
      Arrivals(rounds[..n]) + if HasStopped(rounds[..n]) then 0 else ArrivalsIn(rounds[n])
  }

  /** The answer is one that the round may give, after so many arrivals: a request that waited is answered when it is
    * woken, a new one at once, and at a stop everybody who is left.  Those whose context is found done are told that,
    * and nobody else. */
  predicate Fits(a: Answer, r: Round, arrived: nat) {
    var woken := a.id < arrived && a.at == SendTime(r, a.id);
    var isNew := a.id == arrived && r.event.Request? && a.at == r.event.at;
    var stopped := r.event.Stop? && a.id < arrived + r.event.late && a.at == r.event.at;
    match a.verdict
    case Granted(stamp) => stamp == r.now && ((woken && a.id !in r.gone) || (isNew && !r.event.cancelled))
    case Cancelled => (woken && a.id in r.gone) || (isNew && r.event.cancelled) || (stopped && a.id in r.event.gone)
    case Stopped => stopped && a.id !in r.event.gone
  }

  /** More answers, all of which fit the round. */
  ghost predicate FitsOn(before: seq<Answer>, after: seq<Answer>, r: Round, arrived: nat) {
    before <= after && forall k :: |before| <= k < |after| ==> Fits(after[k], r, arrived)
  }

  lemma {:induction false} FitsThrough(a: seq<Answer>, b: seq<Answer>, d: seq<Answer>, r: Round, arrived: nat)
    requires FitsOn(a, b, r, arrived) && FitsOn(b, d, r, arrived)
    ensures FitsOn(a, d, r, arrived)
  {
    forall k | |a| <= k < |d| ensures Fits(d[k], r, arrived) {
      if k < |b| { assert d[k] == b[k]; }
    }
  }

  lemma {:induction false} WakeFits(c: Config, m: Manager, r: Round, arrived: nat)
    requires AllBelow(m.waiting, arrived)
    ensures FitsOn(m.answers, Wake(c, m, r).answers, r, arrived)
    ensures AllBelow(Wake(c, m, r).waiting, arrived) && Wake(c, m, r).received == m.received
    decreases |m.waiting|
  {
    if !Full(c, m) {
      var id := m.waiting[0];
      var next := if id in r.gone then PopHead(m, Cancelled, SendTime(r, id)) else GrantHead(m, r.now, SendTime(r, id));
      WakeFits(c, next, r, arrived);
      FitsThrough(m.answers, next.answers, Wake(c, m, r).answers, r, arrived);
    }
  }

  lemma {:induction false} DrainFits(m: Manager, r: Round, late: nat, arrived: nat)
    requires r.event.Stop? && AllBelow(m.waiting, arrived) && m.received + late == arrived + r.event.late
    ensures FitsOn(m.answers, Drain(m, r.event.at, r.event.gone, late).answers, r, arrived)
    ensures Drain(m, r.event.at, r.event.gone, late).received == m.received + late
    decreases |m.waiting|, late
  {
    var e := r.event;
    if m.waiting != [] {
      var next := PopHead(m, StopVerdict(m.waiting[0], e.gone), e.at);
      DrainFits(next, r, late, arrived);
      FitsThrough(m.answers, next.answers, Drain(m, e.at, e.gone, late).answers, r, arrived);
    } else if late > 0 {
      var next := Refuse(m, StopVerdict(m.received, e.gone), e.at);
      DrainFits(next, r, late - 1, arrived);
      FitsThrough(m.answers, next.answers, Drain(m, e.at, e.gone, late).answers, r, arrived);
    }
  }

  lemma {:induction false} StepFits(c: Config, m: Manager, r: Round)
    requires AllBelow(m.waiting, m.received)
    ensures FitsOn(m.answers, Step(c, m, r).answers, r, m.received)
    ensures Step(c, m, r).received == m.received + ArrivalsIn(r)
  {
    var w := Before(c, m, r);
    WakeFits(c, Cleaned(c, m, r.now), r, m.received);
    if r.event.Stop? { DrainFits(w, r, r.event.late, m.received); }
    FitsThrough(m.answers, w.answers, Step(c, m, r).answers, r, m.received);
  }

  /** The k-th answer is given in round i, and fits it. */
  ghost predicate GivenIn(c: Config, rounds: seq<Round>, i: nat, k: nat) {
    && i < |rounds| && !HasStopped(rounds[..i]) && k < |Run(c, rounds).answers|
    && |Run(c, rounds[..i]).answers| <= k < |Run(c, rounds[..i + 1]).answers|
    && Fits(Run(c, rounds).answers[k], rounds[i], Arrivals(rounds[..i]))
  }

  lemma {:induction false} RunArrivals(c: Config, rounds: seq<Round>)
    requires c.interval > 0 && Clocked(rounds)
    ensures Run(c, rounds).received == Arrivals(rounds) && AllBelow(Run(c, rounds).waiting, Arrivals(rounds))
  {
    RunKeeps(c, rounds);
    var m := Run(c, rounds);
    var ids := GrantedIds(m.answers);
    forall i | 0 <= i < |m.waiting| ensures m.waiting[i] < m.received {
      assert (ids + m.waiting)[|ids| + i] == m.waiting[i];
    }
    if rounds != [] {
      var n := |rounds| - 1;
      RunArrivals(c, rounds[..n]);
      StepFits(c, Run(c, rounds[..n]), rounds[n]);
    }
  }

  lemma {:induction false} GivenEarlier(c: Config, rounds: seq<Round>, i: nat, k: nat)
    requires rounds != [] && GivenIn(c, rounds[..|rounds| - 1], i, k)
    requires Run(c, rounds[..|rounds| - 1]).answers <= Run(c, rounds).answers
    ensures GivenIn(c, rounds, i, k)
  {
    var front := rounds[..|rounds| - 1];
    assert front[..i] == rounds[..i] && front[..i + 1] == rounds[..i + 1];
  }

  /** Every answer is given in some round, to a request of that round or one that waited, with the verdict that its
    * context and the round call for. */
  lemma {:induction false} VerdictsFit(c: Config, rounds: seq<Round>, k: nat) returns (i: nat)
    requires c.interval > 0 && Clocked(rounds) && k < |Run(c, rounds).answers|
    ensures GivenIn(c, rounds, i, k)
  {
    var n := |rounds| - 1;
    assert rounds != [];
    var m := Run(c, rounds[..n]);
    RunArrivals(c, rounds[..n]);
    StepFits(c, m, rounds[n]);
    if k < |m.answers| {
      i := VerdictsFit(c, rounds[..n], k);
      GivenEarlier(c, rounds, i, k);
    } else {
      i := n;
      assert rounds[..n + 1] == rounds;
    }
  }

  // ----- Nobody waits without need

  lemma {:induction false} EventKeepsFull(c: Config, w: Manager, r: Round)
    requires c.interval >= 0 && Full(c, w) && NoneStale(w.timestamps, r.now - c.interval)
    ensures var m := HandleEvent(c, w, r); Full(c, m) && NoneStale(m.timestamps, r.now - c.interval)
  {
    if r.event.Stop? { DrainEmpties(w, r.event.at, r.event.gone, r.event.late); }
  }

  lemma {:induction false} DrainEmpties(m: Manager, at: int, gone: set<nat>, late: nat)
    ensures var d := Drain(m, at, gone, late); d.waiting == [] && d.timestamps == m.timestamps
    decreases |m.waiting|, late
  {
    if m.waiting != [] {
      DrainEmpties(PopHead(m, StopVerdict(m.waiting[0], gone), at), at, gone, late);
    } else if late > 0 {
      DrainEmpties(Refuse(m, StopVerdict(m.received, gone), at), at, gone, late - 1);
    }
  }

  lemma {:induction false} SubsetSize(a: set<int>, b: set<int>)
    requires a <= b
    ensures |a| <= |b|
  {
    assert b == a + (b - a);
  }

  lemma {:induction false} RecentInWindow(g: seq<int>, n: nat, from: int, to: int)
    requires Sorted(g) && n <= |g| && (n > 0 ==> from <= g[|g| - n]) && forall i :: 0 <= i < |g| ==> g[i] <= to
    ensures |Window(g, from, to)| >= n
  {
    var last := Indices(|g| - n, n);
    forall i | i in last ensures i in Window(g, from, to) {
      if i > |g| - n { assert g[|g| - n] <= g[i]; }
    }
    SubsetSize(last, Window(g, from, to));
  }

  lemma {:induction false} InvBefore(c: Config, rounds: seq<Round>) returns (t: int)
    requires c.interval > 0 && Clocked(rounds) && rounds != []
    ensures Inv(c, Run(c, rounds[..|rounds| - 1]), t) && t <= rounds[|rounds| - 1].now
  {
    var n := |rounds| - 1;
    RunKeeps(c, rounds[..n]);
    if n == 0 {
      t := rounds[n].now;
      StartHolds(c, t);
    } else {
      assert InTime(rounds[n - 1]) && EventTime(rounds[n - 1].event) <= rounds[n].now;
      t := rounds[n - 1].now;
    }
  }

  lemma {:induction false} LastBefore(c: Config, rounds: seq<Round>)
    requires c.interval > 0 && Clocked(rounds) && rounds != []
    ensures var n := |rounds| - 1; var w := Before(c, Run(c, rounds[..n]), rounds[n]);
            Full(c, w) && NoneStale(w.timestamps, rounds[n].now - c.interval)
  {
    var n := |rounds| - 1;
    var t := InvBefore(c, rounds);
    BeforeKeeps(c, Run(c, rounds[..n]), t, rounds[n]);
  }

  lemma {:induction false} FullAtEnd(c: Config, rounds: seq<Round>)
    requires c.interval > 0 && Clocked(rounds) && rounds != [] && Run(c, rounds).waiting != []
    ensures var m := Run(c, rounds);
            |m.timestamps| >= c.maxCount && NoneStale(m.timestamps, rounds[|rounds| - 1].now - c.interval)
  {
    var n := |rounds| - 1;
    RunKeeps(c, rounds[..n]);
    if !HasStopped(rounds[..n]) {
      LastBefore(c, rounds);
      EventKeepsFull(c, Before(c, Run(c, rounds[..n]), rounds[n]), rounds[n]);
    }
  }

  lemma {:induction false} FullWindow(c: Config, g: seq<int>, timestamps: seq<int>, now: int)
    requires WindowInv(c, g, timestamps, now) && |timestamps| >= c.maxCount && NoneStale(timestamps, now - c.interval)
    ensures |Window(g, now - c.interval, now)| >= Cap(c)
  {
    RecentInWindow(g, |timestamps|, now - c.interval, now);
  }

  /** If somebody waits after a round, the window that ends at its clock reading holds exactly maxCount grant stamps. */
  lemma {:induction false} WaitsOnlyWhenFull(c: Config, rounds: seq<Round>)
    requires c.interval > 0 && Clocked(rounds) && rounds != [] && Run(c, rounds).waiting != []
    ensures var now := rounds[|rounds| - 1].now;
            |Window(Stamps(Run(c, rounds).answers), now - c.interval, now)| == Cap(c)
  {
    var m, now := Run(c, rounds), rounds[|rounds| - 1].now;
    RunKeeps(c, rounds);
    FullAtEnd(c, rounds);
    assert Latest(rounds, 0) == now;
    FullWindow(c, Stamps(m.answers), m.timestamps, now);
    StampsAreLimited(c, rounds, now - c.interval);
  }

  /** Requests are granted in the order in which they arrived, and nobody is granted past a request that still waits. */
  lemma {:induction false} NoOvertaking(c: Config, rounds: seq<Round>)
    requires c.interval > 0 && Clocked(rounds)
    ensures var m := Run(c, rounds);
            && Increasing(GrantedIds(m.answers))
            && Increasing(m.waiting)
            && forall i, j :: 0 <= i < |GrantedIds(m.answers)| && 0 <= j < |m.waiting| ==>
                 GrantedIds(m.answers)[i] < m.waiting[j]
  {
    RunKeeps(c, rounds);
    SplitIncreasing(GrantedIds(Run(c, rounds).answers), Run(c, rounds).waiting);
  }

  lemma {:induction false} SplitIncreasing(g: seq<nat>, w: seq<nat>)
    requires Increasing(g + w)
    ensures Increasing(g) && Increasing(w) && forall i, j :: 0 <= i < |g| && 0 <= j < |w| ==> g[i] < w[j]
  {
    forall i, j | 0 <= i < j < |g| ensures g[i] < g[j] { assert (g + w)[i] == g[i] && (g + w)[j] == g[j]; }
    forall i, j | 0 <= i < j < |w| ensures w[i] < w[j] { assert (g + w)[|g| + i] == w[i] && (g + w)[|g| + j] == w[j]; }
    forall i, j | 0 <= i < |g| && 0 <= j < |w| ensures g[i] < w[j] {
      assert (g + w)[i] == g[i] && (g + w)[|g| + j] == w[j];
    }
  }

  /** At any time a request has at most one answer, so its response channel has room; it has one exactly when it was
    * received and does not wait.  Once the loop has ended, every received request has been answered exactly once. */
  lemma {:induction false} AnsweredOnce(c: Config, rounds: seq<Round>, id: nat)
    requires c.interval > 0 && Clocked(rounds)
    ensures var m := Run(c, rounds);
            && AnswersTo(m.answers, id) <= 1
            && (AnswersTo(m.answers, id) == 1 <==> id < m.received && id !in m.waiting)
            && (HasStopped(rounds) ==> AnswersTo(m.answers, id) == if id < m.received then 1 else 0)
  {
    RunKeeps(c, rounds);
    assert Accounted(Run(c, rounds));
  }
}
