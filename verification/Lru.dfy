/** A least-recently-used cache: a map from keys to nodes of a doubly linked list, oldest node first. */
module Lru {

  datatype Entry = Entry(key: int, value: int)

  // ----- The cache as a sequence of entries, oldest first

  predicate Distinct(s: seq<Entry>) { forall i, j :: 0 <= i < j < |s| ==> s[i].key != s[j].key }

  /** Position of the key, or the length. */
  function Index(s: seq<Entry>, key: int): (i: nat)
    ensures i <= |s| && (i < |s| ==> s[i].key == key) && forall j :: 0 <= j < i ==> s[j].key != key
  {
    if s == [] || s[0].key == key then 0 else 1 + Index(s[1..], key)
  }

  function Has(s: seq<Entry>, key: int): bool { Index(s, key) < |s| }

  function Without(s: seq<Entry>, i: nat): seq<Entry>
    requires i < |s|
  {
    s[..i] + s[i + 1..]
  }

  /** The entries after Get of a key. */
  function Touch(s: seq<Entry>, key: int): seq<Entry> {
    if Has(s, key) then Without(s, Index(s, key)) + [s[Index(s, key)]] else s
  }

  /** The entries after Set. */
  function Put(s: seq<Entry>, capacity: int, key: int, value: int): seq<Entry> {
    if capacity <= 0 then s
    else if Has(s, key) then Without(s, Index(s, key)) + [Entry(key, value)]
    else (if |s| >= capacity && s != [] then s[1..] else s) + [Entry(key, value)]
  }

  /** How many of n entries Range visits, when the i-th call of its function answers answers[i]. */
  function Visits(n: nat, answers: seq<bool>): (k: nat)
    requires n <= |answers|
    ensures k <= n
    ensures forall i :: 0 <= i < k - 1 ==> answers[i]
    ensures k < n ==> k > 0 && !answers[k - 1]
    ensures n == 0 || k > 0
  {
    if n == 0 then 0
    else
      var k := Visits(n - 1, answers);
      if k == n - 1 && (k == 0 || answers[k - 1]) then n else k
  }

  lemma IndexIs(s: seq<Entry>, i: nat)
    requires Distinct(s) && i < |s|
    ensures Index(s, s[i].key) == i
  {}

  // ----- The list

  class Node {
    const key: int
    var value: int
    var prev: Node?
    var next: Node?

    constructor (key: int, value: int)
      ensures this.key == key && this.value == value
    {
      this.key, this.value, prev, next := key, value, null, null;
    }
  }

  function At(s: seq<Node>, i: int): Node? { if 0 <= i < |s| then s[i] else null }

  /** Positions after one is left out. */
  lemma CloseGap(s: seq<Node>, i: nat)
    requires i < |s|
    ensures var t := s[..i] + s[i + 1..];
      |t| == |s| - 1 && forall k :: 0 <= k < |t| ==> t[k] == s[if k < i then k else k + 1]
  {}

  class List {
    var front: Node?
    var back: Node?
    var length: nat
    ghost var nodes: seq<Node>

    ghost predicate Valid()
      reads this, nodes`prev, nodes`next
    {
      && (forall i, j :: 0 <= i < j < |nodes| ==> nodes[i] != nodes[j])
      && length == |nodes| && front == At(nodes, 0) && back == At(nodes, |nodes| - 1)
      && (forall i {:trigger nodes[i].prev} :: 0 <= i < |nodes| ==> nodes[i].prev == At(nodes, i - 1))
      && (forall i {:trigger nodes[i].next} :: 0 <= i < |nodes| ==> nodes[i].next == At(nodes, i + 1))
    }

    constructor ()
      ensures Valid() && nodes == []
    {
      front, back, length, nodes := null, null, 0, [];
    }

    method PushBack(n: Node)
      requires Valid() && n !in nodes
      modifies this, nodes`next, n`prev, n`next
      ensures Valid() && nodes == old(nodes) + [n]
    {
      n.prev, n.next := back, null;
      if back == null { front := n; } else { back.next := n; }
      back := n;
      length := length + 1;
      nodes := nodes + [n];
    }

    method Remove(n: Node, ghost i: nat)
      requires Valid() && i < |nodes| && nodes[i] == n
      modifies this, nodes`prev, nodes`next
      ensures Valid() && nodes == old(nodes)[..i] + old(nodes)[i + 1..]
    {
      Unlink(n, i);
      ghost var t := nodes[..i] + nodes[i + 1..];
      EndsClosed(i, t);
      PrevsClosed(i, t);
      NextsClosed(i, t);
      nodes := t;
    }

    /** The list without its i-th node, except for the ghost field. */
    ghost predicate Unlinked(i: nat)
      reads this, nodes`prev, nodes`next
      requires i < |nodes|
    {
      && (forall j, k :: 0 <= j < k < |nodes| ==> nodes[j] != nodes[k])
      && length == |nodes| - 1
      && front == (if i == 0 then At(nodes, 1) else nodes[0])
      && back == (if i == |nodes| - 1 then At(nodes, i - 1) else nodes[|nodes| - 1])
      && (forall k {:trigger nodes[k].prev} :: 0 <= k < |nodes| && k != i ==>
            nodes[k].prev == At(nodes, if k == i + 1 then i - 1 else k - 1))
      && (forall k {:trigger nodes[k].next} :: 0 <= k < |nodes| && k != i ==>
            nodes[k].next == At(nodes, if k == i - 1 then i + 1 else k + 1))
    }

    lemma {:induction false} EndsClosed(i: nat, t: seq<Node>)
      requires i < |nodes| && Unlinked(i) && t == nodes[..i] + nodes[i + 1..]
      ensures forall j, k :: 0 <= j < k < |t| ==> t[j] != t[k]
      ensures length == |t| && front == At(t, 0) && back == At(t, |t| - 1)
    {
      CloseGap(nodes, i);
    }

    lemma {:induction false} PrevsClosed(i: nat, t: seq<Node>)
      requires i < |nodes| && Unlinked(i) && t == nodes[..i] + nodes[i + 1..]
      ensures forall k {:trigger t[k].prev} :: 0 <= k < |t| ==> t[k].prev == At(t, k - 1)
    {
      forall k | 0 <= k < |t| ensures t[k].prev == At(t, k - 1) {
        var j := if k < i then k else k + 1;
        assert t[k] == nodes[j] && nodes[j].prev == At(nodes, if j == i + 1 then i - 1 else j - 1);
      }
    }

    lemma {:induction false} NextsClosed(i: nat, t: seq<Node>)
      requires i < |nodes| && Unlinked(i) && t == nodes[..i] + nodes[i + 1..]
      ensures forall k {:trigger t[k].next} :: 0 <= k < |t| ==> t[k].next == At(t, k + 1)
    {
      forall k | 0 <= k < |t| ensures t[k].next == At(t, k + 1) {
        var j := if k < i then k else k + 1;
        assert t[k] == nodes[j] && nodes[j].next == At(nodes, if j == i - 1 then i + 1 else j + 1);
      }
    }

    method Unlink(n: Node, ghost i: nat)
      requires Valid() && i < |nodes| && nodes[i] == n
      modifies this, nodes`prev, nodes`next
      ensures nodes == old(nodes) && Unlinked(i)
    {
      if n.prev == null { front := n.next; } else { n.prev.next := n.next; }
      if n.next == null { back := n.prev; } else { n.next.prev := n.prev; }
      n.prev, n.next := null, null;
      length := length - 1;
    }

    method RemoveFront(n: Node)
      requires Valid() && nodes != [] && front == n
      modifies this, nodes`prev, nodes`next
      ensures Valid() && nodes == old(nodes)[1..]
    {
      ghost var s := nodes;
      Remove(n, 0);
      assert s[..0] + s[1..] == s[1..];
    }

    method MoveToBack(n: Node, ghost i: nat)
      requires Valid() && i < |nodes| && nodes[i] == n
      modifies this, nodes`prev, nodes`next
      ensures Valid() && nodes == old(nodes)[..i] + old(nodes)[i + 1..] + [n]
    {
      if back == n { return; }
      Remove(n, i);
      PushBack(n);
    }
  }

  // ----- The cache

  lemma {:induction false} PutNew(s: seq<Entry>, capacity: int, key: int, value: int)
    requires capacity > 0 && !Has(s, key)
    ensures Put(s, capacity, key, value) == (if |s| >= capacity then s[1..] else s) + [Entry(key, value)]
  {
  }

  /** The entries are what the nodes hold. */
  predicate Mirrors(entries: seq<Entry>, nodes: seq<Node>)
    reads nodes`value
  {
    |entries| == |nodes| && forall i :: 0 <= i < |nodes| ==> entries[i] == Entry(nodes[i].key, nodes[i].value)
  }

  lemma MirrorsDrop(entries: seq<Entry>, nodes: seq<Node>)
    requires Mirrors(entries, nodes) && nodes != []
    ensures Mirrors(entries[1..], nodes[1..])
  {}

  lemma {:induction false} MirrorsMoved(entries: seq<Entry>, s: seq<Node>, i: nat, t: seq<Node>)
    requires Mirrors(entries, s) && i < |s| && t == s[..i] + s[i + 1..] + [s[i]]
    ensures Mirrors(Without(entries, i) + [entries[i]], t)
  {
    CloseGap(s, i);
    WithoutAt(entries, i);
  }

  lemma MirrorsAppended(entries: seq<Entry>, s: seq<Node>, n: Node, t: seq<Node>)
    requires Mirrors(entries, s) && t == s + [n]
    ensures Mirrors(entries + [Entry(n.key, n.value)], t)
  {}

  /** The map finds every node under its key, and nothing else. */
  ghost predicate Finds(cache: map<int, Node>, nodes: seq<Node>) {
    && (forall n :: n in nodes ==> n.key in cache && cache[n.key] == n)
    && (forall k :: k in cache ==> cache[k] in nodes && cache[k].key == k)
  }

  lemma {:induction false} FindsMoved(cache: map<int, Node>, s: seq<Node>, i: nat, t: seq<Node>)
    requires Finds(cache, s) && i < |s| && t == s[..i] + s[i + 1..] + [s[i]]
    ensures Finds(cache, t)
  {
    forall n | n in s ensures n in t {
      var k :| 0 <= k < |s| && s[k] == n;
      assert t[if k < i then k else if k == i then |s| - 1 else k - 1] == n;
    }
    assert forall n :: n in t ==> n in s;
  }

  lemma FindsAppended(cache: map<int, Node>, s: seq<Node>, n: Node, t: seq<Node>)
    requires Finds(cache, s) && n.key !in cache && t == s + [n]
    ensures Finds(cache[n.key := n], t)
  {}

  lemma {:induction false} FindsEvicted(cache: map<int, Node>, nodes: seq<Node>)
    requires Finds(cache, nodes) && nodes != [] && forall i, j :: 0 <= i < j < |nodes| ==> nodes[i] != nodes[j]
    ensures Finds(cache - {nodes[0].key}, nodes[1..])
  {
    var rest := nodes[1..];
    forall n | n in rest ensures n in nodes && n.key != nodes[0].key {
      var k :| 0 <= k < |rest| && rest[k] == n;
      assert n == nodes[k + 1] && nodes[0] in nodes;
    }
    forall n | n in nodes && n != nodes[0] ensures n in rest {
      var k :| 0 <= k < |nodes| && nodes[k] == n;
      assert rest[k - 1] == n;
    }
  }

  /** Where a key that the map knows is. */
  lemma {:induction false} Found(cache: map<int, Node>, nodes: seq<Node>, entries: seq<Entry>, key: int)
    requires Finds(cache, nodes) && Mirrors(entries, nodes)
    requires forall i, j :: 0 <= i < j < |nodes| ==> nodes[i] != nodes[j]
    ensures Distinct(entries)
    ensures key in cache <==> Has(entries, key)
    ensures key in cache ==> nodes[Index(entries, key)] == cache[key]
  {
    forall i, j | 0 <= i < j < |entries| ensures entries[i].key != entries[j].key {
      assert nodes[i] in nodes && nodes[j] in nodes;
    }
    var i := Index(entries, key);
    if i < |nodes| { assert nodes[i] in nodes; }
    if key in cache {
      var k :| 0 <= k < |nodes| && nodes[k] == cache[key];
      assert entries[k].key == key;
    }
  }

  class LRUCache {
    const capacity: int
    var cache: map<int, Node>
    var list: List
    ghost var entries: seq<Entry>

    ghost predicate Valid()
      reads this, list, list.nodes
    {
      && list.Valid() && Mirrors(entries, list.nodes) && Finds(cache, list.nodes)
      && (entries == [] || |entries| <= capacity)
    }

    constructor (capacity: int)
      ensures Valid() && this.capacity == capacity && entries == [] && fresh(list)
    {
      this.capacity, cache, entries := capacity, map[], [];
      list := new List();
    }

    /** MoveToBack, and the new value of the entry. */
    method Refresh(elem: Node, ghost i: nat, ghost s: seq<Entry>)
      requires list.Valid() && Finds(cache, list.nodes) && Mirrors(s, list.nodes)
      requires i < |list.nodes| && list.nodes[i] == elem && (entries == [] || |s| <= capacity)
      modifies this`entries, list, list.nodes`prev, list.nodes`next
      ensures list.Valid() && Mirrors(entries, list.nodes) && Finds(cache, list.nodes)
      ensures list.nodes == old(list.nodes)[..i] + old(list.nodes)[i + 1..] + [elem]
      ensures entries == Without(s, i) + [s[i]]
    {
      ghost var nodes := list.nodes;
      entries := Without(s, i) + [s[i]];
      list.MoveToBack(elem, i);
      FindsMoved(cache, nodes, i, list.nodes);
      MirrorsMoved(s, nodes, i, list.nodes);
    }

    method Get(key: int) returns (value: int, ok: bool)
      requires Valid()
      modifies this`entries, list, list.nodes`prev, list.nodes`next
      ensures Valid() && entries == Touch(old(entries), key)
      ensures ok == Has(old(entries), key)
      ensures value == if ok then old(entries)[Index(old(entries), key)].value else 0
    {
      Found(cache, list.nodes, entries, key);
      if key !in cache { return 0, false; }
      var elem := cache[key];
      Refresh(elem, Index(entries, key), entries);
      return elem.value, true;
    }

    method Overwrite(elem: Node, ghost i: nat, value: int)
      requires Valid() && i < |entries| && list.nodes[i] == elem
      modifies this`entries, elem`value
      ensures Valid() && entries == old(entries)[i := Entry(elem.key, value)]
    {
      elem.value := value;
      entries := entries[i := Entry(elem.key, value)];
    }

    method DropFront(oldest: Node)
      requires list.Valid() && Mirrors(entries, list.nodes) && list.nodes != [] && oldest == list.front
      modifies this`entries, list, list.nodes`prev, list.nodes`next
      ensures list.Valid() && Mirrors(entries, list.nodes)
      ensures entries == old(entries)[1..] && list.nodes == old(list.nodes)[1..]
    {
      MirrorsDrop(entries, list.nodes);
      entries := entries[1..];
      list.RemoveFront(oldest);
    }

    method Evict(oldest: Node)
      requires Valid() && entries != [] && oldest == list.front
      modifies this`cache, this`entries, list, list.nodes`prev, list.nodes`next
      ensures Valid() && entries == old(entries)[1..] && cache == old(cache) - {old(entries)[0].key}
      ensures list.nodes == old(list.nodes)[1..]
    {
      FindsEvicted(cache, list.nodes);
      cache := cache - {oldest.key};
      DropFront(oldest);
    }

    method Enter(elem: Node)
      requires Valid() && elem.key !in cache && |entries| < capacity
      modifies this`cache, this`entries, list, list.nodes`next, elem`prev, elem`next
      ensures Valid() && entries == old(entries) + [Entry(elem.key, elem.value)]
      ensures list.nodes == old(list.nodes) + [elem]
    {
      ghost var nodes := list.nodes;
      list.PushBack(elem);
      FindsAppended(cache, nodes, elem, list.nodes);
      MirrorsAppended(entries, nodes, elem, list.nodes);
      cache := cache[elem.key := elem];
      entries := entries + [Entry(elem.key, elem.value)];
    }

    method Append(key: int, value: int)
      requires Valid() && key !in cache && |entries| < capacity
      modifies this`cache, this`entries, list, list.nodes`prev, list.nodes`next
      ensures Valid() && entries == old(entries) + [Entry(key, value)]
      ensures forall n :: n in list.nodes && n !in old(list.nodes) ==> fresh(n)
    {
      var elem := new Node(key, value);
      Enter(elem);
    }

    method SetOld(key: int, value: int)
      requires Valid() && capacity > 0 && key in cache
      modifies this`entries, list, list.nodes
      ensures Valid() && entries == Put(old(entries), capacity, key, value)
      ensures forall n :: n in list.nodes ==> n in old(list.nodes)
    {
      Found(cache, list.nodes, entries, key);
      ghost var i := Index(entries, key);
      var elem := cache[key];
      Overwrite(elem, i, value);
      Refresh(elem, i, entries);
    }

    /** Drops the oldest entry of a full cache. */
    method MakeRoom()
      requires Valid() && capacity > 0
      modifies this`cache, this`entries, list, list.nodes`prev, list.nodes`next
      ensures Valid() && |entries| < capacity
      ensures entries == if |old(entries)| >= capacity then old(entries)[1..] else old(entries)
      ensures cache.Keys <= old(cache.Keys) && forall n :: n in list.nodes ==> n in old(list.nodes)
    {
      if list.length >= capacity {
        var oldest := list.front;
        if oldest != null { Evict(oldest); }
      }
    }

    method SetNew(key: int, value: int)
      requires Valid() && capacity > 0 && key !in cache
      modifies this`cache, this`entries, list, list.nodes`prev, list.nodes`next
      ensures Valid() && entries == Put(old(entries), capacity, key, value)
      ensures forall n :: n in list.nodes && n !in old(list.nodes) ==> fresh(n)
    {
      Found(cache, list.nodes, entries, key);
      PutNew(entries, capacity, key, value);
      MakeRoom();
      Append(key, value);
    }

    method Set(key: int, value: int)
      requires Valid()
      modifies this`cache, this`entries, list, list.nodes
      ensures Valid() && entries == Put(old(entries), capacity, key, value)
      ensures forall n :: n in list.nodes && n !in old(list.nodes) ==> fresh(n)
    {
      if capacity <= 0 { return; }
      if key in cache { SetOld(key, value); } else { SetNew(key, value); }
    }

    /** answers[i] is what the function says on its i-th call. */
    method Range(answers: seq<bool>) returns (visited: seq<Entry>)
      requires Valid() && |entries| <= |answers|
      ensures visited == entries[..Visits(|entries|, answers)]
    {
      visited := Walk(answers);
    }

    method Walk(answers: seq<bool>) returns (visited: seq<Entry>)
      requires list.Valid() && Mirrors(entries, list.nodes) && |entries| <= |answers|
      ensures visited == entries[..Visits(|entries|, answers)]
    {
      visited := [];
      var elem := list.front;
      while elem != null
        invariant |visited| <= |entries| && elem == At(list.nodes, |visited|)
        invariant visited == entries[..|visited|]
        invariant forall i :: 0 <= i < |visited| ==> answers[i]
        decreases |entries| - |visited|
      {
        ghost var i := |visited|;
        assert elem == list.nodes[i] && elem.next == At(list.nodes, i + 1);
        visited := visited + [Entry(elem.key, elem.value)];
        if !answers[|visited| - 1] { break; }
        elem := elem.next;
      }
    }

    method Clear()
      requires Valid()
      modifies this
      ensures Valid() && entries == [] && fresh(list)
    {
      cache, entries := map[], [];
      list := new List();
    }
  }

  // ----- Least recently used, in terms of access times

  datatype Op = DoGet(key: int) | DoSet(key: int, value: int) | DoClear

  function Do(s: seq<Entry>, capacity: int, op: Op): seq<Entry> {
    match op
    case DoGet(key) => Touch(s, key)
    case DoSet(key, value) => Put(s, capacity, key, value)
    case DoClear => []
  }

  /** The entries after a history of operations on a new cache. */
  function DoAll(capacity: int, ops: seq<Op>): seq<Entry> {
    if ops == [] then [] else Do(DoAll(capacity, ops[..|ops| - 1]), capacity, ops[|ops| - 1])
  }

  /** A value and the time of its last access. */
  datatype Stamped = Stamped(value: int, time: nat)

  type Store = map<int, Stamped>

  predicate IsOldest(m: Store, key: int) { key in m && forall k :: k in m ==> m[key].time <= m[k].time }

  /** What an operation at time now may do to a key-value store of limited size that forgets its oldest key. */
  ghost predicate StoreStep(m: Store, now: nat, capacity: int, op: Op, m': Store) {
    match op
    case DoGet(key) => m' == if key in m then m[key := Stamped(m[key].value, now)] else m
    case DoSet(key, value) =>
      if capacity <= 0 then m' == m
      else if key in m || |m| < capacity then m' == m[key := Stamped(value, now)]
      else exists old' :: IsOldest(m, old') && m' == (m - {old'})[key := Stamped(value, now)]
    case DoClear => m' == map[]
  }

  /** The store after a history, each operation at the time of its number. */
  ghost predicate StoreRun(capacity: int, ops: seq<Op>, m: Store)
  {
    if ops == [] then m == map[]
    else
      var n := |ops| - 1;
      exists before :: StoreRun(capacity, ops[..n], before) && StoreStep(before, n, capacity, ops[n], m)
  }

  predicate Holds(e: Entry, m: Store) { e.key in m && m[e.key].value == e.value }

  function TimeOf(e: Entry, m: Store): int { if e.key in m then m[e.key].time else -1 }

  /** The entries are those of the store, in increasing order of their last access before now. */
  ghost predicate Matches(s: seq<Entry>, m: Store, now: nat) {
    && (forall i :: 0 <= i < |s| ==> Holds(s[i], m) && TimeOf(s[i], m) < now)
    && (forall i, j :: 0 <= i < j < |s| ==> TimeOf(s[i], m) < TimeOf(s[j], m))
    && (forall k :: k in m ==> Has(s, k))
  }

  lemma {:induction false} MatchesDistinct(s: seq<Entry>, m: Store, now: nat)
    requires Matches(s, m, now)
    ensures Distinct(s)
    ensures forall i :: 0 <= i < |s| ==> Index(s, s[i].key) == i
  {
    forall i, j | 0 <= i < j < |s| ensures s[i].key != s[j].key {
      assert TimeOf(s[i], m) < TimeOf(s[j], m);
    }
    forall i | 0 <= i < |s| ensures Index(s, s[i].key) == i { IndexIs(s, i); }
  }

  function Keys(s: seq<Entry>): set<int> { set e | e in s :: e.key }

  lemma {:induction false} KeysCount(s: seq<Entry>)
    requires Distinct(s)
    ensures |Keys(s)| == |s|
  {
    if s != [] {
      var n := |s| - 1;
      KeysCount(s[..n]);
      assert Keys(s) == Keys(s[..n]) + {s[n].key};
      assert s[n].key !in Keys(s[..n]);
    }
  }

  lemma {:induction false} MatchesSize(s: seq<Entry>, m: Store, now: nat)
    requires Matches(s, m, now)
    ensures |m| == |s|
  {
    MatchesDistinct(s, m, now);
    KeysCount(s);
    forall k ensures k in m.Keys <==> k in Keys(s) {
      if k in m { assert s[Index(s, k)] in s; }
      if k in Keys(s) {
        var e :| e in s && e.key == k;
        assert Holds(e, m);
      }
    }
    assert m.Keys == Keys(s);
  }

  lemma HasAt(s: seq<Entry>, i: nat)
    requires i < |s|
    ensures Has(s, s[i].key)
  {}

  lemma {:induction false} InsertMatches(s: seq<Entry>, m: Store, now: nat, key: int, value: int)
    requires Matches(s, m, now) && key !in m
    ensures Matches(s + [Entry(key, value)], m[key := Stamped(value, now)], now + 1)
  {
    var t, m' := s + [Entry(key, value)], m[key := Stamped(value, now)];
    forall k | 0 <= k < |s| ensures t[k] == s[k] && t[k].key != key { assert Holds(s[k], m); }
    forall k | k in m' ensures Has(t, k) { HasAt(t, if k == key then |s| else Index(s, k)); }
  }

  lemma WithoutAt(s: seq<Entry>, i: nat)
    requires i < |s|
    ensures |Without(s, i)| == |s| - 1
    ensures forall k :: 0 <= k < |s| - 1 ==> Without(s, i)[k] == s[if k < i then k else k + 1]
  {}

  lemma Remains(e: Entry, m: Store, key: int)
    requires e.key != key
    ensures Holds(e, m - {key}) <==> Holds(e, m)
    ensures TimeOf(e, m - {key}) == TimeOf(e, m)
  {}

  lemma {:induction false} RemainsAt(s: seq<Entry>, m: Store, now: nat, i: nat, k: nat)
    requires Matches(s, m, now) && i < |s| && k < |s| - 1
    ensures var e := s[if k < i then k else k + 1]; var m' := m - {s[i].key};
      Without(s, i)[k] == e && Holds(e, m') && TimeOf(e, m') == TimeOf(e, m) < now
  {
    var j := if k < i then k else k + 1;
    WithoutAt(s, i);
    MatchesDistinct(s, m, now);
    assert Holds(s[j], m) && s[j].key != s[i].key;
    Remains(s[j], m, s[i].key);
  }

  lemma {:induction false} RemoveHas(s: seq<Entry>, m: Store, now: nat, i: nat, key: int)
    requires Matches(s, m, now) && i < |s| && key in m && key != s[i].key
    ensures Has(Without(s, i), key)
  {
    WithoutAt(s, i);
    var j := Index(s, key);
    HasAt(Without(s, i), if j < i then j else j - 1);
  }

  lemma {:induction false} RemoveMatches(s: seq<Entry>, m: Store, now: nat, i: nat)
    requires Matches(s, m, now) && i < |s|
    ensures Matches(Without(s, i), m - {s[i].key}, now)
  {
    var t, m' := Without(s, i), m - {s[i].key};
    forall k | 0 <= k < |t|
      ensures t[k] == s[if k < i then k else k + 1] && Holds(t[k], m') && TimeOf(t[k], m') == TimeOf(t[k], m) < now
    {
      RemainsAt(s, m, now, i, k);
    }
    forall k | k in m' ensures Has(t, k) { RemoveHas(s, m, now, i, k); }
  }

  /** Moving an entry to the end, with a new value, is accessing it now. */
  lemma {:induction false} AccessMatches(s: seq<Entry>, m: Store, now: nat, i: nat, value: int)
    requires Matches(s, m, now) && i < |s|
    ensures Matches(Without(s, i) + [Entry(s[i].key, value)], m[s[i].key := Stamped(value, now)], now + 1)
  {
    var key := s[i].key;
    RemoveMatches(s, m, now, i);
    InsertMatches(Without(s, i), m - {key}, now, key, value);
    assert (m - {key})[key := Stamped(value, now)] == m[key := Stamped(value, now)];
  }

  /** The head of the list is the one oldest entry. */
  lemma {:induction false} HeadIsOldest(s: seq<Entry>, m: Store, now: nat, key: int)
    requires Matches(s, m, now) && s != []
    ensures IsOldest(m, key) <==> key == s[0].key
  {
    MatchesDistinct(s, m, now);
    var head := s[0].key;
    assert Holds(s[0], m);
    forall k | k in m && k != head ensures m[head].time < m[k].time {
      assert TimeOf(s[0], m) < TimeOf(s[Index(s, k)], m);
    }
  }

  lemma {:induction false} HasIff(s: seq<Entry>, m: Store, now: nat, key: int)
    requires Matches(s, m, now)
    ensures Has(s, key) <==> key in m
  {
    if Has(s, key) { assert Holds(s[Index(s, key)], m); }
  }

  lemma {:induction false} PutMatches(s: seq<Entry>, m: Store, now: nat, capacity: int, key: int, value: int, m': Store)
    requires Matches(s, m, now) && capacity > 0 && key !in m && StoreStep(m, now, capacity, DoSet(key, value), m')
    ensures Matches(Put(s, capacity, key, value), m', now + 1)
  {
    MatchesSize(s, m, now);
    HasIff(s, m, now, key);
    if |s| >= capacity {
      var old' :| IsOldest(m, old') && m' == (m - {old'})[key := Stamped(value, now)];
      HeadIsOldest(s, m, now, old');
      RemoveMatches(s, m, now, 0);
      assert Without(s, 0) == s[1..];
      InsertMatches(s[1..], m - {old'}, now, key, value);
    } else {
      InsertMatches(s, m, now, key, value);
    }
  }

  lemma {:induction false} StepMatches(s: seq<Entry>, m: Store, now: nat, capacity: int, op: Op, m': Store)
    requires Matches(s, m, now) && StoreStep(m, now, capacity, op, m')
    ensures Matches(Do(s, capacity, op), m', now + 1)
  {
    if !op.DoClear? {
      HasIff(s, m, now, op.key);
      if Has(s, op.key) {
        var i := Index(s, op.key);
        assert Holds(s[i], m);
        AccessMatches(s, m, now, i, s[i].value);
        if op.DoSet? { AccessMatches(s, m, now, i, op.value); }
      } else if op.DoSet? && capacity > 0 {
        PutMatches(s, m, now, capacity, op.key, op.value, m');
      }
    }
  }

  /** Over every history, the list holds what a store of capacity keys holds that drops its least recently accessed key,
    * in the order of access times. */
  lemma {:induction false} LeastRecentlyUsed(capacity: int, ops: seq<Op>, m: Store)
    requires StoreRun(capacity, ops, m)
    ensures Matches(DoAll(capacity, ops), m, |ops|)
  {
    if ops != [] {
      var n := |ops| - 1;
      var before :| StoreRun(capacity, ops[..n], before) && StoreStep(before, n, capacity, ops[n], m);
      LeastRecentlyUsed(capacity, ops[..n], before);
      StepMatches(DoAll(capacity, ops[..n]), before, n, capacity, ops[n], m);
    }
  }

  /** There is such a store for every history. */
  lemma {:induction false} StoreExists(capacity: int, ops: seq<Op>) returns (m: Store)
    ensures StoreRun(capacity, ops, m)
  {
    if ops == [] {
      m := map[];
    } else {
      var n := |ops| - 1;
      var before := StoreExists(capacity, ops[..n]);
      LeastRecentlyUsed(capacity, ops[..n], before);
      m := StoreNext(DoAll(capacity, ops[..n]), before, n, capacity, ops[n]);
      assert StoreRun(capacity, ops[..n], before) && StoreStep(before, n, capacity, ops[n], m);
    }
  }

  lemma {:induction false} StoreNext(s: seq<Entry>, m: Store, now: nat, capacity: int, op: Op) returns (m': Store)
    requires Matches(s, m, now)
    ensures StoreStep(m, now, capacity, op, m')
  {
    MatchesSize(s, m, now);
    match op
    case DoGet(key) => m' := if key in m then m[key := Stamped(m[key].value, now)] else m;
    case DoClear => m' := map[];
    case DoSet(key, value) =>
      if capacity <= 0 {
        m' := m;
      } else if key in m || |m| < capacity {
        m' := m[key := Stamped(value, now)];
      } else {
        HeadIsOldest(s, m, now, s[0].key);
        m' := (m - {s[0].key})[key := Stamped(value, now)];
      }
  }

  /** The size never exceeds the capacity. */
  lemma {:induction false} WithinCapacity(capacity: int, ops: seq<Op>)
    ensures DoAll(capacity, ops) == [] || |DoAll(capacity, ops)| <= capacity
  {
    if ops != [] { WithinCapacity(capacity, ops[..|ops| - 1]); }
  }
}
