/** Parsing durations such as "-1.5h" or "2h45m" into 64-bit nanoseconds.
  *
  * Strings are sequences of bytes.  Arithmetic on int64 wraps around, as written out by Wrap.
  */
module Duration {

  type Byte = b: int | 0 <= b < 256

  const MAX := 0x7FFF_FFFF_FFFF_FFFF
  const DOT: Byte := 46
  const PLUS: Byte := 43
  const MINUS: Byte := 45
  const ZERO: Byte := 48
  const H: Byte := 104
  const M: Byte := 109
  const N: Byte := 110
  const S: Byte := 115
  const U: Byte := 117

  /** The int64 that x becomes. */
  function Wrap(x: int): (r: int)
    ensures -MAX - 1 <= r <= MAX
  {
    (x + MAX + 1) % 0x1_0000_0000_0000_0000 - MAX - 1
  }

  // ----- Numbers and units

  predicate IsDigit(c: Byte) { ZERO <= c <= ZERO + 9 }

  predicate AllDigits(s: seq<Byte>) { forall i :: 0 <= i < |s| ==> IsDigit(s[i]) }

  /** Value of a string of digits. */
  function Nat(s: seq<Byte>): int { if s == [] then 0 else Nat(s[..|s| - 1]) * 10 + (s[|s| - 1] - ZERO) }

  function Pow10(k: nat): int { if k == 0 then 1 else 10 * Pow10(k - 1) }

  /** Nanoseconds in "ns", "us" or either of its spellings with a Greek letter (U+00B5, U+03BC), "ms", "s", "m" and "h";
    * 0 if there is no such unit. */
  function UnitOf(u: seq<Byte>): nat {
    if |u| == 1 then
      if u[0] == S then 1_000_000_000
      else if u[0] == M then 60_000_000_000
      else if u[0] == H then 3_600_000_000_000
      else 0
    else if |u| == 2 && u[1] == S then
      if u[0] == N then 1
      else if u[0] == U then 1_000
      else if u[0] == M then 1_000_000
      else 0
    else if |u| == 3 && u[2] == S && ((u[0] == 0xC2 && u[1] == 0xB5) || (u[0] == 0xCE && u[1] == 0xBC)) then 1_000
    else 0
  }

  /** Where the digits that start at i end. */
  function DigitsEnd(s: seq<Byte>, i: nat): (j: nat)
    requires i <= |s|
    ensures i <= j <= |s|
    decreases |s| - i
  {
    if i == |s| || !IsDigit(s[i]) then i else DigitsEnd(s, i + 1)
  }

  predicate InUnit(c: Byte) { c != DOT && !IsDigit(c) }

  /** Where the bytes from i on that are neither digits nor points end. */
  function UnitEnd(s: seq<Byte>, i: nat): (j: nat)
    requires i <= |s|
    ensures i <= j <= |s|
    decreases |s| - i
  {
    if i == |s| || !InUnit(s[i]) then i else UnitEnd(s, i + 1)
  }

  /** The digits of a fraction that are used: the longest prefix whose value fits. */
  function Kept(s: seq<Byte>): (k: nat)
    ensures k <= |s|
  {
    if s == [] then 0
    else
      var k := Kept(s[..|s| - 1]);
      if k == |s| - 1 && Nat(s) <= MAX then |s| else k
  }

  // ----- The grammar

  datatype Fraction = NoPoint | Point(digits: seq<Byte>)

  datatype Item = Item(whole: seq<Byte>, frac: Fraction, name: seq<Byte>)

  function FracDigits(f: Fraction): seq<Byte> { if f.Point? then f.digits else [] }

  /** A number with a digit before or after its point, and a known unit. */
  predicate Valid(item: Item) {
    && AllDigits(item.whole) && AllDigits(FracDigits(item.frac))
    && (item.whole != [] || FracDigits(item.frac) != [])
    && UnitOf(item.name) > 0
  }

  function FracText(f: Fraction): seq<Byte> { if f.Point? then [DOT] + f.digits else [] }

  function ItemText(item: Item): seq<Byte> { item.whole + (FracText(item.frac) + item.name) }

  function Text(items: seq<Item>): seq<Byte> { if items == [] then [] else ItemText(items[0]) + Text(items[1..]) }

  predicate AllValid(items: seq<Item>) { forall i :: 0 <= i < |items| ==> Valid(items[i]) }

  /** int64(float64(f) * (float64(unit) / 10^k)). */
  type Scaling = (int, nat, int) -> int

  /** A fraction of a unit is between nothing and the unit, however it is rounded. */
  ghost predicate Rounds(scale: Scaling) {
    forall f: int, k: nat, unit: nat {:trigger scale(f, k, unit)} :: 0 < f < Pow10(k) ==> 0 <= scale(f, k, unit) <= unit
  }

  function FracValue(digits: seq<Byte>, unit: nat, scale: Scaling): int {
    var k := Kept(digits);
    if Nat(digits[..k]) > 0 then scale(Nat(digits[..k]), k, unit) else 0
  }

  function Value(item: Item, scale: Scaling): int {
    var unit := UnitOf(item.name);
    Nat(item.whole) * unit + FracValue(FracDigits(item.frac), unit, scale)
  }

  function Total(items: seq<Item>, scale: Scaling): int {
    if items == [] then 0 else Value(items[0], scale) + Total(items[1..], scale)
  }

  // ----- What the loop of ParseDuration computes, over unbounded integers

  datatype Outcome = Ok(d: int) | Invalid | MissingUnit | UnknownUnit(name: seq<Byte>)

  predicate HasPoint(s: seq<Byte>, i: nat) { i < |s| && s[i] == DOT }

  /** Where the number that starts at i ends. */
  function NumberEnd(s: seq<Byte>, i: nat): (j: nat)
    requires i <= |s|
    ensures i <= j <= |s|
  {
    var n := DigitsEnd(s, i);
    if HasPoint(s, n) then DigitsEnd(s, n + 1) else n
  }

  /** Where the item that starts at i ends. */
  function ItemEnd(s: seq<Byte>, i: nat): (j: nat)
    requires i <= |s|
    ensures i <= j <= |s|
  {
    UnitEnd(s, NumberEnd(s, i))
  }

  /** The number and unit that start at i. */
  function ItemAt(s: seq<Byte>, i: nat): Item
    requires i <= |s|
  {
    var n := DigitsEnd(s, i);
    var m := NumberEnd(s, i);
    Item(s[i..n], if HasPoint(s, n) then Point(s[n + 1..m]) else NoPoint, s[m..ItemEnd(s, i)])
  }

  /** What one item is worth, or what is wrong with it. */
  function Worth(item: Item, scale: Scaling): Outcome {
    if Nat(item.whole) > MAX then Invalid
    else if item.whole == [] && FracDigits(item.frac) == [] then Invalid
    else if item.name == [] then MissingUnit
    else if UnitOf(item.name) == 0 then UnknownUnit(item.name)
    else if Value(item, scale) > MAX then Invalid
    else Ok(Value(item, scale))
  }

  /** One turn of the loop: it ends with an error, or takes an item worth v and goes on at next. */
  datatype Step = Halt(error: Outcome) | Take(v: int, next: nat)

  function StepAt(s: seq<Byte>, i: nat, scale: Scaling): Step
    requires i < |s|
  {
    if InUnit(s[i]) then Halt(Invalid)
    else
      var r := Worth(ItemAt(s, i), scale);
      if r.Ok? then Take(r.d, ItemEnd(s, i)) else Halt(r)
  }

  /** The turns of the loop at every position. */
  function StepsOf(s: seq<Byte>, scale: Scaling): seq<Step> {
    seq(|s|, i requires 0 <= i < |s| => StepAt(s, i, scale))
  }

  /** The loop from position i on, with d nanoseconds so far. */
  function Loop(steps: seq<Step>, i: nat, d: int): Outcome
    decreases |steps| - i
  {
    if i >= |steps| then Ok(d)
    else
      var t := steps[i];
      if t.Halt? then t.error
      else if d + t.v > MAX || !(i < t.next <= |steps|) then Invalid
      else Loop(steps, t.next, d + t.v)
  }

  function Unsigned(s: seq<Byte>): seq<Byte> { if s != [] && s[0] in {PLUS, MINUS} then s[1..] else s }

  function Negative(s: seq<Byte>): bool { s != [] && s[0] == MINUS }

  function Meaning(s: seq<Byte>, scale: Scaling): Outcome {
    var t := Unsigned(s);
    if t == [ZERO] then Ok(0)
    else if t == [] then Invalid
    else
      var r := Loop(StepsOf(t, scale), 0, 0);
      if r.Ok? && Negative(s) then Ok(-r.d) else r
  }

  // ----- Facts about digits

  lemma {:induction false} NatGrows(s: seq<Byte>, n: nat)
    requires AllDigits(s) && n <= |s|
    ensures 0 <= Nat(s[..n]) <= Nat(s)
  {
    if n == |s| {
      assert s[..n] == s;
      if n > 0 { NatGrows(s[..n - 1], n - 1); }
    } else {
      NatGrows(s[..|s| - 1], n);
      assert s[..|s| - 1][..n] == s[..n];
    }
  }

  lemma {:induction false} NatBelow(s: seq<Byte>)
    requires AllDigits(s)
    ensures 0 <= Nat(s) < Pow10(|s|)
  {
    if s != [] { NatBelow(s[..|s| - 1]); }
  }

  lemma {:induction false} DigitsEndOf(s: seq<Byte>, i: nat)
    requires i <= |s|
    ensures var j := DigitsEnd(s, i); AllDigits(s[i..j]) && (j < |s| ==> !IsDigit(s[j]))
    decreases |s| - i
  {
    if i < |s| && IsDigit(s[i]) {
      DigitsEndOf(s, i + 1);
      var j := DigitsEnd(s, i);
      forall k | 0 <= k < j - i ensures IsDigit(s[i..j][k]) {
        if k > 0 { assert IsDigit(s[i + 1..j][k - 1]); }
      }
    }
  }

  lemma {:induction false} DigitsEndIs(s: seq<Byte>, i: nat, j: nat)
    requires i <= j <= |s| && (forall k :: i <= k < j ==> IsDigit(s[k])) && (j < |s| ==> !IsDigit(s[j]))
    ensures DigitsEnd(s, i) == j
    decreases j - i
  {
    if i < j { DigitsEndIs(s, i + 1, j); }
  }

  lemma {:induction false} UnitEndIs(s: seq<Byte>, i: nat, j: nat)
    requires i <= j <= |s| && (forall k :: i <= k < j ==> InUnit(s[k])) && (j < |s| ==> !InUnit(s[j]))
    ensures UnitEnd(s, i) == j
    decreases j - i
  {
    if i < j { UnitEndIs(s, i + 1, j); }
  }

  /** The fraction keeps all its first n digits exactly when their value fits. */
  lemma {:induction false} KeptPrefix(s: seq<Byte>, n: nat)
    requires AllDigits(s) && n <= |s|
    ensures Nat(s[..n]) <= MAX <==> n <= Kept(s)
    ensures Nat(s[..Kept(s)]) <= MAX
    decreases |s|
  {
    if s == [] {
      assert s[..0] == [];
    } else {
      var t := s[..|s| - 1];
      KeptPrefix(t, |t|);
      assert t[..|t|] == t && s[..|s|] == s && t[..Kept(t)] == s[..Kept(t)];
      NatGrows(s, |t|);
      if n < |s| {
        KeptPrefix(t, n);
        assert t[..n] == s[..n];
      }
    }
  }

  // ----- The loop reads exactly the grammar

  lemma ThreeParts(s: seq<Byte>, i: nat, n: nat, m: nat, e: nat)
    requires i <= n <= m <= e <= |s|
    ensures s[i..n] + (s[n..m] + s[m..e]) == s[i..e]
  {}

  lemma {:induction false} FracTextAt(s: seq<Byte>, i: nat)
    requires i <= |s|
    ensures var frac := ItemAt(s, i).frac;
      FracText(frac) == s[DigitsEnd(s, i)..NumberEnd(s, i)] && AllDigits(FracDigits(frac))
  {
    var n, m := DigitsEnd(s, i), NumberEnd(s, i);
    if HasPoint(s, n) {
      DigitsEndOf(s, n + 1);
      assert [DOT] + s[n + 1..m] == s[n..m];
    }
  }

  /** Cutting off an item loses nothing. */
  lemma {:induction false} ItemTextAt(s: seq<Byte>, i: nat)
    requires i <= |s|
    ensures var item := ItemAt(s, i);
      ItemText(item) == s[i..ItemEnd(s, i)] && AllDigits(item.whole) && AllDigits(FracDigits(item.frac))
  {
    DigitsEndOf(s, i);
    FracTextAt(s, i);
    ThreeParts(s, i, DigitsEnd(s, i), NumberEnd(s, i), ItemEnd(s, i));
  }

  /** The names of units are free of digits and points. */
  lemma NamesAreUnits(name: seq<Byte>)
    requires UnitOf(name) > 0
    ensures name != [] && AllInUnit(name)
  {}

  predicate AllInUnit(name: seq<Byte>) { forall i :: 0 <= i < |name| ==> InUnit(name[i]) }

  /** A number with a digit before or after its point, and a name, which may be unknown, or missing at the end. */
  predicate WellFormed(item: Item, rest: seq<Byte>) {
    && AllDigits(item.whole) && AllDigits(FracDigits(item.frac))
    && (item.whole != [] || FracDigits(item.frac) != [])
    && AllInUnit(item.name) && (item.name == [] ==> rest == [])
  }

  /** What follows an item: the end, or a digit or point. */
  predicate Starts(s: seq<Byte>) { s != [] ==> !InUnit(s[0]) }

  /** The text of an item stands at position i. */
  predicate StandsAt(s: seq<Byte>, i: nat, text: seq<Byte>) { i + |text| <= |s| && s[i..i + |text|] == text }

  lemma {:induction false} StandsIn(s: seq<Byte>, i: nat, a: seq<Byte>, b: seq<Byte>)
    requires StandsAt(s, i, a + b)
    ensures StandsAt(s, i, a) && StandsAt(s, i + |a|, b)
  {
    var n := |a + b|;
    assert s[i..i + n][..|a|] == a && s[i..i + n][|a|..] == b;
    assert s[i..i + n][..|a|] == s[i..i + |a|] && s[i..i + n][|a|..] == s[i + |a|..i + n];
  }

  lemma {:induction false} StandingAt(s: seq<Byte>, i: nat, text: seq<Byte>, k: nat)
    requires StandsAt(s, i, text) && i <= k < i + |text|
    ensures s[k] == text[k - i]
  {
    assert s[i..i + |text|][k - i] == s[k];
  }

  lemma {:induction false} NumberStands(s: seq<Byte>, i: nat, whole: seq<Byte>, frac: Fraction)
    requires AllDigits(whole) && AllDigits(FracDigits(frac))
    requires StandsAt(s, i, whole) && StandsAt(s, i + |whole|, FracText(frac))
    requires var j := i + |whole| + |FracText(frac)|; j < |s| ==> InUnit(s[j])
    ensures DigitsEnd(s, i) == i + |whole|
    ensures HasPoint(s, i + |whole|) <==> frac.Point?
    ensures NumberEnd(s, i) == i + |whole| + |FracText(frac)|
  {
    var n, j := i + |whole|, i + |whole| + |FracText(frac)|;
    forall k | i <= k < n ensures IsDigit(s[k]) { StandingAt(s, i, whole, k); }
    if frac.Point? {
      forall k | n <= k < j ensures s[k] == FracText(frac)[k - n] { StandingAt(s, n, FracText(frac), k); }
      assert s[n] == DOT;
      forall k | n + 1 <= k < j ensures IsDigit(s[k]) { assert s[k] == frac.digits[k - n - 1]; }
      DigitsEndIs(s, n + 1, j);
    }
    DigitsEndIs(s, i, n);
  }

  lemma ItemAtIs(s: seq<Byte>, i: nat, n: nat, m: nat, e: nat, item: Item)
    requires i <= n <= m <= e <= |s| && DigitsEnd(s, i) == n && NumberEnd(s, i) == m && UnitEnd(s, m) == e
    requires HasPoint(s, n) <==> item.frac.Point?
    requires n == i + |item.whole| && m == n + |FracText(item.frac)| && e == m + |item.name|
    requires StandsAt(s, i, item.whole) && StandsAt(s, m, item.name)
    requires item.frac.Point? ==> StandsAt(s, n + 1, item.frac.digits)
    ensures ItemAt(s, i) == item && ItemEnd(s, i) == e
  {}

  lemma {:induction false} PartsStand(s: seq<Byte>, i: nat, item: Item)
    requires StandsAt(s, i, ItemText(item))
    ensures var n := i + |item.whole|; var m := n + |FracText(item.frac)|;
      && StandsAt(s, i, item.whole) && StandsAt(s, n, FracText(item.frac)) && StandsAt(s, m, item.name)
      && (item.frac.Point? ==> StandsAt(s, n + 1, item.frac.digits))
  {
    var f, n := FracText(item.frac), i + |item.whole|;
    StandsIn(s, i, item.whole, f + item.name);
    StandsIn(s, n, f, item.name);
    if item.frac.Point? { StandsIn(s, n, [DOT], item.frac.digits); }
  }

  lemma {:induction false} NameStands(s: seq<Byte>, m: nat, name: seq<Byte>)
    requires AllInUnit(name) && StandsAt(s, m, name) && Starts(s[m + |name|..])
    ensures name != [] ==> m < |s| && InUnit(s[m])
    ensures UnitEnd(s, m) == m + |name|
  {
    var e := m + |name|;
    forall k | m <= k < e ensures InUnit(s[k]) { StandingAt(s, m, name, k); }
    assert e < |s| ==> s[e] == s[e..][0];
    UnitEndIs(s, m, e);
  }

  /** Reading an item back, when the end or a digit or point follows it. */
  lemma {:induction false} ItemStands(s: seq<Byte>, i: nat, item: Item)
    requires StandsAt(s, i, ItemText(item)) && Starts(s[i + |ItemText(item)|..])
    requires WellFormed(item, s[i + |ItemText(item)|..])
    ensures ItemAt(s, i) == item && ItemEnd(s, i) == i + |ItemText(item)|
  {
    var n := i + |item.whole|;
    var m := n + |FracText(item.frac)|;
    PartsStand(s, i, item);
    NameStands(s, m, item.name);
    NumberStands(s, i, item.whole, item.frac);
    ItemAtIs(s, i, n, m, m + |item.name|, item);
  }

  lemma {:induction false} ItemStarts(item: Item, rest: seq<Byte>)
    requires WellFormed(item, rest)
    ensures ItemText(item) + rest != [] && !InUnit((ItemText(item) + rest)[0])
  {
    if item.whole != [] { assert (ItemText(item) + rest)[0] == item.whole[0]; }
  }

  lemma {:induction false} TextStarts(items: seq<Item>)
    requires AllValid(items)
    ensures Starts(Text(items)) && (Text(items) == [] <==> items == [])
  {
    if items != [] {
      NamesAreUnits(items[0].name);
      ItemStarts(items[0], Text(items[1..]));
    }
  }

  lemma {:induction false} ScaledBounds(digits: seq<Byte>, unit: nat, scale: Scaling)
    requires AllDigits(digits) && Rounds(scale)
    ensures 0 <= FracValue(digits, unit, scale) <= unit
  {
    var k := Kept(digits);
    NatBelow(digits[..k]);
  }

  lemma MulAtLeast(a: int, b: int)
    requires a >= 0 && b >= 1
    ensures a * b >= a
  {}

  lemma {:induction false} ValueBounds(item: Item, scale: Scaling)
    requires Valid(item) && Rounds(scale)
    ensures 0 <= Nat(item.whole) <= Value(item, scale)
  {
    NatBelow(item.whole);
    MulAtLeast(Nat(item.whole), UnitOf(item.name));
    ScaledBounds(FracDigits(item.frac), UnitOf(item.name), scale);
  }

  function Fit(v: int): Outcome { if v > MAX then Invalid else Ok(v) }

  lemma {:induction false} WorthOf(item: Item, scale: Scaling)
    requires Rounds(scale) && AllDigits(item.whole) && AllDigits(FracDigits(item.frac))
    ensures Valid(item) ==> Value(item, scale) >= 0 && Worth(item, scale) == Fit(Value(item, scale))
    ensures !Valid(item) ==> !Worth(item, scale).Ok?
  {
    if Valid(item) {
      NamesAreUnits(item.name);
      ValueBounds(item, scale);
    }
  }

  lemma {:induction false} TextStands(s: seq<Byte>, i: nat, a: seq<Byte>, b: seq<Byte>)
    requires i <= |s| && s[i..] == a + b
    ensures StandsAt(s, i, a) && s[i + |a|..] == b
  {
    assert s[i..][..|a|] == s[i..i + |a|] && s[i..][|a|..] == s[i + |a|..];
  }

  lemma {:induction false} ItemHere(s: seq<Byte>, i: nat, item: Item, rest: seq<Byte>) returns (e: nat)
    requires WellFormed(item, rest) && Starts(rest) && i <= |s| && s[i..] == ItemText(item) + rest
    ensures i < e <= |s| && s[e..] == rest && !InUnit(s[i]) && ItemAt(s, i) == item && ItemEnd(s, i) == e
  {
    e := i + |ItemText(item)|;
    ItemStarts(item, rest);
    TextStands(s, i, ItemText(item), rest);
    assert s[i] == s[i..][0];
    ItemStands(s, i, item);
  }

  lemma {:induction false} StepHere(s: seq<Byte>, i: nat, item: Item, rest: seq<Byte>, scale: Scaling) returns (e: nat)
    requires Valid(item) && Starts(rest) && Rounds(scale) && i <= |s| && s[i..] == ItemText(item) + rest
    ensures i < e <= |s| && s[e..] == rest && Value(item, scale) >= 0
    ensures StepAt(s, i, scale) == if Value(item, scale) > MAX then Halt(Invalid) else Take(Value(item, scale), e)
  {
    NamesAreUnits(item.name);
    e := ItemHere(s, i, item, rest);
    WorthOf(item, scale);
  }

  // The loop sees a text as a chain of steps only.

  datatype Part = Part(v: int, next: nat)

  function StepOf(p: Part): Step { if p.v > MAX then Halt(Invalid) else Take(p.v, p.next) }

  /** The parts are what the loop meets from position i on until e. */
  predicate Meets(steps: seq<Step>, i: nat, parts: seq<Part>, e: nat)
    decreases |parts|
  {
    if parts == [] then i == e
    else
      var p := parts[0];
      i < p.next <= |steps| && p.v >= 0 && steps[i] == StepOf(p) && Meets(steps, p.next, parts[1..], e)
  }

  function SumOf(parts: seq<Part>): int { if parts == [] then 0 else parts[0].v + SumOf(parts[1..]) }

  lemma {:induction false} LoopOfParts(steps: seq<Step>, i: nat, d: int, parts: seq<Part>)
    requires Meets(steps, i, parts, |steps|) && 0 <= d <= MAX
    ensures SumOf(parts) >= 0 && Loop(steps, i, d) == Fit(d + SumOf(parts))
    decreases |parts|
  {
    if parts != [] {
      var p := parts[0];
      if d + p.v <= MAX { LoopOfParts(steps, p.next, d + p.v, parts[1..]); } else { SumOfParts(steps, i, parts); }
    }
  }

  lemma {:induction false} SumOfParts(steps: seq<Step>, i: nat, parts: seq<Part>)
    requires Meets(steps, i, parts, |steps|)
    ensures SumOf(parts) >= 0 && (parts != [] ==> SumOf(parts) >= parts[0].v)
    decreases |parts|
  {
    if parts != [] { SumOfParts(steps, parts[0].next, parts[1..]); }
  }

  /** A loop that halts with errors only, and succeeds, met parts that sum up to its result. */
  lemma {:induction false} PartsOfLoop(steps: seq<Step>, i: nat, d: int) returns (parts: seq<Part>)
    requires i <= |steps| && Loop(steps, i, d).Ok?
    requires forall k :: 0 <= k < |steps| ==> if steps[k].Halt? then !steps[k].error.Ok? else 0 <= steps[k].v <= MAX
    ensures Meets(steps, i, parts, |steps|) && Loop(steps, i, d).d == d + SumOf(parts)
    decreases |steps| - i
  {
    if i == |steps| {
      parts := [];
    } else {
      var t := steps[i];
      var more := PartsOfLoop(steps, t.next, d + t.v);
      parts := [Part(t.v, t.next)] + more;
      assert parts[1..] == more;
    }
  }

  ghost predicate Follows(steps: seq<Step>, s: seq<Byte>, scale: Scaling) {
    |steps| == |s| && forall i: nat {:trigger StepAt(s, i, scale)} :: i < |s| ==> steps[i] == StepAt(s, i, scale)
  }

  lemma {:induction false} PartHere(s: seq<Byte>, i: nat, item: Item, rest: seq<Byte>, scale: Scaling, steps: seq<Step>)
    returns (p: Part)
    requires Valid(item) && Starts(rest) && Rounds(scale) && i <= |s| && s[i..] == ItemText(item) + rest
    requires Follows(steps, s, scale)
    ensures i < p.next <= |s| && s[p.next..] == rest && p.v == Value(item, scale) >= 0 && steps[i] == StepOf(p)
  {
    var e := StepHere(s, i, item, rest, scale);
    p := Part(Value(item, scale), e);
  }

  lemma MoreStarts(a: seq<Byte>, b: seq<Byte>)
    requires Starts(a) && Starts(b)
    ensures Starts(a + b)
  {}

  lemma SplitText(items: seq<Item>, rest: seq<Byte>)
    requires items != []
    ensures Text(items) + rest == ItemText(items[0]) + (Text(items[1..]) + rest)
  {}

  lemma {:induction false} PartsOfText(s: seq<Byte>, i: nat, items: seq<Item>, rest: seq<Byte>, scale: Scaling,
                                       steps: seq<Step>)
    returns (parts: seq<Part>, e: nat)
    requires AllValid(items) && Starts(rest) && Rounds(scale) && Follows(steps, s, scale)
    requires i <= |s| && s[i..] == Text(items) + rest
    ensures Meets(steps, i, parts, e) && SumOf(parts) == Total(items, scale) && e <= |s| && s[e..] == rest
    decreases |items|
  {
    if items == [] {
      parts, e := [], i;
      assert Text(items) + rest == rest;
    } else {
      TextStarts(items[1..]);
      MoreStarts(Text(items[1..]), rest);
      SplitText(items, rest);
      var p := PartHere(s, i, items[0], Text(items[1..]) + rest, scale, steps);
      var more;
      more, e := PartsOfText(s, p.next, items[1..], rest, scale, steps);
      parts := [p] + more;
      assert parts[1..] == more;
    }
  }

  lemma {:induction false} PartsOfAll(s: seq<Byte>, items: seq<Item>, scale: Scaling, steps: seq<Step>)
    returns (parts: seq<Part>)
    requires AllValid(items) && Rounds(scale) && Follows(steps, s, scale) && s == Text(items)
    ensures Meets(steps, 0, parts, |steps|) && SumOf(parts) == Total(items, scale)
  {
    assert s[0..] == s && s + [] == s;
    var e: nat;
    parts, e := PartsOfText(s, 0, items, [], scale, steps);
    assert |s[e..]| == 0;
  }

  lemma {:induction false} LoopFollowing(items: seq<Item>, s: seq<Byte>, scale: Scaling, steps: seq<Step>)
    requires AllValid(items) && Rounds(scale) && Follows(steps, s, scale) && s == Text(items)
    ensures Loop(steps, 0, 0) == Fit(Total(items, scale))
  {
    var parts := PartsOfAll(s, items, scale, steps);
    LoopOfParts(steps, 0, 0, parts);
  }

  /** On a text of the grammar the loop succeeds exactly when the sum fits. */
  lemma {:induction false} LoopOfText(items: seq<Item>, scale: Scaling)
    requires AllValid(items) && Rounds(scale)
    ensures Loop(StepsOf(Text(items), scale), 0, 0) == Fit(Total(items, scale))
  {
    LoopFollowing(items, Text(items), scale, StepsOf(Text(items), scale));
  }

  lemma {:induction false} ItemTaken(s: seq<Byte>, i: nat, scale: Scaling) returns (item: Item)
    requires i < |s| && StepAt(s, i, scale).Take? && Rounds(scale)
    ensures Valid(item) && StepAt(s, i, scale).v == Value(item, scale)
    ensures i < StepAt(s, i, scale).next <= |s| && ItemText(item) == s[i..StepAt(s, i, scale).next]
  {
    item := ItemAt(s, i);
    ItemTextAt(s, i);
    WorthOf(item, scale);
    NamesAreUnits(item.name);
  }

  lemma {:induction false} StepIsFair(s: seq<Byte>, i: nat, scale: Scaling)
    requires i < |s| && Rounds(scale)
    ensures var t := StepAt(s, i, scale); if t.Halt? then !t.error.Ok? else 0 <= t.v <= MAX
  {
    ItemTextAt(s, i);
    WorthOf(ItemAt(s, i), scale);
  }

  lemma {:induction false} TextOfMore(s: seq<Byte>, i: nat, e: nat, item: Item, more: seq<Item>, scale: Scaling)
    requires i <= e <= |s| && ItemText(item) == s[i..e] && Text(more) == s[e..]
    ensures Text([item] + more) == s[i..] && Total([item] + more, scale) == Value(item, scale) + Total(more, scale)
  {
    assert ([item] + more)[1..] == more && s[i..] == s[i..e] + s[e..];
  }

  lemma {:induction false} TextOfParts(s: seq<Byte>, i: nat, parts: seq<Part>, scale: Scaling, steps: seq<Step>)
    returns (items: seq<Item>)
    requires Rounds(scale) && Follows(steps, s, scale) && Meets(steps, i, parts, |steps|) && i <= |s|
    requires forall k :: 0 <= k < |parts| ==> parts[k].v <= MAX
    ensures AllValid(items) && Text(items) == s[i..] && Total(items, scale) == SumOf(parts)
    decreases |parts|
  {
    if parts == [] {
      items := [];
    } else {
      var p := parts[0];
      assert StepAt(s, i, scale) == Take(p.v, p.next);
      var item := ItemTaken(s, i, scale);
      var more := TextOfParts(s, p.next, parts[1..], scale, steps);
      items := [item] + more;
      TextOfMore(s, i, p.next, item, more, scale);
    }
  }

  lemma {:induction false} PartsFit(steps: seq<Step>, i: nat, parts: seq<Part>)
    requires Meets(steps, i, parts, |steps|) && SumOf(parts) <= MAX
    ensures forall k :: 0 <= k < |parts| ==> parts[k].v <= MAX
    decreases |parts|
  {
    SumOfParts(steps, i, parts);
    if parts != [] {
      SumOfParts(steps, parts[0].next, parts[1..]);
      PartsFit(steps, parts[0].next, parts[1..]);
    }
  }

  lemma {:induction false} LoopFits(steps: seq<Step>, i: nat, d: int)
    requires Loop(steps, i, d).Ok? && d <= MAX
    requires forall k :: 0 <= k < |steps| ==> steps[k].Halt? ==> !steps[k].error.Ok?
    ensures Loop(steps, i, d).d <= MAX
    decreases |steps| - i
  {
    if i < |steps| { LoopFits(steps, steps[i].next, d + steps[i].v); }
  }

  /** What the loop accepts is a text of the grammar, and its value is the sum. */
  lemma {:induction false} TextOfLoop(s: seq<Byte>, scale: Scaling) returns (items: seq<Item>)
    requires Rounds(scale) && Loop(StepsOf(s, scale), 0, 0).Ok?
    ensures AllValid(items) && Text(items) == s && Loop(StepsOf(s, scale), 0, 0).d == Total(items, scale) <= MAX
  {
    var steps := StepsOf(s, scale);
    forall k | 0 <= k < |steps|
      ensures if steps[k].Halt? then !steps[k].error.Ok? else 0 <= steps[k].v <= MAX
    {
      StepIsFair(s, k, scale);
    }
    var parts := PartsOfLoop(steps, 0, 0);
    LoopFits(steps, 0, 0);
    PartsFit(steps, 0, parts);
    items := TextOfParts(s, 0, parts, scale, steps);
    assert s[0..] == s;
  }

  datatype Sign = Bare | Plus | Minus

  function SignText(sign: Sign): seq<Byte> { match sign case Bare => [] case Plus => [PLUS] case Minus => [MINUS] }

  function Signed(sign: Sign, d: int): int { if sign == Minus then -d else d }

  lemma {:induction false} UnsignedText(sign: Sign, t: seq<Byte>)
    requires t != [] && !InUnit(t[0])
    ensures Unsigned(SignText(sign) + t) == t && (Negative(SignText(sign) + t) <==> sign == Minus)
  {
    match sign
    case Bare => assert [] + t == t;
    case Plus => assert ([PLUS] + t)[1..] == t;
    case Minus => assert ([MINUS] + t)[1..] == t;
  }

  lemma {:induction false} TextIsNotZero(items: seq<Item>)
    requires AllValid(items) && items != []
    ensures Text(items) != [ZERO]
  {
    var item := items[0];
    var k := |item.whole| + |FracText(item.frac)|;
    NamesAreUnits(item.name);
    assert Text(items)[k] == item.name[0];
  }

  /** Every duration that can be written is read back as its value, if that fits an int64. */
  lemma {:induction false} PrintedParses(sign: Sign, items: seq<Item>, scale: Scaling)
    requires AllValid(items) && items != [] && Rounds(scale)
    ensures Meaning(SignText(sign) + Text(items), scale) ==
            if Total(items, scale) <= MAX then Ok(Signed(sign, Total(items, scale))) else Invalid
  {
    TextStarts(items);
    UnsignedText(sign, Text(items));
    TextIsNotZero(items);
    LoopOfText(items, scale);
  }

  lemma {:induction false} SignOf(s: seq<Byte>) returns (sign: Sign)
    ensures s == SignText(sign) + Unsigned(s) && (Negative(s) <==> sign == Minus)
  {
    sign := if s != [] && s[0] == PLUS then Plus else if s != [] && s[0] == MINUS then Minus else Bare;
    if sign != Bare { assert s == [s[0]] + s[1..]; }
  }

  /** Nothing else is read, except a bare zero. */
  lemma {:induction false} ParsedIsPrinted(s: seq<Byte>, scale: Scaling) returns (sign: Sign, items: seq<Item>)
    requires Meaning(s, scale).Ok? && Rounds(scale)
    ensures AllValid(items)
    ensures if items == [] then s == SignText(sign) + [ZERO] && Meaning(s, scale).d == 0
            else s == SignText(sign) + Text(items) && Meaning(s, scale).d == Signed(sign, Total(items, scale))
  {
    var t := Unsigned(s);
    sign := SignOf(s);
    if t == [ZERO] {
      items := [];
    } else {
      items := TextOfLoop(t, scale);
    }
  }

  lemma {:induction false} BareZero(sign: Sign, scale: Scaling)
    ensures Meaning(SignText(sign) + [ZERO], scale) == Ok(0)
  {
    UnsignedText(sign, [ZERO]);
  }

  /** The loop gets past parts whose sum fits. */
  lemma {:induction false} LoopPasses(steps: seq<Step>, i: nat, parts: seq<Part>, e: nat, d: int)
    requires Meets(steps, i, parts, e) && e <= |steps| && 0 <= d && d + SumOf(parts) <= MAX
    ensures Loop(steps, i, d) == Loop(steps, e, d + SumOf(parts))
    decreases |parts|
  {
    if parts != [] {
      SumNotNegative(steps, parts[0].next, parts[1..], e);
      LoopPasses(steps, parts[0].next, parts[1..], e, d + parts[0].v);
    }
  }

  lemma {:induction false} SumNotNegative(steps: seq<Step>, i: nat, parts: seq<Part>, e: nat)
    requires Meets(steps, i, parts, e)
    ensures SumOf(parts) >= 0
    decreases |parts|
  {
    if parts != [] { SumNotNegative(steps, parts[0].next, parts[1..], e); }
  }

  lemma {:induction false} UnitErrorHere(s: seq<Byte>, e: nat, bad: Item, rest: seq<Byte>, scale: Scaling)
    requires e <= |s| && s[e..] == ItemText(bad) + rest
    requires WellFormed(bad, rest) && Starts(rest) && UnitOf(bad.name) == 0 && Nat(bad.whole) <= MAX
    ensures e < |s| && StepAt(s, e, scale) == Halt(if bad.name == [] then MissingUnit else UnknownUnit(bad.name))
  {
    var next := ItemHere(s, e, bad, rest);
  }

  lemma {:induction false} LoopGetsTo(s: seq<Byte>, items: seq<Item>, tail: seq<Byte>, scale: Scaling, steps: seq<Step>)
    returns (e: nat)
    requires AllValid(items) && Rounds(scale) && Total(items, scale) <= MAX && Follows(steps, s, scale)
    requires Starts(tail) && s == Text(items) + tail
    ensures e <= |s| && s[e..] == tail && Loop(steps, 0, 0) == Loop(steps, e, Total(items, scale))
  {
    var parts;
    assert s[0..] == s;
    parts, e := PartsOfText(s, 0, items, tail, scale, steps);
    LoopPasses(steps, 0, parts, e, 0);
  }

  lemma {:induction false} LoopFails(s: seq<Byte>, items: seq<Item>, bad: Item, rest: seq<Byte>, scale: Scaling,
                                     steps: seq<Step>)
    requires AllValid(items) && Rounds(scale) && Total(items, scale) <= MAX && Follows(steps, s, scale)
    requires WellFormed(bad, rest) && Starts(rest) && UnitOf(bad.name) == 0 && Nat(bad.whole) <= MAX
    requires s == Text(items) + (ItemText(bad) + rest)
    ensures Loop(steps, 0, 0) == if bad.name == [] then MissingUnit else UnknownUnit(bad.name)
  {
    ItemStarts(bad, rest);
    var e := LoopGetsTo(s, items, ItemText(bad) + rest, scale, steps);
    UnitErrorHere(s, e, bad, rest, scale);
  }

  /** Behind items whose sum fits, a number without a unit, or with an unknown one, is what the error is about. */
  lemma {:induction false} UnitErrors(sign: Sign, items: seq<Item>, bad: Item, rest: seq<Byte>, scale: Scaling)
    requires AllValid(items) && Rounds(scale) && Total(items, scale) <= MAX
    requires WellFormed(bad, rest) && Starts(rest) && UnitOf(bad.name) == 0 && Nat(bad.whole) <= MAX
    requires items == [] ==> ItemText(bad) + rest != [ZERO]
    ensures Meaning(SignText(sign) + (Text(items) + (ItemText(bad) + rest)), scale) ==
            if bad.name == [] then MissingUnit else UnknownUnit(bad.name)
  {
    var tail := ItemText(bad) + rest;
    ItemStarts(bad, rest);
    TextStarts(items);
    MoreStarts(Text(items), tail);
    UnsignedText(sign, Text(items) + tail);
    if items != [] { LongText(items, tail); } else { assert Text(items) + tail == tail; }
    LoopFails(Text(items) + tail, items, bad, rest, scale, StepsOf(Text(items) + tail, scale));
  }

  lemma {:induction false} LongText(items: seq<Item>, tail: seq<Byte>)
    requires AllValid(items) && items != []
    ensures Text(items) + tail != [ZERO]
  {
    TextIsNotZero(items);
    TextStarts(items);
    if tail != [] { assert |Text(items) + tail| >= 2; }
  }

  /** Sum of n times unit. */
  function WholeTotal(items: seq<Item>): int {
    if items == [] then 0 else Nat(items[0].whole) * UnitOf(items[0].name) + WholeTotal(items[1..])
  }

  lemma {:induction false} NatOfZeros(s: seq<Byte>)
    requires forall i :: 0 <= i < |s| ==> s[i] == ZERO
    ensures Nat(s) == 0
  {
    if s != [] { NatOfZeros(s[..|s| - 1]); }
  }

  /** Without fractions, or with zero fractions, the value is the exact sum whatever the rounding of floats. */
  lemma {:induction false} ZeroFractions(items: seq<Item>, scale: Scaling)
    requires forall i, j :: 0 <= i < |items| && 0 <= j < |FracDigits(items[i].frac)| ==>
                              FracDigits(items[i].frac)[j] == ZERO
    ensures Total(items, scale) == WholeTotal(items)
  {
    if items != [] {
      var digits := FracDigits(items[0].frac);
      NatOfZeros(digits[..Kept(digits)]);
      ZeroFractions(items[1..], scale);
    }
  }

  // ----- What the units and fractions are worth

  const NANOSECOND: seq<Byte> := [N, S]
  const MICROSECOND: seq<Byte> := [U, S]
  const MICROSIGN: seq<Byte> := [0xC2, 0xB5, S]
  const GREEKMU: seq<Byte> := [0xCE, 0xBC, S]
  const MILLISECOND: seq<Byte> := [M, S]
  const SECOND: seq<Byte> := [S]
  const MINUTE: seq<Byte> := [M]
  const HOUR: seq<Byte> := [H]

  /** So many of the small unit are one of the big unit. */
  predicate Makes(k: nat, small: seq<Byte>, big: seq<Byte>) {
    || (k == 60 && ((small == MINUTE && big == HOUR) || (small == SECOND && big == MINUTE)))
    || (k == 1000 && ((small == MILLISECOND && big == SECOND) || (small == MICROSECOND && big == MILLISECOND)))
    || (k == 1000 && small == NANOSECOND && big == MICROSECOND)
    || (k == 1 && small == MICROSECOND && (big == MICROSIGN || big == GREEKMU))
  }

  /** There are no other units. */
  lemma {:induction false} KnownUnits(u: seq<Byte>)
    ensures UnitOf(u) > 0 <==>
            u in {NANOSECOND, MICROSECOND, MICROSIGN, GREEKMU, MILLISECOND, SECOND, MINUTE, HOUR}
  {
    assert |u| == 1 ==> u == [u[0]];
    assert |u| == 2 ==> u == [u[0], u[1]];
    assert |u| == 3 ==> u == [u[0], u[1], u[2]];
  }

  lemma MakesValue(k: nat, small: seq<Byte>, big: seq<Byte>)
    requires Makes(k, small, big)
    ensures UnitOf(big) == k * UnitOf(small) > 0
  {
  }

  /** A whole number of units. */
  lemma {:induction false} WholeParses(whole: seq<Byte>, name: seq<Byte>, scale: Scaling)
    requires AllDigits(whole) && whole != [] && UnitOf(name) > 0 && Rounds(scale)
    ensures Meaning(whole + name, scale) == Fit(Nat(whole) * UnitOf(name))
  {
    var item := Item(whole, NoPoint, name);
    OneItem(item, scale);
    PrintedParses(Bare, [item], scale);
    assert SignText(Bare) + Text([item]) == whole + name;
  }

  lemma {:induction false} OneItem(item: Item, scale: Scaling)
    requires item.frac == NoPoint
    ensures Text([item]) == item.whole + item.name && Total([item], scale) == Nat(item.whole) * UnitOf(item.name)
  {
    assert FracDigits(NoPoint)[..Kept(FracDigits(NoPoint))] == [];
    assert [item][1..] == [] && ItemText(item) + [] == ItemText(item) == item.whole + item.name;
  }

  /** A number of nanoseconds is that number. */
  lemma {:induction false} Nanoseconds(whole: seq<Byte>, scale: Scaling)
    requires AllDigits(whole) && whole != [] && Rounds(scale)
    ensures Meaning(whole + NANOSECOND, scale) == if Nat(whole) <= MAX then Ok(Nat(whole)) else Invalid
  {
    WholeParses(whole, NANOSECOND, scale);
  }

  lemma MulAssoc(a: int, k: int, b: int)
    ensures (a * k) * b == a * (k * b)
  {}

  /** Texts that stand for the same time mean the same: an hour is 60 minutes, and so on down to nanoseconds. */
  lemma {:induction false} UnitsAgree(big: seq<Byte>, small: seq<Byte>, k: nat, whole: seq<Byte>, more: seq<Byte>,
                                      scale: Scaling)
    requires AllDigits(whole) && whole != [] && AllDigits(more) && more != [] && Rounds(scale)
    requires Makes(k, small, big) && Nat(more) == Nat(whole) * k
    ensures Meaning(whole + big, scale) == Meaning(more + small, scale)
  {
    MakesValue(k, small, big);
    WholeParses(whole, big, scale);
    WholeParses(more, small, scale);
    MulAssoc(Nat(whole), k, UnitOf(small));
  }

  /** Fractions of a nanosecond are cut off, and nothing else is lost. */
  ghost predicate Exact(scale: Scaling) {
    forall f: nat, k: nat, unit: nat {:trigger scale(f, k, unit)} ::
      scale(f, k, unit) * Pow10(k) <= f * unit < (scale(f, k, unit) + 1) * Pow10(k)
  }

  const FLOOR: Scaling := (f: int, k: nat, unit: int) => if Pow10(k) > 0 then f * unit / Pow10(k) else 0

  lemma {:induction false} Pow10Positive(k: nat)
    ensures Pow10(k) > 0
  {
    if k > 0 { Pow10Positive(k - 1); }
  }

  lemma DivBounds(x: int, p: int)
    requires p > 0
    ensures (x / p) * p <= x < (x / p + 1) * p
  {}

  lemma {:induction false} FloorIsExact()
    ensures Exact(FLOOR)
  {
    forall f: nat, k: nat, unit: nat
      ensures FLOOR(f, k, unit) * Pow10(k) <= f * unit < (FLOOR(f, k, unit) + 1) * Pow10(k)
    {
      Pow10Positive(k);
      DivBounds(f * unit, Pow10(k));
    }
  }

  lemma {:induction false} LessOfUnit(r: int, f: int, p: int, unit: nat)
    requires 0 < f < p && r * p <= f * unit < (r + 1) * p
    ensures 0 <= r <= unit
  {
    if r < 0 {
      MulMonotone(r + 1, 0, p);
      MulMonotone(0, f, unit);
    }
    if r > unit {
      MulMonotone(unit + 1, r, p);
      MulMonotone(f, p, unit);
      MulCommutes(p, unit);
    }
  }

  lemma MulCommutes(a: int, b: int)
    ensures a * b == b * a && (b + 1) * a == a * b + a
  {}

  lemma {:induction false} ExactRounds(scale: Scaling)
    requires Exact(scale)
    ensures Rounds(scale)
  {
    forall f: int, k: nat, unit: nat {:trigger scale(f, k, unit)} | 0 < f < Pow10(k)
      ensures 0 <= scale(f, k, unit) <= unit
    {
      LessOfUnit(scale(f, k, unit), f, Pow10(k), unit);
    }
  }

  lemma {:induction false} NatConcat(a: seq<Byte>, b: seq<Byte>)
    ensures Nat(a + b) == Nat(a) * Pow10(|b|) + Nat(b)
  {
    if b == [] {
      assert a + b == a;
    } else {
      var n := |b| - 1;
      assert (a + b)[..|a + b| - 1] == a + b[..n];
      NatConcat(a, b[..n]);
      MulAssoc(Nat(a), Pow10(n), 10);
    }
  }

  lemma Distribute(w: int, p: int, f: int, unit: int, r: int)
    requires r * p <= f * unit < (r + 1) * p
    ensures (w * unit + r) * p <= (w * p + f) * unit < (w * unit + r + 1) * p
  {
    assert (w * unit + r) * p == w * unit * p + r * p;
    assert (w * p + f) * unit == w * p * unit + f * unit;
    assert (w * unit + r + 1) * p == w * unit * p + (r + 1) * p;
    MulAssoc(w, unit, p);
    MulAssoc(w, p, unit);
  }

  /** With exact scaling an item is worth its decimal number of units, cut off to nanoseconds: the digits before and
    * after the point count as one number, of which k digits are behind the point. */
  lemma {:induction false} ExactValue(item: Item, scale: Scaling)
    requires Valid(item) && Exact(scale)
    ensures var digits := FracDigits(item.frac); var k := Kept(digits); var unit := UnitOf(item.name);
      var n := Nat(item.whole + digits[..k]);
      Value(item, scale) * Pow10(k) <= n * unit < (Value(item, scale) + 1) * Pow10(k)
  {
    var digits := FracDigits(item.frac);
    var k, unit := Kept(digits), UnitOf(item.name);
    var f := Nat(digits[..k]);
    NatBelow(digits[..k]);
    NatConcat(item.whole, digits[..k]);
    Pow10Positive(k);
    Distribute(Nat(item.whole), Pow10(k), f, unit, FracValue(digits, unit, scale));
  }

  // ----- The methods, with their wrap-around arithmetic; a suffix of s is a position in s

  /** The test x < 0 notices exactly the numbers that do not fit. */
  lemma AppendDigit(x: int, c: Byte)
    requires 0 <= x <= MAX / 10 && IsDigit(c)
    ensures var y := Wrap(Wrap(Wrap(x * 10) + c) - ZERO);
      (y < 0 <==> x * 10 + (c - ZERO) > MAX) && (y >= 0 ==> y == x * 10 + (c - ZERO))
  {}

  lemma {:induction false} NatAppend(s: seq<Byte>, i: nat, j: nat)
    requires i <= j < |s|
    ensures Nat(s[i..j + 1]) == Nat(s[i..j]) * 10 + (s[j] - ZERO)
  {
    assert s[i..j + 1][..j - i] == s[i..j];
  }

  lemma {:induction false} NatOfPart(s: seq<Byte>, i: nat, j: nat)
    requires i <= |s| && i <= j <= DigitsEnd(s, i)
    ensures 0 <= Nat(s[i..j]) <= Nat(s[i..DigitsEnd(s, i)])
  {
    var e := DigitsEnd(s, i);
    DigitsEndOf(s, i);
    NatGrows(s[i..e], j - i);
    assert s[i..e][..j - i] == s[i..j];
  }

  /** One more digit, with the test before the sum and the test after it. */
  method AddDigit(x: int, c: Byte) returns (y: int, fits: bool)
    requires 0 <= x <= MAX && IsDigit(c)
    ensures fits <==> x * 10 + (c - ZERO) <= MAX
    ensures fits ==> 0 <= y == x * 10 + (c - ZERO)
  {
    if x > MAX / 10 { return 0, false; }
    AppendDigit(x, c);
    y := Wrap(Wrap(Wrap(x * 10) + c) - ZERO);
    fits := y >= 0;
  }

  method LeadingInt(s: seq<Byte>, i: nat) returns (x: int, j: nat, ok: bool)
    requires i <= |s|
    ensures ok <==> Nat(s[i..DigitsEnd(s, i)]) <= MAX
    ensures ok ==> j == DigitsEnd(s, i) && x == Nat(s[i..j])
  {
    x, j := 0, i;
    while j < |s|
      invariant i <= j <= |s| && DigitsEnd(s, j) == DigitsEnd(s, i) && 0 <= x == Nat(s[i..j]) <= MAX
    {
      var c := s[j];
      if c < ZERO || c > ZERO + 9 { break; }
      NatAppend(s, i, j);
      NatOfPart(s, i, j + 1);
      var fits;
      x, fits := AddDigit(x, c);
      if !fits { return 0, |s|, false; }
      j := j + 1;
    }
    return x, j, true;
  }

  /** scale is 10 to the power k. */
  method LeadingFraction(s: seq<Byte>, i: nat) returns (x: int, k: nat, j: nat)
    requires i <= |s|
    ensures j == DigitsEnd(s, i) && k == Kept(s[i..j]) && x == Nat(s[i..j][..k])
  {
    x, k, j := 0, 0, i;
    var overflow := false;
    while j < |s|
      invariant i + k <= j <= |s| && DigitsEnd(s, j) == DigitsEnd(s, i)
      invariant 0 <= x == Nat(s[i..i + k]) <= MAX
      invariant if overflow then i + k < j && Nat(s[i..i + k + 1]) > MAX else i + k == j
    {
      var c := s[j];
      if c < ZERO || c > ZERO + 9 { break; }
      if !overflow {
        NatAppend(s, i, j);
        var y, fits := AddDigit(x, c);
        if fits { x, k := y, k + 1; } else { overflow := true; }
      }
      j := j + 1;
    }
    KeptOfPart(s, i, j, k);
  }

  lemma {:induction false} KeptOfPart(s: seq<Byte>, i: nat, j: nat, k: nat)
    requires i + k <= j <= |s| && j == DigitsEnd(s, i) && Nat(s[i..i + k]) <= MAX
    requires i + k < j ==> Nat(s[i..i + k + 1]) > MAX
    ensures k == Kept(s[i..j]) && s[i..j][..k] == s[i..i + k]
  {
    DigitsEndOf(s, i);
    assert s[i..j][..k] == s[i..i + k];
    assert i + k < j ==> s[i..j][..k + 1] == s[i..i + k + 1];
    KeptIs(s[i..j], k);
  }

  lemma {:induction false} KeptIs(digits: seq<Byte>, k: nat)
    requires AllDigits(digits) && k <= |digits| && Nat(digits[..k]) <= MAX
    requires k < |digits| ==> Nat(digits[..k + 1]) > MAX
    ensures Kept(digits) == k
  {
    KeptPrefix(digits, k);
    if k < |digits| { KeptPrefix(digits, k + 1); }
  }

  method ScanUnit(s: seq<Byte>, i: nat) returns (j: nat)
    requires i <= |s|
    ensures j == UnitEnd(s, i)
  {
    j := i;
    while j < |s|
      invariant i <= j <= |s| && UnitEnd(s, j) == UnitEnd(s, i)
    {
      var c := s[j];
      if c == DOT || (ZERO <= c && c <= ZERO + 9) { break; }
      j := j + 1;
    }
  }

  lemma {:induction false} Divide(v: int, unit: int)
    requires v >= 0 && unit > 0
    ensures v > MAX / unit <==> v * unit > MAX
  {
    var q := MAX / unit;
    if v > q { MulMonotone(q + 1, v, unit); } else { MulMonotone(v, q, unit); }
  }

  lemma MulMonotone(a: int, b: int, c: int)
    requires a <= b && c >= 0
    ensures a * c <= b * c
  {}

  /** v units and the fraction f / 10^k of one, with the tests for overflow. */
  method InUnits(v: int, f: int, k: nat, unit: nat, scale: Scaling) returns (r: Outcome)
    requires 0 <= v <= MAX && 0 < unit <= MAX && (f > 0 ==> 0 <= scale(f, k, unit) <= unit)
    ensures r == Fit(v * unit + if f > 0 then scale(f, k, unit) else 0)
  {
    Divide(v, unit);
    if v > MAX / unit { return Invalid; }
    var w := Wrap(v * unit);
    assert w == v * unit;
    if f > 0 {
      w := Wrap(w + scale(f, k, unit));
      if w < 0 { return Invalid; }
    }
    return Ok(w);
  }

  lemma FracAt(s: seq<Byte>, i: nat)
    requires i <= |s|
    ensures var n := DigitsEnd(s, i);
      FracDigits(ItemAt(s, i).frac) == if HasPoint(s, n) then s[n + 1..DigitsEnd(s, n + 1)] else []
  {}

  /** The number at i: v units and f / 10^k of one; some says whether it has a digit. */
  method Number(s: seq<Byte>, i: nat) returns (ok: bool, v: int, f: int, k: nat, j: nat, some: bool)
    requires i <= |s|
    ensures ok <==> Nat(ItemAt(s, i).whole) <= MAX
    ensures ok ==> v == Nat(ItemAt(s, i).whole) && j == NumberEnd(s, i)
    ensures var digits := FracDigits(ItemAt(s, i).frac);
      ok ==> k == Kept(digits) && f == Nat(digits[..k]) && (some <==> ItemAt(s, i).whole != [] || digits != [])
  {
    v, j, ok := LeadingInt(s, i);
    f, k, some := 0, 0, j != i;
    if !ok { return; }
    FracAt(s, i);
    if j < |s| && s[j] == DOT {
      var start := j + 1;
      f, k, j := LeadingFraction(s, start);
      some := some || j != start;
    }
  }

  lemma UnitFits(name: seq<Byte>)
    ensures UnitOf(name) <= MAX
  {}

  lemma {:induction false} NumberBounds(item: Item, scale: Scaling)
    requires AllDigits(item.whole) && AllDigits(FracDigits(item.frac)) && Rounds(scale)
    ensures Nat(item.whole) >= 0 && 0 <= FracValue(FracDigits(item.frac), UnitOf(item.name), scale) <= UnitOf(item.name)
  {
    NatBelow(item.whole);
    ScaledBounds(FracDigits(item.frac), UnitOf(item.name), scale);
  }

  /** One turn of the loop, up to the addition. */
  method Turn(s: seq<Byte>, i: nat, scale: Scaling) returns (t: Step)
    requires i < |s| && Rounds(scale)
    ensures t == StepAt(s, i, scale)
  {
    if !(s[i] == DOT || (ZERO <= s[i] && s[i] <= ZERO + 9)) { return Halt(Invalid); }
    var ok, v, f, k, j, some := Number(s, i);
    if !ok || !some { return Halt(Invalid); }
    var e := ScanUnit(s, j);
    if e == j { return Halt(MissingUnit); }
    var u := s[j..e];
    var unit := UnitOf(u);
    if unit == 0 { return Halt(UnknownUnit(u)); }
    ItemTextAt(s, i);
    NumberBounds(ItemAt(s, i), scale);
    UnitFits(u);
    var r := InUnits(v, f, k, unit, scale);
    t := if r.Ok? then Take(r.d, e) else Halt(r);
  }

  lemma {:induction false} TurnGoesOn(s: seq<Byte>, i: nat, scale: Scaling)
    requires i < |s| && Rounds(scale)
    ensures var t := StepAt(s, i, scale); t.Take? ==> 0 <= t.v <= MAX && i < t.next <= |s|
  {
    StepIsFair(s, i, scale);
    if StepAt(s, i, scale).Take? { var item := ItemTaken(s, i, scale); }
  }

  /** What the loop comes to is decided by the turn, or by the rest of the loop. */
  lemma {:induction false} OneTurn(steps: seq<Step>, s: seq<Byte>, i: nat, d: int, scale: Scaling)
    requires i < |s| && 0 <= d <= MAX && Rounds(scale) && Follows(steps, s, scale)
    ensures GoesOnWith(steps, |s|, i, d, StepAt(s, i, scale))
  {
    TurnGoesOn(s, i, scale);
  }

  ghost predicate GoesOnWith(steps: seq<Step>, n: nat, i: nat, d: int, t: Step) {
    if t.Halt? then Loop(steps, i, d) == t.error
    else
      && i < t.next <= n
      && var sum := Wrap(d + t.v);
      if sum < 0 then Loop(steps, i, d) == Invalid
      else sum <= MAX && Loop(steps, i, d) == Loop(steps, t.next, sum)
  }

  method TakeTurn(s: seq<Byte>, i: nat, ghost d: int, scale: Scaling, ghost steps: seq<Step>) returns (turn: Step)
    requires i < |s| && 0 <= d <= MAX && Rounds(scale) && Follows(steps, s, scale)
    ensures GoesOnWith(steps, |s|, i, d, turn)
  {
    turn := Turn(s, i, scale);
    OneTurn(steps, s, i, d, scale);
  }

  method ParseItems(s: seq<Byte>, scale: Scaling, ghost steps: seq<Step>) returns (r: Outcome)
    requires Rounds(scale) && Follows(steps, s, scale)
    ensures r == Loop(steps, 0, 0)
  {
    var i, d := 0, 0;
    while i < |s|
      invariant i <= |s| && 0 <= d <= MAX && Loop(steps, i, d) == Loop(steps, 0, 0)
      decreases |s| - i
    {
      var turn := TakeTurn(s, i, d, scale, steps);
      if turn.Halt? { return turn.error; }
      d := Wrap(d + turn.v);
      if d < 0 { return Invalid; }
      i := turn.next;
    }
    return Ok(d);
  }

  method ParseDuration(s: seq<Byte>, scale: Scaling) returns (r: Outcome)
    requires Rounds(scale)
    ensures r == Meaning(s, scale)
  {
    var t, neg := s, false;
    if t != [] && (t[0] == MINUS || t[0] == PLUS) {
      neg := t[0] == MINUS;
      t := t[1..];
    }
    if t == [ZERO] { return Ok(0); }
    if t == [] { return Invalid; }
    r := ParseItems(t, scale, StepsOf(t, scale));
    if neg && r.Ok? { r := Ok(-r.d); }
  }
}
