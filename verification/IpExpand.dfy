/** Expansion of address ranges: an odometer over the bytes of the offset, then sorting and removal of duplicates. */
module IpExpand {
  import opened IpNet
  import opened Sorting

  // ----- Mixed-radix offsets, most significant digit first

  /** Each digit m[i] of an offset runs from 0 to w[i]. */
  predicate Within(m: seq<Byte>, w: seq<Byte>) { |m| == |w| && forall i :: 0 <= i < |w| ==> m[i] <= w[i] }

  function Count(w: seq<Byte>): (n: nat)
    ensures n > 0
  {
    if w == [] then 1 else Count(w[..|w| - 1]) * (w[|w| - 1] as int + 1)
  }

  function Value(m: seq<Byte>, w: seq<Byte>): nat
    requires |m| == |w|
  {
    if w == [] then 0 else Value(m[..|w| - 1], w[..|w| - 1]) * (w[|w| - 1] as int + 1) + m[|w| - 1]
  }

  /** The k-th offset. */
  function Offset(k: nat, w: seq<Byte>): (m: seq<Byte>)
    ensures Within(m, w)
  {
    if w == [] then []
    else Offset(k / (w[|w| - 1] as int + 1), w[..|w| - 1]) + [k % (w[|w| - 1] as int + 1)]
  }

  /** Lexicographic order: the last digit decides when all digits before it agree. */
  predicate LexLess(a: seq<Byte>, b: seq<Byte>)
    requires |a| == |b|
  {
    a != [] && (LexLess(a[..|a| - 1], b[..|b| - 1]) || (a[..|a| - 1] == b[..|b| - 1] && a[|a| - 1] < b[|b| - 1]))
  }

  lemma {:induction false} ValueOfOffset(k: nat, w: seq<Byte>)
    requires k < Count(w)
    ensures Value(Offset(k, w), w) == k
  {
    if w != [] {
      var n, r := |w| - 1, w[|w| - 1] as int + 1;
      assert k < Count(w[..n]) * r;
      QuotientBelow(k, Count(w[..n]), r);
      ValueOfOffset(k / r, w[..n]);
      ValueOfLastDigit(k, w);
    }
  }

  lemma {:induction false} ValueOfLastDigit(k: nat, w: seq<Byte>)
    requires w != []
    requires var q := k / (w[|w| - 1] as int + 1); Value(Offset(q, w[..|w| - 1]), w[..|w| - 1]) == q
    ensures Value(Offset(k, w), w) == k
  {
    var r := w[|w| - 1] as int + 1;
    assert Offset(k, w)[..|w| - 1] == Offset(k / r, w[..|w| - 1]);
    DivMod(k, r);
  }

  lemma DivMod(k: nat, r: nat)
    requires r > 0
    ensures (k / r) * r + k % r == k
  {
  }

  lemma MulMonotone(a: int, b: int, r: nat)
    requires a <= b
    ensures a * r <= b * r
  {
  }

  lemma {:induction false} QuotientBelow(k: nat, n: nat, r: nat)
    requires r > 0 && k < n * r
    ensures k / r < n
  {
    DivMod(k, r);
    if n <= k / r { MulMonotone(n, k / r, r); }
  }

  /** A digit keeps a more significant difference. */
  lemma {:induction false} DigitBelow(v: nat, c: nat, r: nat, d: nat)
    requires v < c && d < r
    ensures v * r + d < c * r
  {
    MulMonotone(v + 1, c, r);
    assert (v + 1) * r == v * r + r;
  }

  lemma {:induction false} OffsetOfValue(m: seq<Byte>, w: seq<Byte>)
    requires Within(m, w)
    ensures Value(m, w) < Count(w) && Offset(Value(m, w), w) == m
  {
    if w != [] {
      var n := |w| - 1;
      var r := w[n] as int + 1;
      OffsetOfValue(m[..n], w[..n]);
      var v := Value(m[..n], w[..n]);
      assert v * r == r * v;
      ModUnique(v * r + m[n] as int, r, v, m[n] as int);
      DigitBelow(v, Count(w[..n]), r, m[n]);
      assert m == m[..n] + [m[n]];
    }
  }

  /** The value respects the order of the digits. */
  lemma {:induction false} ValueIsMonotone(a: seq<Byte>, b: seq<Byte>, w: seq<Byte>)
    requires Within(a, w) && Within(b, w) && LexLess(a, b)
    ensures Value(a, w) < Value(b, w)
  {
    var n := |w| - 1;
    if LexLess(a[..n], b[..n]) {
      ValueIsMonotone(a[..n], b[..n], w[..n]);
      DigitBelow(Value(a[..n], w[..n]), Value(b[..n], w[..n]), w[n] as int + 1, a[n]);
    }
  }

  lemma {:induction false} LexLessTotal(a: seq<Byte>, b: seq<Byte>)
    requires |a| == |b|
    ensures a == b || LexLess(a, b) || LexLess(b, a)
  {
    if a != [] {
      var n := |a| - 1;
      LexLessTotal(a[..n], b[..n]);
      assert a == a[..n] + [a[n]] && b == b[..n] + [b[n]];
    }
  }

  /** Offsets come in lexicographic order. */
  lemma {:induction false} OffsetsInOrder(k: nat, k': nat, w: seq<Byte>)
    requires k < k' < Count(w)
    ensures LexLess(Offset(k, w), Offset(k', w))
  {
    var a, b := Offset(k, w), Offset(k', w);
    ValueOfOffset(k, w);
    ValueOfOffset(k', w);
    LexLessTotal(a, b);
    if LexLess(b, a) { ValueIsMonotone(b, a, w); }
  }

  /** The offset after m: the last digit that is not at its limit counts up, and the digits behind it start over. */
  lemma {:induction false} Successor(m: seq<Byte>, m': seq<Byte>, w: seq<Byte>, i: nat)
    requires Within(m, w) && |m'| == |w| && i < |w| && m[i] < w[i]
    requires m'[..i] == m[..i] && m'[i] == m[i] + 1
    requires forall k :: i < k < |w| ==> m[k] == w[k] && m'[k] == 0
    ensures Value(m', w) == Value(m, w) + 1
  {
    var n := |w| - 1;
    if i == n {
      assert m'[..n] == m[..n];
    } else {
      assert m[..n][..i] == m[..i] && m'[..n][..i] == m'[..i];
      Successor(m[..n], m'[..n], w[..n], i);
      var v, r := Value(m[..n], w[..n]), w[n] as int + 1;
      assert (v + 1) * r == v * r + r;
    }
  }

  lemma {:induction false} ZeroValue(m: seq<Byte>, w: seq<Byte>)
    requires |m| == |w| && forall i :: 0 <= i < |m| ==> m[i] == 0
    ensures Value(m, w) == 0
  {
    if w != [] { ZeroValue(m[..|w| - 1], w[..|w| - 1]); }
  }

  lemma {:induction false} LastValue(w: seq<Byte>)
    ensures Value(w, w) == Count(w) - 1
  {
    if w != [] {
      var n := |w| - 1;
      LastValue(w[..n]);
      var r := w[n] as int + 1;
      assert (Count(w[..n]) - 1) * r == Count(w[..n]) * r - r;
    }
  }

  // ----- The addresses of a range

  /** Byte by byte, upper - lower in unsigned bytes. */
  function Widths(lower: IP, upper: IP): (w: IP)
    requires |lower| == |upper|
    ensures |w| == |lower|
  {
    seq(|lower|, i requires 0 <= i < |lower| => (upper[i] as int - lower[i] as int) % 256)
  }

  /** Byte by byte, lower + m in unsigned bytes. */
  function AddOffset(lower: IP, m: seq<Byte>): (ip: IP)
    requires |lower| == |m|
    ensures |ip| == |lower|
  {
    seq(|lower|, i requires 0 <= i < |lower| => (lower[i] as int + m[i] as int) % 256)
  }

  lemma {:induction false} AddOffsetInjective(lower: IP, m: seq<Byte>, m': seq<Byte>)
    requires |lower| == |m| == |m'| && AddOffset(lower, m) == AddOffset(lower, m')
    ensures m == m'
  {
    forall i | 0 <= i < |m| ensures m[i] == m'[i] {
      assert AddOffset(lower, m)[i] == AddOffset(lower, m')[i];
    }
  }

  /** The next setting of the odometer, computed in place. */
  method Advance(mask: array<Byte>, w: seq<Byte>)
    requires Within(mask[..], w) && mask[..] != w
    modifies mask
    ensures Within(mask[..], w)
    ensures Value(mask[..], w) == Value(old(mask[..]), w) + 1
  {
    ghost var m := mask[..];
    ghost var j :| 0 <= j < |w| && m[j] < w[j];
    var i := |w| - 1;
    while i >= 0
      invariant j <= i < |w|
      invariant forall k :: i < k < |w| ==> m[k] == w[k] && mask[k] == 0
      invariant forall k :: 0 <= k <= i ==> mask[k] == m[k]
    {
      if w[i] > 0 {
        if mask[i] < w[i] {
          mask[i] := mask[i] + 1;
          assert mask[..i] == m[..i];
          Successor(m, mask[..], w, i);
          return;
        }
        mask[i] := mask[i] % w[i];
        if i < 1 { break; }
      }
      i := i - 1;
    }
    assert false;
  }

  predicate InStep(out: seq<IP>, lower: IP, w: seq<Byte>)
    requires |lower| == |w|
  {
    forall k :: 0 <= k < |out| ==> out[k] == AddOffset(lower, Offset(k, w))
  }

  lemma {:induction false} StaysInStep(out: seq<IP>, lower: IP, w: seq<Byte>, m: seq<Byte>)
    requires |lower| == |w| && InStep(out, lower, w) && Within(m, w) && Value(m, w) == |out|
    ensures InStep(out + [AddOffset(lower, m)], lower, w)
  {
    OffsetOfValue(m, w);
  }

  /** Sends every address of the range, in the order of its offset. */
  method StreamRange(lower: IP, upper: IP) returns (out: seq<IP>)
    requires |lower| == |upper|
    ensures var w := Widths(lower, upper);
            |out| == Count(w) && forall k :: 0 <= k < |out| ==> out[k] == AddOffset(lower, Offset(k, w))
  {
    var w := Widths(lower, upper);
    var mask := new Byte[|lower|](_ => 0);
    out := [];
    ZeroValue(mask[..], w);
    while true
      invariant mask.Length == |w| && Within(mask[..], w) && Value(mask[..], w) == |out|
      invariant InStep(out, lower, w)
      decreases Count(w) - |out|
    {
      OffsetOfValue(mask[..], w);
      StaysInStep(out, lower, w, mask[..]);
      out := out + [AddOffset(lower, mask[..])];
      if mask[..] == w {
        LastValue(w);
        break;
      }
      Advance(mask, w);
    }
  }

  /** Every offset within the widths is used exactly once. */
  lemma {:induction false} EachOffsetOnce(lower: IP, upper: IP, m: seq<Byte>)
    requires |lower| == |upper| && Within(m, Widths(lower, upper))
    ensures var w := Widths(lower, upper);
            && Value(m, w) < Count(w)
            && AddOffset(lower, Offset(Value(m, w), w)) == AddOffset(lower, m)
            && forall k: nat :: k < Count(w) && AddOffset(lower, Offset(k, w)) == AddOffset(lower, m) ==>
                 k == Value(m, w)
  {
    var w := Widths(lower, upper);
    OffsetOfValue(m, w);
    forall k: nat | k < Count(w) && AddOffset(lower, Offset(k, w)) == AddOffset(lower, m) ensures k == Value(m, w) {
      AddOffsetInjective(lower, Offset(k, w), m);
      ValueOfOffset(k, w);
    }
  }

  /** The addresses a range stands for: in each byte, some step from lower towards upper. */
  ghost predicate InRange(ip: IP, r: AddressRange)
    requires |r.min| == |r.max|
  {
    exists m: seq<Byte> :: Within(m, Widths(r.min, r.max)) && ip == AddOffset(r.min, m)
  }

  method ExpandRange(r: AddressRange) returns (ips: seq<IP>)
    requires |r.min| == |r.max|
    ensures forall ip: IP :: ip in ips <==> InRange(ip, r)
    ensures forall ip: IP :: ip in ips ==> |ip| == |r.min|
    ensures |ips| == Count(Widths(r.min, r.max)) && NoRepeats(ips)
  {
    ips := StreamRange(r.min, r.max);
    var w := Widths(r.min, r.max);
    forall ip: IP ensures ip in ips <==> InRange(ip, r) {
      if InRange(ip, r) {
        var m :| Within(m, w) && ip == AddOffset(r.min, m);
        EachOffsetOnce(r.min, r.max, m);
        assert ips[Value(m, w)] == ip;
      }
    }
    forall i, j | 0 <= i < j < |ips| ensures ips[i] != ips[j] {
      EachOffsetOnce(r.min, r.max, Offset(i, w));
      ValueOfOffset(i, w);
    }
  }

  predicate NoRepeats(ips: seq<IP>) { forall i, j :: 0 <= i < j < |ips| ==> ips[i] != ips[j] }

  // ----- Lists of ranges

  predicate AllIPv4(ips: seq<IP>) { forall i :: 0 <= i < |ips| ==> IsIPv4(ips[i]) }

  predicate Ascending(ips: seq<IP>)
    requires AllIPv4(ips)
  {
    forall i, j :: 0 <= i < j < |ips| ==> Uint32(ips[i]) < Uint32(ips[j])
  }

  lemma LastByte(h: int, l: Byte, h': int, l': Byte)
    requires h * 256 + l as int == h' * 256 + l' as int
    ensures h == h' && l == l'
  {
  }

  lemma {:induction false} SameWordSameAddress(a: IP, b: IP)
    requires IsIPv4(a) && IsIPv4(b) && Uint32(a) == Uint32(b)
    ensures a == b
  {
    LastByte((a[0] as int * 256 + a[1] as int) * 256 + a[2] as int, a[3],
             (b[0] as int * 256 + b[1] as int) * 256 + b[2] as int, b[3]);
    LastByte(a[0] as int * 256 + a[1] as int, a[2], b[0] as int * 256 + b[1] as int, b[2]);
    LastByte(a[0] as int, a[1], b[0] as int, b[1]);
  }

  /** The order of sortip.go: addresses compare as big-endian numbers. */
  const ADDRESS_KEY: IP -> int := ip => if IsIPv4(ip) then Uint32(ip) else 0

  /** Drops every address that equals its predecessor; `sorted` is what sorting made of `src`. */
  method Normalize(src: seq<IP>, sorted: seq<IP>) returns (dst: seq<IP>)
    requires src != [] && AllIPv4(src) && IsSorting(ADDRESS_KEY, sorted, src)
    ensures AllIPv4(dst) && Ascending(dst)
    ensures forall ip: IP :: ip in dst <==> ip in src
  {
    SortingKeepsMembers(ADDRESS_KEY, sorted, src);
    assert AllIPv4(sorted) by {
      forall i | 0 <= i < |sorted| ensures IsIPv4(sorted[i]) { assert sorted[i] in src; }
    }
    dst := [sorted[0]];
    for i := 0 to |sorted|
      invariant |dst| > 0 && AllIPv4(dst) && Ascending(dst)
      invariant i == 0 ==> dst == [sorted[0]]
      invariant i > 0 ==> dst[|dst| - 1] == sorted[i - 1]
      invariant forall ip: IP :: ip in dst <==> ip in sorted[..i] || (i == 0 && ip == sorted[0])
    {
      if dst[|dst| - 1] != sorted[i] {
        assert i > 0 ==> ADDRESS_KEY(sorted[i - 1]) <= ADDRESS_KEY(sorted[i]);
        if Uint32(dst[|dst| - 1]) == Uint32(sorted[i]) { SameWordSameAddress(dst[|dst| - 1], sorted[i]); }
        dst := dst + [sorted[i]];
      }
      assert sorted[..i + 1] == sorted[..i] + [sorted[i]];
    }
    assert sorted[..|sorted|] == sorted;
  }

  predicate AllRangesIPv4(l: seq<AddressRange>) { forall i :: 0 <= i < |l| ==> IsIPv4(l[i].min) && IsIPv4(l[i].max) }

  ghost predicate InSome(ip: IP, l: seq<AddressRange>)
    requires AllRangesIPv4(l)
  {
    exists i :: 0 <= i < |l| && InRange(ip, l[i])
  }

  /** The expanded list, or the panic that an empty list leads to. */
  datatype Expansion = Addresses(ips: seq<IP>) | Crash

  method ExpandList(l: seq<AddressRange>) returns (r: Expansion)
    requires AllRangesIPv4(l)
    ensures r.Crash? <==> l == []
    ensures r.Addresses? ==>
              AllIPv4(r.ips) && Ascending(r.ips) && forall ip: IP :: ip in r.ips <==> InSome(ip, l)
  {
    var res := [];
    for i := 0 to |l|
      invariant AllIPv4(res) && (i > 0 <==> res != [])
      invariant forall ip: IP :: ip in res <==> InSome(ip, l[..i])
    {
      var ips := ExpandRange(l[i]);
      assert l[..i + 1] == l[..i] + [l[i]];
      forall ip: IP ensures InSome(ip, l[..i + 1]) <==> InSome(ip, l[..i]) || InRange(ip, l[i]) {
        SomeOfMore(ip, l[..i], l[i]);
      }
      res := res + ips;
    }
    assert l[..|l|] == l;
    if res == [] { return Crash; }
    var sorted := Sort(ADDRESS_KEY, res);
    var ips := Normalize(res, sorted);
    r := Addresses(ips);
  }

  lemma {:induction false} MoreRanges(l: seq<AddressRange>, r: AddressRange)
    requires AllRangesIPv4(l) && IsIPv4(r.min) && IsIPv4(r.max)
    ensures AllRangesIPv4(l + [r])
  {
  }

  lemma {:induction false} SomeOfMore(ip: IP, l: seq<AddressRange>, r: AddressRange)
    requires AllRangesIPv4(l + [r])
    ensures AllRangesIPv4(l) && IsIPv4(r.min) && IsIPv4(r.max)
    ensures InSome(ip, l + [r]) <==> InSome(ip, l) || InRange(ip, r)
  {
    assert (l + [r])[|l|] == r;
    assert forall i :: 0 <= i < |l| ==> (l + [r])[i] == l[i];
  }

  // ----- The expansion of a block

  /** How far it is from one byte up to another; bytes wrap around. */
  function Step(from: Byte, to: Byte): Byte { (to as int - from as int) % 256 }

  lemma StepUp(from: Byte, to: Byte)
    ensures (from as int + Step(from, to) as int) % 256 == to
  {
  }

  lemma StepBack(from: Byte, m: Byte)
    ensures Step(from, (from as int + m as int) % 256) == m
  {
  }

  /** No byte is further from the low end of its range than the high end. */
  predicate StepsWithin(ip: IP, r: AddressRange)
    requires |r.min| == |r.max|
  {
    |ip| == |r.min| && forall i :: 0 <= i < |ip| ==> Step(r.min[i], ip[i]) <= Step(r.min[i], r.max[i])
  }

  lemma {:induction false} StepsAreInRange(ip: IP, r: AddressRange)
    requires |r.min| == |r.max| && StepsWithin(ip, r)
    ensures InRange(ip, r)
  {
    var m: seq<Byte> := seq(|ip|, i requires 0 <= i < |ip| => Step(r.min[i], ip[i]));
    var sum := AddOffset(r.min, m);
    forall i | 0 <= i < |ip| ensures ip[i] == sum[i] { StepUp(r.min[i], ip[i]); }
    assert ip == sum && Within(m, Widths(r.min, r.max));
  }

  lemma {:induction false} RangeIsSteps(ip: IP, r: AddressRange)
    requires |r.min| == |r.max|
    ensures InRange(ip, r) <==> StepsWithin(ip, r)
  {
    if StepsWithin(ip, r) { StepsAreInRange(ip, r); }
    if InRange(ip, r) {
      var m :| Within(m, Widths(r.min, r.max)) && ip == AddOffset(r.min, m);
      forall i | 0 <= i < |ip| ensures Step(r.min[i], ip[i]) <= Step(r.min[i], r.max[i]) { StepBack(r.min[i], m[i]); }
    }
  }

  lemma StepInOrder(from: Byte, x: Byte, to: Byte)
    requires from <= to
    ensures Step(from, x) <= Step(from, to) <==> from <= x <= to
  {
  }

  /** When no byte of the range wraps around, it is a box. */
  lemma {:induction false} RangeIsBox(ip: IP, r: AddressRange)
    requires |r.min| == |r.max| && forall i :: 0 <= i < |r.min| ==> r.min[i] <= r.max[i]
    ensures InRange(ip, r) <==> InBox(ip, r)
  {
    RangeIsSteps(ip, r);
    forall i | 0 <= i < |r.min| && |ip| == |r.min|
      ensures Step(r.min[i], ip[i]) <= Step(r.min[i], r.max[i]) <==> r.min[i] <= ip[i] <= r.max[i]
    {
      StepInOrder(r.min[i], ip[i], r.max[i]);
    }
  }

  /** Sharing the leading bits of a byte means lying in the block of values that do. */
  lemma {:induction false} SharedBits(x: Byte, b: Byte, ones: int)
    ensures Kept(x, ones) == Kept(b, ones) <==> Kept(b, ones) <= x as int <= Kept(b, ones) + 255 - MaskByte(ones) as int
  {
    assert Pow2(0) == 1;
    if 0 < ones < 8 {
      MaskByteValue(ones);
      InBlock(x, b, Pow2(8 - ones));
      SameBlock(x, b, 8 - ones);
    }
  }

  /** Adding the complement of the mask fills the masked bits of every byte, without carries. */
  lemma {:induction false} FilledBytes(min: IP, mask: IP, max: IP)
    requires IsIPv4(min) && IsIPv4(mask) && IsIPv4(max)
    requires forall i :: 0 <= i < 4 ==> min[i] <= mask[i]
    requires Uint32(max) == Uint32(min) + MAX_WORD - Uint32(mask)
    ensures forall i :: 0 <= i < 4 ==> max[i] as int == min[i] as int + 255 - mask[i] as int
  {
    var top: IP := [min[0] as int + 255 - mask[0] as int, min[1] as int + 255 - mask[1] as int,
                    min[2] as int + 255 - mask[2] as int, min[3] as int + 255 - mask[3] as int];
    assert Uint32(top) == Uint32(min) + MAX_WORD - Uint32(mask);
    SameWordSameAddress(top, max);
  }

  lemma {:induction false} BlockBytes(base: IP, n: nat)
    requires IsIPv4(base) && n <= 32
    ensures var r := CidrRange(base, n); var mask := CIDRMask(n);
            && r.min == ApplyMask(base, mask) && IsIPv4(r.max)
            && forall i :: 0 <= i < 4 ==>
                 r.min[i] <= mask[i] && r.max[i] as int == r.min[i] as int + 255 - mask[i] as int
  {
    var r := CidrRange(base, n);
    CidrEnds(base, n);
    MaskWord(n);
    FilledBytes(r.min, CIDRMask(n), r.max);
  }

  /** An octet lies in the block of its byte exactly when masking does not tell it from the base. */
  lemma {:induction false} OctetInBlock(x: Byte, b: Byte, ones: int)
    ensures And(x, MaskByte(ones)) == And(b, MaskByte(ones)) <==>
            And(b, MaskByte(ones)) <= x as int <= And(b, MaskByte(ones)) + 255 - MaskByte(ones) as int
  {
    MaskedByteIsKept(x, ones);
    MaskedByteIsKept(b, ones);
    SharedBits(x, b, ones);
  }

  ghost predicate InBox(ip: IP, r: AddressRange)
    requires |r.min| == |r.max|
  {
    |ip| == |r.min| && forall i :: 0 <= i < |ip| ==> r.min[i] <= ip[i] <= r.max[i]
  }

  lemma {:induction false} BlockIsBox(ip: IP, base: IP, n: nat)
    requires IsIPv4(ip) && IsIPv4(base) && n <= 32
    ensures var r := CidrRange(base, n);
            && IsIPv4(r.min) && IsIPv4(r.max)
            && (InBox(ip, r) <==> ApplyMask(ip, CIDRMask(n)) == ApplyMask(base, CIDRMask(n)))
  {
    BlockBytes(base, n);
    OctetInBlock(ip[0], base[0], n);
    OctetInBlock(ip[1], base[1], n - 8);
    OctetInBlock(ip[2], base[2], n - 16);
    OctetInBlock(ip[3], base[3], n - 24);
  }

  /** Expanding `base/n` yields exactly the addresses that share the n leading bits of `base`. */
  lemma {:induction false} ExpandedBlock(ip: IP, base: IP, n: nat)
    requires IsIPv4(base) && n <= 32
    ensures var r := CidrRange(base, n);
            && IsIPv4(r.min) && IsIPv4(r.max)
            && (InRange(ip, r) <==> IsIPv4(ip) && Uint32(ip) / Pow2(32 - n) == Uint32(base) / Pow2(32 - n))
  {
    BlockBytes(base, n);
    RangeIsBox(ip, CidrRange(base, n));
    if IsIPv4(ip) {
      BlockIsBox(ip, base, n);
      SamePrefix(ip, base, n);
    }
  }

  lemma {:induction false} SamePrefix(ip: IP, base: IP, n: nat)
    requires IsIPv4(ip) && IsIPv4(base) && n <= 32
    ensures Uint32(ip) / Pow2(32 - n) == Uint32(base) / Pow2(32 - n) <==>
            ApplyMask(ip, CIDRMask(n)) == ApplyMask(base, CIDRMask(n))
  {
    MaskedWord(ip, n);
    MaskedWord(base, n);
    SameBlock(Uint32(ip), Uint32(base), 32 - n);
    if Uint32(ApplyMask(ip, CIDRMask(n))) == Uint32(ApplyMask(base, CIDRMask(n))) {
      SameWordSameAddress(ApplyMask(ip, CIDRMask(n)), ApplyMask(base, CIDRMask(n)));
    }
  }

  lemma {:induction false} MulCancel(p: int, a: int, b: int)
    requires p > 0 && p * a == p * b
    ensures a == b
  {
    assert p * (a - b) == p * a - p * b && p * (b - a) == p * b - p * a;
    if a < b { MulAtLeast(p, b - a); } else if b < a { MulAtLeast(p, a - b); }
  }

  lemma {:induction false} SameBlock(x: nat, y: nat, bits: nat)
    ensures x / Pow2(bits) == y / Pow2(bits) <==> Floor(x, bits) == Floor(y, bits)
  {
    var p := Pow2(bits);
    assert Pow2(0) == 1;
    FloorIsMultiple(x, p);
    FloorIsMultiple(y, p);
    if p * (x / p) == p * (y / p) { MulCancel(p, x / p, y / p); }
  }

  lemma FloorIsMultiple(x: nat, p: nat)
    requires p > 0
    ensures x - x % p == p * (x / p)
  {
  }
}
