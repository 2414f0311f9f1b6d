/** IPv4 addresses as byte strings, and the prefix arithmetic applied to them. */
module IpNet {

  type Byte = b: int | 0 <= b < 256
  type IP = seq<Byte>

  datatype AddressRange = AddressRange(min: IP, max: IP)

  const WORD := 0x1_0000_0000
  const MAX_WORD := 0xffff_ffff

  /** The zero value of a range: both addresses are nil. */
  const NO_RANGE := AddressRange([], [])

  predicate IsIPv4(ip: IP) { |ip| == 4 }

  function Pow2(n: nat): (p: nat)
    ensures p > 0
  {
    if n == 0 then 1 else 2 * Pow2(n - 1)
  }

  /** Bitwise conjunction of two unsigned numbers. */
  function And(x: nat, y: nat): (r: nat)
    ensures r <= x && r <= y
  {
    if x == 0 || y == 0 then 0 else 2 * And(x / 2, y / 2) + (x % 2) * (y % 2)
  }

  /** Big-endian value of four bytes. */
  function Uint32(ip: IP): (v: int)
    requires IsIPv4(ip)
    ensures 0 <= v < WORD
  {
    ((ip[0] as int * 256 + ip[1] as int) * 256 + ip[2] as int) * 256 + ip[3] as int
  }

  function PutUint32(v: int): (ip: IP)
    requires 0 <= v < WORD
    ensures IsIPv4(ip) && Uint32(ip) == v
  {
    var v8 := v / 256;
    var v16 := v8 / 256;
    [v16 / 256, v16 % 256, v8 % 256, v % 256]
  }

  /** One byte with its `ones` leading bits set: the complement of 0xff >> ones. */
  function MaskByte(ones: int): Byte
  {
    if ones >= 8 then 255 else if ones <= 0 then 0 else 255 - 255 / Pow2(ones)
  }

  function CIDRMask(ones: nat): (m: IP)
    requires ones <= 32
    ensures IsIPv4(m)
  {
    [MaskByte(ones), MaskByte(ones - 8), MaskByte(ones - 16), MaskByte(ones - 24)]
  }

  function ApplyMask(ip: IP, mask: IP): (r: IP)
    requires IsIPv4(ip) && IsIPv4(mask)
    ensures IsIPv4(r)
  {
    [And(ip[0], mask[0]), And(ip[1], mask[1]), And(ip[2], mask[2]), And(ip[3], mask[3])]
  }

  /** The block of addresses that `base/ones` denotes.  The sum is taken in 32-bit words: adding 0xffffffff
    * wraps around, and subtracting the mask wraps back. */
  function CidrRange(base: IP, ones: nat): AddressRange
    requires IsIPv4(base) && ones <= 32
  {
    var mask := CIDRMask(ones);
    var min := ApplyMask(base, mask);
    AddressRange(min, PutUint32(BlockEnd(Uint32(min), Uint32(mask))))
  }

  function BlockEnd(min: int, mask: int): (max: int)
    ensures 0 <= max < WORD
  {
    var sum := (min + MAX_WORD) % WORD;
    (sum - mask) % WORD
  }

  lemma {:induction false} AndOdd(x: nat, h: nat)
    ensures And(x, 2 * h + 1) == 2 * And(x / 2, h) + x % 2
  {
    assert (2 * h + 1) / 2 == h && (2 * h + 1) % 2 == 1;
  }

  lemma {:induction false} AndOnes(x: nat, k: nat)
    requires x < Pow2(k)
    ensures And(x, Pow2(k) - 1) == x
  {
    if k > 0 {
      AndOnes(x / 2, k - 1);
      AndOdd(x, Pow2(k - 1) - 1);
    }
  }

  lemma {:induction false} AndEven(x: nat, h: nat)
    ensures And(x, 2 * h) == 2 * And(x / 2, h)
  {
    assert 2 * h / 2 == h && 2 * h % 2 == 0;
  }

  /** k ones followed by j zeros. */
  function HighMask(k: nat, j: nat): nat
  {
    if j == 0 then Pow2(k) - 1 else 2 * HighMask(k, j - 1)
  }

  /** Masking off the j low bits rounds down to a multiple of 2^j. */
  lemma {:induction false} AndHighBits(x: nat, k: nat, j: nat)
    requires x < Pow2(k + j)
    ensures And(x, HighMask(k, j)) == x - x % Pow2(j)
  {
    if j == 0 {
      AndOnes(x, k);
    } else {
      assert Pow2(k + j) == 2 * Pow2(k + (j - 1));
      AndHighBits(x / 2, k, j - 1);
      ModDouble(x, Pow2(j - 1));
      AndEven(x, HighMask(k, j - 1));
    }
  }

  lemma {:induction false} ModDouble(x: nat, p: nat)
    requires p > 0
    ensures x % (2 * p) == 2 * (x / 2 % p) + x % 2
  {
    var q, r := x / 2 / p, x / 2 % p;
    assert x / 2 == p * q + r;
    assert x == (2 * p) * q + (2 * r + x % 2) by { assert 2 * (p * q) == (2 * p) * q; }
    ModUnique(x, 2 * p, q, 2 * r + x % 2);
  }

  lemma MulAtLeast(d: int, t: int)
    requires d > 0 && t >= 1
    ensures d * t >= d
  {
  }

  lemma {:induction false} ModUnique(x: int, d: int, q: int, r: int)
    requires d > 0 && x == d * q + r && 0 <= r < d
    ensures x / d == q && x % d == r
  {
    var q', r' := x / d, x % d;
    assert x == d * q' + r' && 0 <= r' < d;
    assert d * (q - q') == d * q - d * q' && d * (q' - q) == d * q' - d * q;
    if q > q' {
      MulAtLeast(d, q - q');
    } else if q < q' {
      MulAtLeast(d, q' - q);
    }
  }

  /** The low byte splits off a power of two that is at least 256. */
  lemma {:induction false} ModShift(h: nat, l: nat, p: nat)
    requires l < 256 && p > 0
    ensures (h * 256 + l) % (256 * p) == (h % p) * 256 + l
  {
    var q, r := h / p, h % p;
    assert h == p * q + r;
    assert h * 256 + l == (256 * p) * q + (r * 256 + l) by { assert (p * q) * 256 == (256 * p) * q; }
    ModUnique(h * 256 + l, 256 * p, q, r * 256 + l);
  }

  /** Higher bytes do not matter modulo a power of two that is at most 256. */
  lemma {:induction false} ModLowByte(h: nat, l: nat, j: nat)
    requires j <= 8 && l < 256
    ensures (h * 256 + l) % Pow2(j) == l % Pow2(j)
  {
    var p, m := Pow2(j), Pow2(8 - j);
    Pow2Add(j, 8 - j);
    assert p * m == 256 by { assert Pow2(8) == 256; }
    assert h * 256 == p * (m * h) by { MulAssociates(p, m, h); }
    ModMultiple(l, m * h, p);
  }

  lemma MulAssociates(a: int, b: int, c: int)
    ensures (a * b) * c == a * (b * c)
  {
  }

  lemma {:induction false} ModMultiple(x: int, t: int, d: int)
    requires d > 0
    ensures (d * t + x) % d == x % d
  {
    assert d * (t + x / d) == d * t + d * (x / d);
    ModUnique(d * t + x, d, t + x / d, x % d);
  }

  lemma {:induction false} Pow2Add(a: nat, b: nat)
    ensures Pow2(a + b) == Pow2(a) * Pow2(b)
  {
    if a > 0 {
      Pow2Add(a - 1, b);
      assert Pow2(a + b) == 2 * Pow2((a - 1) + b);
      assert 2 * (Pow2(a - 1) * Pow2(b)) == (2 * Pow2(a - 1)) * Pow2(b);
    }
  }

  lemma {:induction false} MaskByteValue(k: nat)
    requires k <= 8
    ensures MaskByte(k) == 256 - Pow2(8 - k) == HighMask(k, 8 - k)
  {
    assert Pow2(3) == 8 && Pow2(5) == 32 && Pow2(8) == 256;
  }

  /** A byte masked to its k leading bits. */
  lemma {:induction false} MaskedByte(x: Byte, k: nat)
    requires k <= 8
    ensures And(x, MaskByte(k)) == x - x % Pow2(8 - k)
  {
    MaskByteValue(k);
    assert Pow2(k + (8 - k)) == 256 by { assert Pow2(8) == 256; }
    AndHighBits(x, k, 8 - k);
  }

  lemma {:induction false} AndAll(x: Byte)
    ensures And(x, 255) == x && And(x, 0) == 0
  {
    MaskedByte(x, 8);
  }

  lemma {:induction false} Pow2Byte(n: nat)
    ensures Pow2(8 + n) == 256 * Pow2(n)
  {
    Pow2Add(8, n);
    assert Pow2(8) == 256;
  }

  /** x rounded down to a multiple of 2^bits. */
  function Floor(x: nat, bits: int): int
  {
    if bits <= 0 then x else x - x % Pow2(bits)
  }

  /** A byte of which the `ones` leading bits are kept. */
  function Kept(x: nat, ones: int): int
  {
    if ones <= 0 then 0 else Floor(x, 8 - ones)
  }

  lemma {:induction false} MaskedByteIsKept(x: Byte, ones: int)
    ensures And(x, MaskByte(ones)) == Kept(x, ones)
  {
    if ones >= 8 || ones <= 0 {
      AndAll(x);
    } else {
      MaskedByte(x, ones);
    }
  }

  /** Rounding a word down splits off its last byte. */
  lemma {:induction false} FloorLastByte(h: nat, l: nat, bits: int)
    requires l < 256
    ensures Floor(h * 256 + l, bits) == Floor(h, bits - 8) * 256 + Kept(l, 8 - bits)
  {
    assert Pow2(0) == 1;
    if 0 <= bits < 8 {
      ModLowByte(h, l, bits);
    } else if 8 <= bits {
      Pow2Byte(bits - 8);
      ModShift(h, l, Pow2(bits - 8));
    }
  }

  lemma {:induction false} FloorByte(x: nat, bits: int)
    requires x < 256 && bits <= 8
    ensures Floor(x, bits) == Kept(x, 8 - bits)
  {
    assert Pow2(8) == 256;
  }

  lemma {:induction false} FloorTwoBytes(a: nat, b: nat, bits: int)
    requires a < 256 && b < 256 && bits <= 16
    ensures Floor(a * 256 + b, bits) == Kept(a, 16 - bits) * 256 + Kept(b, 8 - bits)
  {
    FloorByte(a, bits - 8);
    FloorLastByte(a, b, bits);
  }

  lemma {:induction false} FloorThreeBytes(a: nat, b: nat, c: nat, bits: int)
    requires a < 256 && b < 256 && c < 256 && bits <= 24
    ensures Floor((a * 256 + b) * 256 + c, bits) ==
            (Kept(a, 24 - bits) * 256 + Kept(b, 16 - bits)) * 256 + Kept(c, 8 - bits)
  {
    FloorTwoBytes(a, b, bits - 8);
    FloorLastByte(a * 256 + b, c, bits);
  }

  lemma {:induction false} FloorFourBytes(a: nat, b: nat, c: nat, d: nat, bits: int)
    requires a < 256 && b < 256 && c < 256 && d < 256 && bits <= 32
    ensures Floor(((a * 256 + b) * 256 + c) * 256 + d, bits) ==
            ((Kept(a, 32 - bits) * 256 + Kept(b, 24 - bits)) * 256 + Kept(c, 16 - bits)) * 256 + Kept(d, 8 - bits)
  {
    FloorThreeBytes(a, b, c, bits - 8);
    FloorLastByte((a * 256 + b) * 256 + c, d, bits);
  }

  /** Masking an address clears its low 32-n bits and nothing else. */
  lemma {:induction false} MaskedWord(base: IP, n: nat)
    requires IsIPv4(base) && n <= 32
    ensures Uint32(ApplyMask(base, CIDRMask(n))) == Floor(Uint32(base), 32 - n)
  {
    MaskedByteIsKept(base[0], n);
    MaskedByteIsKept(base[1], n - 8);
    MaskedByteIsKept(base[2], n - 16);
    MaskedByteIsKept(base[3], n - 24);
    FloorFourBytes(base[0], base[1], base[2], base[3], 32 - n);
  }

  lemma {:induction false} MaskWord(n: nat)
    requires n <= 32
    ensures Uint32(CIDRMask(n)) == WORD - Pow2(32 - n)
  {
    if n >= 24 {
      MaskByteValue(n - 24);
    } else if n >= 16 {
      MaskByteValue(n - 16);
      Pow2Byte(24 - n);
    } else if n >= 8 {
      MaskByteValue(n - 8);
      Pow2Byte(24 - n);
      Pow2Byte(16 - n);
    } else {
      MaskByteValue(n);
      Pow2Byte(24 - n);
      Pow2Byte(16 - n);
      Pow2Byte(8 - n);
    }
  }

  /** Prefix notation (section 3.1 of RFC 4632): the block of `base/n` is aligned, holds 2^(32-n) addresses, and is
    * exactly the set of addresses that share the n leading bits of `base`. */
  lemma {:induction false} CidrBlock(base: IP, n: nat)
    requires IsIPv4(base) && n <= 32
    ensures var r := CidrRange(base, n);
            && IsIPv4(r.min) && IsIPv4(r.max)
            && Uint32(r.min) == Uint32(base) - Uint32(base) % Pow2(32 - n)
            && Uint32(r.max) == Uint32(r.min) + Pow2(32 - n) - 1
            && forall ip: IP | IsIPv4(ip) ::
                 Uint32(ip) / Pow2(32 - n) == Uint32(base) / Pow2(32 - n) <==>
                 Uint32(r.min) <= Uint32(ip) <= Uint32(r.max)
  {
    var r := CidrRange(base, n);
    CidrEnds(base, n);
    forall ip: IP | IsIPv4(ip)
      ensures Uint32(ip) / Pow2(32 - n) == Uint32(base) / Pow2(32 - n) <==> Uint32(r.min) <= Uint32(ip) <= Uint32(r.max)
    {
      InBlock(Uint32(ip), Uint32(base), Pow2(32 - n));
    }
  }

  lemma {:induction false} CidrEnds(base: IP, n: nat)
    requires IsIPv4(base) && n <= 32
    ensures var r := CidrRange(base, n);
            && IsIPv4(r.min) && IsIPv4(r.max)
            && Uint32(r.min) == Uint32(base) - Uint32(base) % Pow2(32 - n)
            && Uint32(r.max) == Uint32(r.min) + Pow2(32 - n) - 1
  {
    var lo := Uint32(ApplyMask(base, CIDRMask(n)));
    MaskedWord(base, n);
    assert Pow2(0) == 1;
    AlignedBlockFits(Uint32(base), n);
    assert BlockEnd(lo, Uint32(CIDRMask(n))) == lo + Pow2(32 - n) - 1 by {
      MaskWord(n);
      WrapAround(lo, Pow2(32 - n));
    }
  }

  lemma {:induction false} AlignedBlockFits(w: nat, n: nat)
    requires n <= 32 && w < WORD
    ensures 0 <= w - w % Pow2(32 - n) && w - w % Pow2(32 - n) + Pow2(32 - n) <= WORD
  {
    Pow2Add(32 - n, n);
    Pow2Word();
    assert Pow2((32 - n) + n) == WORD;
    BlockFits(Pow2(32 - n), Pow2(n), w);
  }

  /** An aligned block that starts below 2^32 ends below it. */
  lemma {:induction false} BlockFits(size: nat, blocks: nat, w: nat)
    requires size > 0 && size * blocks == WORD && w < WORD
    ensures 0 <= w - w % size && w - w % size + size <= WORD
  {
    var q := w / size;
    assert w == size * q + w % size;
    assert size * (q - blocks) == size * q - size * blocks;
    assert size * (blocks - q) == size * blocks - size * q;
    if q < blocks {
      MulAtLeast(size, blocks - q);
    } else if q > blocks {
      MulAtLeast(size, q - blocks);
    }
  }

  /** Adding 0xffffffff wraps around and subtracting the mask wraps back. */
  lemma {:induction false} WrapAround(lo: nat, size: nat)
    requires 0 < size && lo + size <= WORD
    ensures BlockEnd(lo, WORD - size) == lo + size - 1
  {
    if lo == 0 {
      assert (lo + MAX_WORD) % WORD == MAX_WORD;
    } else {
      assert (lo + MAX_WORD) % WORD == lo - 1;
    }
  }

  lemma {:induction false} Pow2Word()
    ensures Pow2(32) == WORD
  {
    assert Pow2(8) == 256;
    Pow2Add(8, 8);
    Pow2Add(16, 16);
  }

  /** x and w lie in the same aligned block. */
  lemma {:induction false} InBlock(x: nat, w: nat, size: nat)
    requires size > 0
    ensures x / size == w / size <==> w - w % size <= x <= w - w % size + size - 1
  {
    var q := w / size;
    assert w == size * q + w % size && x == size * (x / size) + x % size;
    if size * q <= x <= size * q + size - 1 {
      ModUnique(x, size, q, x - size * q);
    }
  }
}
