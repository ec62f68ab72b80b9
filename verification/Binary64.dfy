/**
 * Exact accounting over IEEE 754-2019 binary64 bit patterns (section 3.4): the boundary's and the
 * kernel's integer computation of ceil(value * 10^6), and the comparison of raw bits and of raw
 * big-endian bytes that the program uses in place of a comparison of numbers.
 */
module Binary64 {
  import opened Wrappers

  const TWO_52: nat := 0x10_0000_0000_0000
  const TWO_63: nat := 0x8000_0000_0000_0000
  const TWO_64: nat := 0x1_0000_0000_0000_0000
  const TWO_128: nat := 0x1_0000_0000_0000_0000_0000_0000_0000_0000
  const MICRO: nat := 1_000_000

  type Byte = b: int | 0 <= b < 256
  type Word64 = bits: int | 0 <= bits < 0x1_0000_0000_0000_0000
  type BigEndian64 = bytes: seq<Byte> | |bytes| == 8 witness [0, 0, 0, 0, 0, 0, 0, 0]

  datatype CostError =
    | InvalidHex
    | NonFiniteOrNegative
    | Overflow
    | InconsistentUsage
    | RegressedUsage
    | UnavailableUsage

  function Pow2(k: nat): (p: nat)
    ensures p > 0
  {
    if k == 0 then 1 else 2 * Pow2(k - 1)
  }

  // ---------- the format ----------

  function BiasedExponent(bits: Word64): (e: nat)
    ensures e < 2048
  {
    bits / TWO_52 % 2048
  }

  function Fraction(bits: Word64): (f: nat)
    ensures f < TWO_52
  {
    bits % TWO_52
  }

  /** Sign bit clear and exponent field not all ones. */
  predicate Admitted(bits: Word64) {
    bits / TWO_63 == 0 && BiasedExponent(bits) != 0x7ff
  }

  type Cost = bits: Word64 | Admitted(bits) witness 0

  /** The implicit leading bit is present exactly for normal numbers. */
  function Significand(bits: Word64): nat {
    if BiasedExponent(bits) == 0 then Fraction(bits) else TWO_52 + Fraction(bits)
  }

  function BinaryExponent(bits: Word64): int {
    if BiasedExponent(bits) == 0 then -1074 else BiasedExponent(bits) - 1075
  }

  /** The value in units of 2^-u: a whole number once u reaches the subnormal exponent. */
  ghost function Scaled(bits: Word64, u: nat): nat
    requires u >= 1074
  {
    Significand(bits) * Pow2(BinaryExponent(bits) + u)
  }

  function Shifted(bits: Word64): nat
    requires BinaryExponent(bits) >= 0
  {
    Significand(bits) * MICRO * Pow2(BinaryExponent(bits))
  }

  /** n - 1 < Significand * 2^BinaryExponent * 10^6 <= n, cleared of denominators. */
  ghost predicate IsMicroCeiling(bits: Word64, n: int) {
    if BinaryExponent(bits) >= 0 then
      n == Shifted(bits)
    else
      (n - 1) * Pow2(-BinaryExponent(bits)) < Significand(bits) * MICRO <= n * Pow2(-BinaryExponent(bits))
  }

  // ---------- the boundary's implementation (cost.rs) ----------

  function HexDigit(c: char): Option<nat> {
    if '0' <= c <= '9' then Some(c as int - '0' as int)
    else if 'a' <= c <= 'f' then Some(c as int - 'a' as int + 10)
    else None
  }

  /** `u64::from_str_radix(_, 16)` on lower-case digits. */
  function HexValue(s: string): (r: Option<nat>)
    ensures r.Some? ==> r.value < Pow2(4 * |s|)
  {
    if s == "" then Some(0)
    else
      var high := HexValue(s[..|s| - 1]);
      var low := HexDigit(s[|s| - 1]);
      if high.Some? && low.Some? then
        var n := 4 * |s|;
        assert Pow2(n) == 2 * Pow2(n - 1) == 4 * Pow2(n - 2) == 8 * Pow2(n - 3) == 16 * Pow2(n - 4);
        Some(16 * high.value + low.value)
      else None
  }

  /** Sixteen hexadecimal digits name one admitted bit pattern, or are refused. */
  function CostFromHex(hex: string): Result<Cost, CostError> {
    var value := HexValue(hex);
    if |hex| != 16 || value.None? then Err(InvalidHex)
    else
      Pow2At64();
      if Admitted(value.value) then Ok(value.value) else Err(NonFiniteOrNegative)
  }

  /** `u128::checked_shl`: refuses only a shift count of 128 or more; lost high bits are dropped. */
  function CheckedShl128(n: nat, shift: nat): Option<nat> {
    if shift >= 128 then None else Some(n * Pow2(shift) % TWO_128)
  }

  /** `ProviderCost::ceil_to_micro_usd`. */
  function CeilToMicroUsd(bits: Cost): Result<nat, CostError> {
    if BiasedExponent(bits) == 0 && Fraction(bits) == 0 then Ok(0)
    else
      var numerator := Significand(bits) * MICRO;
      if BinaryExponent(bits) >= 0 then
        match CheckedShl128(numerator, BinaryExponent(bits))
        case Some(n) => Ok(n)
        case None => Err(Overflow)
      else
        var shift := -BinaryExponent(bits);
        if shift >= 128 then Ok(1)
        else
          var denominator := Pow2(shift);
          Ok(numerator / denominator + (if numerator % denominator != 0 then 1 else 0))
  }

  // ---------- the kernel's implementation (domain.rs) ----------

  function FromBigEndian(bytes: seq<Byte>): nat {
    if bytes == [] then 0 else FromBigEndian(bytes[..|bytes| - 1]) * 256 + bytes[|bytes| - 1]
  }

  /** `i64::try_from` after the same integer arithmetic on the eight stored bytes. */
  function KernelCeilMicroUsd(bytes: BigEndian64): Result<nat, CostError>
    requires FromBigEndian(bytes) < TWO_64 && Admitted(FromBigEndian(bytes))
  {
    var bits := FromBigEndian(bytes);
    if BiasedExponent(bits) == 0 && Fraction(bits) == 0 then Ok(0)
    else
      var numerator := Significand(bits) * MICRO;
      var microUsd :=
        if BinaryExponent(bits) >= 0 then CheckedShl128(numerator, BinaryExponent(bits))
        else if -BinaryExponent(bits) >= 128 then Some(1)
        else
          var denominator := Pow2(-BinaryExponent(bits));
          Some(numerator / denominator + (if numerator % denominator != 0 then 1 else 0));
      if microUsd.Some? && microUsd.value < TWO_63 then Ok(microUsd.value) else Err(Overflow)
  }

  // ---------- powers of two ----------

  lemma {:induction false} Pow2Add(a: nat, b: nat)
    ensures Pow2(a + b) == Pow2(a) * Pow2(b)
  {
    if a > 0 { Pow2Add(a - 1, b); }
  }

  lemma {:induction false} Pow2Mono(a: nat, b: nat)
    requires a <= b
    ensures Pow2(a) <= Pow2(b)
  {
    if a < b { Pow2Mono(a, b - 1); }
  }

  lemma Pow2At32()
    ensures Pow2(32) == 0x1_0000_0000
  {
    assert Pow2(8) == 256;
    Pow2Add(8, 8);
    Pow2Add(16, 16);
  }

  lemma Pow2At64()
    ensures Pow2(64) == TWO_64
  {
    Pow2At32();
    Pow2Add(32, 32);
  }

  lemma Pow2At128()
    ensures Pow2(128) == TWO_128
  {
    Pow2At64();
    Pow2Add(64, 64);
  }

  lemma Pow2At73()
    ensures Pow2(73) == 512 * TWO_64 && TWO_128 == Pow2(73) * Pow2(55)
  {
    Pow2At64();
    Pow2At128();
    assert Pow2(9) == 512;
    Pow2Add(64, 9);
    Pow2Add(73, 55);
  }

  lemma {:induction false} MulOrder(x: int, y: int, s: nat)
    requires x < y && s > 0
    ensures x * s < y * s
  {
    if s > 1 { MulOrder(x, y, s - 1); }
  }

  lemma MulOrderWeak(x: int, y: int, s: nat)
    requires x <= y
    ensures x * s <= y * s
  {
    if x < y && s > 0 { MulOrder(x, y, s); }
  }

  // ---------- exactness of the ceiling ----------

  /** The ceiling condition on the value itself, at any scale that makes the value whole. */
  lemma CeilingAtScale(bits: Word64, n: int, u: nat)
    requires u >= 1074
    ensures IsMicroCeiling(bits, n) ==> (n - 1) * Pow2(u) < Scaled(bits, u) * MICRO <= n * Pow2(u)
  {
    if IsMicroCeiling(bits, n) {
      var e := BinaryExponent(bits);
      if e >= 0 {
        Pow2Add(e, u);
        ScaleWhole(Significand(bits), Pow2(e), Pow2(u), n);
      } else {
        Pow2Add(-e, e + u);
        ScaleFraction(Significand(bits), Pow2(-e), Pow2(e + u), n);
      }
    }
  }

  lemma ScaleWhole(s: nat, p: nat, w: nat, n: int)
    requires n == s * MICRO * p && w > 0
    ensures (n - 1) * w < s * (p * w) * MICRO <= n * w
  {
    assert s * (p * w) * MICRO == n * w;
    MulOrder(n - 1, n, w);
  }

  lemma ScaleFraction(s: nat, d: nat, q: nat, n: int)
    requires (n - 1) * d < s * MICRO <= n * d && q > 0
    ensures (n - 1) * (d * q) < s * q * MICRO <= n * (d * q)
  {
    MulOrder((n - 1) * d, s * MICRO, q);
    MulOrderWeak(s * MICRO, n * d, q);
    assert s * MICRO * q == s * q * MICRO;
    assert (n - 1) * d * q == (n - 1) * (d * q) && n * d * q == n * (d * q);
  }

  lemma CeilingIsUnique(bits: Word64, m: int, n: int)
    requires IsMicroCeiling(bits, m) && IsMicroCeiling(bits, n)
    ensures m == n
  {
    if BinaryExponent(bits) < 0 {
      BracketsMeet(m, n, Pow2(-BinaryExponent(bits)), Significand(bits) * MICRO, Significand(bits) * MICRO);
      BracketsMeet(n, m, Pow2(-BinaryExponent(bits)), Significand(bits) * MICRO, Significand(bits) * MICRO);
    }
  }

  lemma BracketsMeet(m: int, n: int, d: nat, x: int, y: int)
    requires d > 0 && (m - 1) * d < x <= y <= n * d
    ensures m <= n
  {
    if n < m { MulOrderWeak(n, m - 1, d); }
  }

  /** A quotient rounded up brackets the fraction it came from. */
  lemma RoundedUpQuotient(numerator: nat, d: nat)
    requires d > 0
    ensures var n := numerator / d + (if numerator % d != 0 then 1 else 0);
            (n - 1) * d < numerator <= n * d
  {
    var q, r := numerator / d, numerator % d;
    assert numerator == q * d + r;
    assert (q - 1) * d == q * d - d;
    assert (q + 1) * d == q * d + d;
  }

  /** Below the unit, for every subnormal and every denominator, 2^128 and beyond included. */
  lemma ExactBelowUnit(bits: Cost)
    requires BinaryExponent(bits) < 0
    ensures CeilToMicroUsd(bits).Ok? && IsMicroCeiling(bits, CeilToMicroUsd(bits).value)
  {
    var numerator := Significand(bits) * MICRO;
    var k := -BinaryExponent(bits);
    if numerator != 0 {
      if k >= 128 {
        Pow2At128();
        Pow2Mono(128, k);
      } else {
        RoundedUpQuotient(numerator, Pow2(k));
      }
    }
  }

  /** The numerator stays below 2^73, so every shift up to 55 keeps all its bits. */
  lemma SmallShiftFits(bits: Cost)
    requires 0 <= BinaryExponent(bits) <= 55
    ensures Shifted(bits) < TWO_128
  {
    var numerator := Significand(bits) * MICRO;
    var e := BinaryExponent(bits);
    Pow2At73();
    Pow2Mono(e, 55);
    assert numerator < Pow2(73);
    MulOrder(numerator, Pow2(73), Pow2(e));
    assert Pow2(73) * Pow2(e) <= Pow2(73) * Pow2(55) by { MulOrderWeak(Pow2(e), Pow2(55), Pow2(73)); }
  }

  /** The caller-checkable guard under which no shifted-out bit is lost. */
  predicate KeepsAllBits(bits: Cost) {
    BinaryExponent(bits) < 0 || Shifted(bits) < TWO_128
  }

  /** The documented promise, and exactly when the code meets it: the result is the ceiling if and
      only if no bit is shifted out; otherwise it refuses (shift of 128 or more) or undercharges. */
  lemma CeilingExactness(bits: Cost)
    ensures (CeilToMicroUsd(bits).Ok? && IsMicroCeiling(bits, CeilToMicroUsd(bits).value))
        <==> KeepsAllBits(bits)
    ensures CeilToMicroUsd(bits).Err? <==> BinaryExponent(bits) >= 128
    ensures CeilToMicroUsd(bits).Ok? && !KeepsAllBits(bits)
        ==> forall n :: IsMicroCeiling(bits, n) ==> CeilToMicroUsd(bits).value < n
  {
    if BinaryExponent(bits) < 0 {
      ExactBelowUnit(bits);
    } else {
      NormalIsPositive(bits);
      ShiftedResult(bits);
      if BinaryExponent(bits) >= 128 { LargeShiftOverflows(Significand(bits) * MICRO, BinaryExponent(bits)); }
    }
  }

  lemma ShiftedResult(bits: Cost)
    requires BinaryExponent(bits) >= 0 && BiasedExponent(bits) > 0
    ensures CeilToMicroUsd(bits) == if BinaryExponent(bits) >= 128 then Err(Overflow) else Ok(Shifted(bits) % TWO_128)
    ensures Shifted(bits) % TWO_128 == Shifted(bits) <==> Shifted(bits) < TWO_128
    ensures Shifted(bits) % TWO_128 < TWO_128
  {
  }

  lemma NormalIsPositive(bits: Cost)
    requires BinaryExponent(bits) >= 0
    ensures BiasedExponent(bits) > 0 && Significand(bits) >= TWO_52
  {
  }

  lemma LargeShiftOverflows(numerator: nat, e: nat)
    requires numerator >= 1 && e >= 128
    ensures numerator * Pow2(e) >= TWO_128
  {
    Pow2At128();
    Pow2Mono(128, e);
    MulOrderWeak(1, numerator, Pow2(e));
  }

  /** The range the program relies on. */
  lemma ExactUpToShift55(bits: Cost)
    requires BinaryExponent(bits) <= 55
    ensures KeepsAllBits(bits)
    ensures CeilToMicroUsd(bits).Ok? && IsMicroCeiling(bits, CeilToMicroUsd(bits).value)
    ensures forall n :: IsMicroCeiling(bits, n) ==> n == CeilToMicroUsd(bits).value
  {
    if BinaryExponent(bits) >= 0 { SmallShiftFits(bits); }
    CeilingExactness(bits);
    forall n | IsMicroCeiling(bits, n) ensures n == CeilToMicroUsd(bits).value {
      CeilingIsUnique(bits, n, CeilToMicroUsd(bits).value);
    }
  }

  /** 2^122 dollars are charged as nothing: the shift by 70 drops every set bit. */
  lemma LostBitsWitness()
    ensures Admitted(0x4790_0000_0000_0000)
    ensures CeilToMicroUsd(0x4790_0000_0000_0000) == Ok(0)
    ensures !KeepsAllBits(0x4790_0000_0000_0000)
  {
    var bits := 0x4790_0000_0000_0000;
    assert BiasedExponent(bits) == 1145 && Fraction(bits) == 0;
    Pow2At64();
    assert Pow2(6) == 64;
    Pow2Add(64, 6);
    assert TWO_52 * MICRO * Pow2(70) == 15625 * TWO_128;
  }

  // ---------- the two implementations agree ----------

  lemma {:induction false} FromBigEndianBound(bytes: seq<Byte>)
    ensures FromBigEndian(bytes) < Pow2(8 * |bytes|)
  {
    if bytes != [] {
      var n := 8 * |bytes|;
      FromBigEndianBound(bytes[..|bytes| - 1]);
      assert Pow2(8) == 256;
      Pow2Add(n - 8, 8);
    }
  }

  lemma StoredBytesFit(bytes: BigEndian64)
    ensures FromBigEndian(bytes) < TWO_64
  {
    FromBigEndianBound(bytes);
    Pow2At64();
  }

  /** The kernel recomputes the boundary's number, and returns it exactly when it fits an i64. */
  lemma KernelAgreesWithBoundary(bytes: BigEndian64, n: nat)
    requires FromBigEndian(bytes) < TWO_64 && Admitted(FromBigEndian(bytes))
    ensures KernelCeilMicroUsd(bytes) == Ok(n)
        <==> CeilToMicroUsd(FromBigEndian(bytes)) == Ok(n) && n <= 0x7fff_ffff_ffff_ffff
    ensures KernelCeilMicroUsd(bytes) == Ok(n) && BinaryExponent(FromBigEndian(bytes)) <= 55
        ==> IsMicroCeiling(FromBigEndian(bytes), n)
  {
    if BinaryExponent(FromBigEndian(bytes)) <= 55 { ExactUpToShift55(FromBigEndian(bytes)); }
  }

  /** The true charge of a cost that fits an i64 is always returned; what is returned otherwise is a wrapped one. */
  lemma KernelExactness(bytes: BigEndian64, n: nat)
    requires FromBigEndian(bytes) < TWO_64 && Admitted(FromBigEndian(bytes))
    ensures KernelCeilMicroUsd(bytes) == Ok(n) && IsMicroCeiling(FromBigEndian(bytes), n)
        <==> IsMicroCeiling(FromBigEndian(bytes), n) && n < TWO_63
    ensures KernelCeilMicroUsd(bytes) == Ok(n) && !IsMicroCeiling(FromBigEndian(bytes), n)
        <==> !KeepsAllBits(FromBigEndian(bytes)) && CeilToMicroUsd(FromBigEndian(bytes)) == Ok(n) && n < TWO_63
  {
    hide KernelCeilMicroUsd, CeilToMicroUsd;
    var bits := FromBigEndian(bytes);
    KernelAgreesWithBoundary(bytes, n);
    CeilingExactness(bits);
    if IsMicroCeiling(bits, n) && KeepsAllBits(bits) { CeilingIsUnique(bits, n, CeilToMicroUsd(bits).value); }
    if IsMicroCeiling(bits, n) && n < TWO_63 { assert KeepsAllBits(bits); }
  }

  /** The stored bytes of 2^122 are charged as nothing by the kernel too. */
  lemma KernelLostBits()
    ensures var bytes: BigEndian64 := [0x47, 0x90, 0, 0, 0, 0, 0, 0];
      && FromBigEndian(bytes) == 0x4790_0000_0000_0000 && Admitted(FromBigEndian(bytes))
      && KernelCeilMicroUsd(bytes) == Ok(0)
  {
    hide CeilToMicroUsd, KernelCeilMicroUsd;
    var bytes: BigEndian64 := [0x47, 0x90, 0, 0, 0, 0, 0, 0];
    BytesOfTwo122();
    LostBitsWitness();
    KernelAgreesWithBoundary(bytes, 0);
  }

  lemma BytesOfTwo122()
    ensures FromBigEndian([0x47, 0x90, 0, 0, 0, 0, 0, 0]) == 0x4790_0000_0000_0000
  {
    FromBigEndianHead([0x47, 0x90, 0, 0, 0, 0, 0, 0]);
    FromBigEndianHead([0x90, 0, 0, 0, 0, 0, 0]);
    ZeroBytes([0, 0, 0, 0, 0, 0]);
    assert [0x47, 0x90, 0, 0, 0, 0, 0, 0][1..] == [0x90, 0, 0, 0, 0, 0, 0];
    assert [0x90, 0, 0, 0, 0, 0, 0][1..] == [0, 0, 0, 0, 0, 0];
    Pow2At32();
    assert Pow2(8) == 256;
    Pow2Add(8, 8);
    Pow2Add(32, 8);
    Pow2Add(32, 16);
    Pow2Add(40, 16);
  }

  lemma {:induction false} ZeroBytes(bytes: seq<Byte>)
    requires forall i :: 0 <= i < |bytes| ==> bytes[i] == 0
    ensures FromBigEndian(bytes) == 0
  {
    if bytes != [] { ZeroBytes(bytes[..|bytes| - 1]); }
  }

  // ---------- bit order is value order ----------

  lemma BitsSplit(bits: Cost)
    ensures bits == BiasedExponent(bits) * TWO_52 + Fraction(bits)
  {
    var b: int := bits;
    assert b / TWO_63 == 0 by { assert Admitted(bits); }
    assert b < TWO_63;
    assert b / TWO_52 < 2048;
  }

  /** Strictly increasing across every exponent step, the subnormal-to-normal one included. */
  lemma BitsOrderScaled(a: Cost, b: Cost, u: nat)
    requires a < b && u >= 1074
    ensures Scaled(a, u) < Scaled(b, u)
  {
    var ea, eb := BiasedExponent(a), BiasedExponent(b);
    var pa, pb := Pow2(BinaryExponent(a) + u), Pow2(BinaryExponent(b) + u);
    BitsSplit(a);
    BitsSplit(b);
    assert ea <= eb;
    if BinaryExponent(a) == BinaryExponent(b) {
      MulOrder(Significand(a), Significand(b), pa);
    } else {
      MulOrder(Significand(a), 2 * TWO_52, pa);
      assert 2 * pa == Pow2(BinaryExponent(a) + u + 1);
      Pow2Mono(BinaryExponent(a) + u + 1, BinaryExponent(b) + u);
      MulOrderWeak(2 * pa, pb, TWO_52);
      MulOrderWeak(TWO_52, Significand(b), pb);
    }
  }

  /** Comparing raw bits compares the numbers, whatever the common scale. */
  lemma BitOrderIsValueOrder(a: Cost, b: Cost, u: nat)
    requires u >= 1074
    ensures a < b <==> Scaled(a, u) < Scaled(b, u)
    ensures a == b <==> Scaled(a, u) == Scaled(b, u)
  {
    if a < b {
      BitsOrderScaled(a, b, u);
    } else if b < a {
      BitsOrderScaled(b, a, u);
    }
  }

  /** Rust's derived order on `[u8; 8]`. */
  predicate LexLess(a: seq<Byte>, b: seq<Byte>)
    requires |a| == |b|
  {
    a != [] && (a[0] < b[0] || (a[0] == b[0] && LexLess(a[1..], b[1..])))
  }

  lemma {:induction false} FromBigEndianHead(bytes: seq<Byte>)
    requires bytes != []
    ensures FromBigEndian(bytes) == bytes[0] * Pow2(8 * (|bytes| - 1)) + FromBigEndian(bytes[1..])
  {
    var last := bytes[|bytes| - 1];
    var init := bytes[..|bytes| - 1];
    if |bytes| == 1 {
      assert init == [] && bytes[1..] == [];
      assert FromBigEndian(bytes) == FromBigEndian(init) * 256 + last;
    } else {
      FromBigEndianHead(init);
      assert bytes[1..][..|bytes| - 2] == init[1..];
      assert FromBigEndian(bytes[1..]) == FromBigEndian(init[1..]) * 256 + last;
      ShiftByByte(|bytes| - 2);
      var p := Pow2(8 * (|bytes| - 2));
      assert (bytes[0] * p) * 256 == bytes[0] * (p * 256);
    }
  }

  lemma ShiftByByte(n: nat)
    ensures Pow2(8 * (n + 1)) == Pow2(8 * n) * 256
  {
    Pow2Add(8 * n, 8);
    assert Pow2(8) == 256;
  }

  lemma {:induction false} ByteOrderIsBitOrder(a: seq<Byte>, b: seq<Byte>)
    requires |a| == |b|
    ensures LexLess(a, b) <==> FromBigEndian(a) < FromBigEndian(b)
    ensures a == b <==> FromBigEndian(a) == FromBigEndian(b)
  {
    if a != [] {
      var unit := Pow2(8 * (|a| - 1));
      FromBigEndianHead(a);
      FromBigEndianHead(b);
      FromBigEndianBound(a[1..]);
      FromBigEndianBound(b[1..]);
      HeadDecides(a[0], b[0], unit, FromBigEndian(a[1..]), FromBigEndian(b[1..]));
      if a[0] == b[0] {
        ByteOrderIsBitOrder(a[1..], b[1..]);
        assert a == [a[0]] + a[1..] && b == [b[0]] + b[1..];
      }
    }
  }

  lemma HeadDecides(x: int, y: int, unit: nat, s: nat, t: nat)
    requires s < unit && t < unit
    ensures x < y ==> x * unit + s < y * unit + t
    ensures y < x ==> y * unit + t < x * unit + s
  {
    if x < y { MulOrderWeak(x + 1, y, unit); }
    if y < x { MulOrderWeak(y + 1, x, unit); }
  }

  /** A larger number never gets a smaller ceiling. */
  lemma CeilingIsMonotone(a: Cost, b: Cost)
    requires a <= b && KeepsAllBits(a) && KeepsAllBits(b)
    ensures CeilToMicroUsd(a).Ok? && CeilToMicroUsd(b).Ok?
    ensures CeilToMicroUsd(a).value <= CeilToMicroUsd(b).value
  {
    var u: nat :| u >= 1074;
    CeilingExactness(a);
    CeilingExactness(b);
    var m, n := CeilToMicroUsd(a).value, CeilToMicroUsd(b).value;
    CeilingAtScale(a, m, u);
    CeilingAtScale(b, n, u);
    BitOrderIsValueOrder(a, b, u);
    BracketsMeet(m, n, Pow2(u), Scaled(a, u) * MICRO, Scaled(b, u) * MICRO);
  }

  // ---------- where bits are lost ----------

  /** The largest cost whose ceiling fits the 128-bit word, and that ceiling. */
  const LARGEST_EXACT: nat := 0x46B0_C6F7_A0B5_ED8D
  const LARGEST_CEILING: nat := 0xFFFF_FFFF_FFFF_FCBD_4000_0000_0000_0000

  lemma ShiftedAtScale(bits: Cost, u: nat)
    requires BinaryExponent(bits) >= 0 && u >= 1074
    ensures Shifted(bits) * Pow2(u) == Scaled(bits, u) * MICRO
  {
    var e := BinaryExponent(bits);
    Pow2Add(e, u);
    Rearranged(Significand(bits), MICRO, Pow2(e), Pow2(u));
  }

  lemma Rearranged(s: nat, m: nat, p: nat, w: nat)
    ensures s * m * p * w == s * (p * w) * m
  {
  }

  lemma ShiftedOrder(a: Cost, b: Cost)
    requires a < b && BinaryExponent(a) >= 0 && BinaryExponent(b) >= 0
    ensures Shifted(a) < Shifted(b)
  {
    hide Shifted, Scaled;
    BitsOrderScaled(a, b, 1074);
    ShiftedAtScale(a, 1074);
    ShiftedAtScale(b, 1074);
    MulOrder(Scaled(a, 1074), Scaled(b, 1074), MICRO);
    if Shifted(b) <= Shifted(a) { MulOrderWeak(Shifted(b), Shifted(a), Pow2(1074)); }
  }

  lemma AtTheEdge()
    ensures Admitted(LARGEST_EXACT) && BinaryExponent(LARGEST_EXACT) == 56 && Shifted(LARGEST_EXACT) == LARGEST_CEILING
    ensures Admitted(LARGEST_EXACT + 1) && BinaryExponent(LARGEST_EXACT + 1) == 56 && Shifted(LARGEST_EXACT + 1) >= TWO_128
  {
    Pow2At32();
    assert Pow2(24) == 0x100_0000;
    Pow2Add(32, 24);
    assert BiasedExponent(LARGEST_EXACT) == 1131 && Fraction(LARGEST_EXACT) == 218766855499149;
    assert BiasedExponent(LARGEST_EXACT + 1) == 1131 && Fraction(LARGEST_EXACT + 1) == 218766855499150;
  }

  /** No bit is lost exactly up to one bit pattern, a little under 3.4 * 10^32 dollars. */
  lemma KeepsAllBitsIsARange(bits: Cost)
    ensures KeepsAllBits(bits) <==> bits <= LARGEST_EXACT
  {
    hide Shifted;
    AtTheEdge();
    if BinaryExponent(bits) < 0 {
      BitsSplit(bits);
    } else if bits < LARGEST_EXACT {
      ShiftedOrder(bits, LARGEST_EXACT);
    } else if bits > LARGEST_EXACT + 1 {
      ShiftedOrder(LARGEST_EXACT + 1, bits);
    }
  }

  lemma CeilingAtTheEdge()
    ensures Admitted(LARGEST_EXACT) && CeilToMicroUsd(LARGEST_EXACT) == Ok(LARGEST_CEILING)
  {
    hide CeilToMicroUsd, Shifted;
    AtTheEdge();
    NormalIsPositive(LARGEST_EXACT);
    ShiftedResult(LARGEST_EXACT);
  }
}
