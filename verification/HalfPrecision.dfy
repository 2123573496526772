/** f32 <-> f16: the bit algorithm of the bus, proved to be the correctly rounded conversion. */
module HalfPrecision {
  import opened Bits
  import opened MiniFloat

  /** IEEE 754 section 4.3: what an f32 word becomes in f16. NaNs stay NaN, infinities keep their
      sign, and a finite word takes the code its exact value rounds to. */
  function HalfOf(bits: nat): (h: nat) {
    var sign := if Shr(bits, 31) != 0 then 0x8000 else 0;
    match DecodeMini(bits, F32)
    case NaN => sign + 0x7c00 + 0x200
    case Inf(_) => sign + 0x7c00
    case Fin(_, mag) => sign + RoundMagnitude(mag)
  }

  function RoundMagnitude(mag: real): (m: nat) {
    if mag >= 0.0 then RoundCode(mag, F16) else 0
  }

  /** The source's bit arithmetic: the sign and the special values here, the rounding in
      `RoundWord`. */
  method F32ToF16(bits: nat) returns (h: nat)
    requires bits < 0x1_0000_0000
    ensures h == HalfOf(bits)
  {
    var sign := if Shr(bits, 16) >= 0x8000 then 0x8000 else 0; // bit 31, moved to bit 15
    var exponent := Low(Shr(bits, 23), 8);
    var mantissa := Low(bits, 23);
    SignField(bits);
    WordValue(bits);
    if exponent == 0xff {
      return sign + 0x7c00 + if mantissa != 0 then 0x200 else 0;
    }
    WordIsPositive(exponent, mantissa);
    var m := RoundWord(exponent, mantissa);
    return sign + m;
  }

  method RoundWord(exponent: nat, mantissa: nat) returns (h: nat)
    requires exponent < 0xff && mantissa < 0x800000
    ensures h == RoundMagnitude(WordMagnitude(exponent, mantissa))
  {
    hide *;
    if exponent >= 0x1f + 112 {
      OverflowCase(exponent, mantissa);
      return 0x7c00;
    }
    if exponent <= 112 {
      if exponent < 102 {
        UnderflowCase(exponent, mantissa);
        return 0;
      }
      SubnormalCase(exponent, mantissa);
      var shift := 14 + 112 - exponent;
      var rounded := Shr(mantissa + 0x800000 + Shl(1, shift - 1), shift);
      return rounded;
    }
    NormalCase(exponent, mantissa);
    var e := exponent - 112;
    var rounded := mantissa + 0x0fff + Shr(mantissa, 13) % 2;
    if Shr(rounded, 23) % 2 == 1 {
      e := e + 1;
      if e >= 0x1f {
        return 0x7c00;
      }
      return Shl(e, 10);
    }
    return Shl(e, 10) + Low(Shr(rounded, 13), 10);
  }

  // ── reading the word ──────────────────────────────────────────────────────

  lemma {:induction false} ShrCompose(n: nat, j: nat, k: nat)
    ensures Shr(Shr(n, j), k) == Shr(n, j + k)
  {
    if j > 0 { ShrCompose(n / 2, j - 1, k); }
  }

  lemma SignField(bits: nat)
    requires bits < 0x1_0000_0000
    ensures Shr(bits, 16) >= 0x8000 <==> Shr(bits, 31) != 0
  {
    ShrCompose(bits, 16, 15);
    HighLow(Shr(bits, 16), 15);
    ShlMono(1, Shr(Shr(bits, 16), 15), 15);
    ShlZero(15);
    Constants();
  }

  /** A word's exponent and mantissa fields give its value. */
  function WordMagnitude(exponent: nat, mantissa: nat): real {
    FieldValue(exponent, mantissa, F32)
  }

  lemma WordValue(bits: nat)
    requires bits < 0x1_0000_0000
    ensures var e, m := Low(Shr(bits, 23), 8), Low(bits, 23);
            && e < 256 && m < 0x800000
            && (e == 0xff ==> DecodeMini(bits, F32) == if m != 0 then NaN else Inf(Shr(bits, 31) != 0))
            && (e != 0xff ==> DecodeMini(bits, F32) == Fin(Shr(bits, 31) != 0, WordMagnitude(e, m)))
  {
    Constants();
    FieldScaled(Low(Shr(bits, 23), 8), Low(bits, 23), F32);
  }

  // ── the four ranges ───────────────────────────────────────────────────────

  lemma Constants()
    ensures Pow(10) == 1024 && Pow(23) == 0x800000 && FiniteCodes(F16) == 0x7c00
    ensures Wide(F16) && MinExp(F16) == -14 && TopExp(F16) == 15
    ensures MinExp(F32) == -126 && Pow(12) == 4096 && Pow(13) == 8192
    ensures Pow(8) == 256 && Pow(15) == 0x8000 && Pow(16) == 0x1_0000
  {
    assert Shl(1, 5) == 32 && Shl(1, 8) == 256 && Shl(1, 10) == 1024 && Shl(31, 10) == 0x7c00;
    assert Shl(1024, 2) == 4096 && Shl(1024, 3) == 8192 && Shl(1024, 5) == 0x8000;
    assert Shl(8192, 5) == 0x4_0000 && Shl(0x4_0000, 5) == 0x80_0000;
    ShlCompose(1, 10, 2);
    ShlCompose(1, 10, 3);
    ShlCompose(1, 10, 5);
    ShlCompose(1, 13, 5);
    ShlCompose(1, 18, 5);
  }

  /** A normal word is 2^23 + mantissa units of its spacing, inside its binade. */
  lemma NormalWord(exponent: nat, mantissa: nat)
    requires 0 < exponent < 255 && mantissa < 0x800000
    ensures WordMagnitude(exponent, mantissa) == Scale((0x800000 + mantissa) as real, exponent - 150)
    ensures Scale(1.0, exponent - 127) <= WordMagnitude(exponent, mantissa) < Scale(1.0, exponent - 126)
  {
    Constants();
    var n := (0x800000 + mantissa) as real;
    ScaleInt(1, 23);
    ScaleInt(1, 24);
    assert Shl(1, 24) == 0x1000000;
    ScaleCompose(1.0, 23, exponent - 150);
    ScaleCompose(1.0, 24, exponent - 150);
    ScaleOrder(n, 8388608.0, exponent - 150);
    ScaleOrder(n, 16777216.0, exponent - 150);
  }

  lemma WordIsPositive(exponent: nat, mantissa: nat)
    requires exponent < 255 && mantissa < 0x800000
    ensures WordMagnitude(exponent, mantissa) >= 0.0
    ensures exponent == 0 ==> WordMagnitude(exponent, mantissa) < Scale(1.0, -126)
  {
    Constants();
    ScaleInt(1, 23);
    ScaleCompose(1.0, 23, -149);
    var n := (if exponent == 0 then mantissa else 0x800000 + mantissa) as real;
    ScaleSign(n, Spacing(exponent, F32));
    ScaleOrder(mantissa as real, 8388608.0, -149);
  }

  lemma {:induction false} BinadeUnique(x: real, lo: int, k: int, e: int)
    requires lo <= e <= k
    requires e > lo ==> Scale(1.0, e) <= x
    requires x < Scale(1.0, e + 1)
    ensures Binade(x, lo, k) == e
    decreases k - lo
  {
    if k > e {
      ScaleMonoExp(1.0, e + 1, k);
      BinadeUnique(x, lo, k - 1, e);
    }
  }

  lemma OverflowCase(exponent: nat, mantissa: nat)
    requires 143 <= exponent < 255 && mantissa < 0x800000
    ensures RoundMagnitude(WordMagnitude(exponent, mantissa)) == 0x7c00
  {
    Constants();
    NormalWord(exponent, mantissa);
    WordIsPositive(exponent, mantissa);
    ScaleMonoExp(1.0, 16, exponent - 127);
    ScaleInt(1, 11);
    assert Shl(1, 11) == 2048;
    ScaleCompose(1.0, 11, 5);
    ScaleOrder(2047.5, 2048.0, 5);
    RoundCodeOverflow(WordMagnitude(exponent, mantissa), F16);
  }

  /** Shifting right splits off the fraction. */
  lemma FloorShift(n: nat, k: nat)
    requires k >= 1
    ensures var y := Scale(n as real, 0 - k);
            && y.Floor == Shr(n, k)
            && (y - Shr(n, k) as real < 0.5 <==> Low(n, k) < Shl(1, k - 1))
            && (y - Shr(n, k) as real > 0.5 <==> Low(n, k) > Shl(1, k - 1))
  {
    var h, l := Shr(n, k), Low(n, k);
    HighLow(n, k);
    ScaleAdd(Shl(h, k) as real, l as real, 0 - k);
    ScaleInt(h, k);
    ScaleCompose(h as real, k, 0 - k);
    ScaleInt(1, k);
    ScaleCompose(1.0, k, 0 - k);
    ScaleInt(1, k - 1);
    ScaleCompose(1.0, k - 1, 0 - k);
    ScaleOrder(l as real, Shl(1, k) as real, 0 - k);
    ScaleSign(l as real, 0 - k);
    ScaleOrder(l as real, Shl(1, k - 1) as real, 0 - k);
    ScaleOrder(Shl(1, k - 1) as real, l as real, 0 - k);
    assert Scale(1.0, -1) == 0.5;
  }

  /** The two shift-and-add roundings are rounding half up and rounding half to even. */
  lemma RoundingShift(n: nat, k: nat)
    requires k >= 1
    ensures RoundHalfUp(Scale(n as real, 0 - k)) == Shr(n + Shl(1, k - 1), k)
    ensures RoundHalfEven(Scale(n as real, 0 - k)) == Shr(n + (Shl(1, k - 1) - 1) + Shr(n, k) % 2, k)
  {
    FloorShift(n, k);
    HighLow(n, k);
    CarryShift(Shr(n, k), Low(n, k) + Shl(1, k - 1), k);
    CarryShift(Shr(n, k), Low(n, k) + (Shl(1, k - 1) - 1) + Shr(n, k) % 2, k);
  }

  lemma CarryShift(h: nat, l: nat, k: nat)
    requires l < 2 * Shl(1, k)
    ensures Shr(Shl(h, k) + l, k) == if l < Shl(1, k) then h else h + 1
  {
    if l < Shl(1, k) {
      Unpacked(h, l, k);
    } else {
      ShlAdd(h, 1, k);
      Unpacked(h + 1, l - Shl(1, k), k);
    }
  }

  lemma UnderflowCase(exponent: nat, mantissa: nat)
    requires exponent < 102 && mantissa < 0x800000
    ensures RoundMagnitude(WordMagnitude(exponent, mantissa)) == 0
  {
    hide Scale, Shl, WordMagnitude, FiniteCodes, MinExp, TopExp;
    Constants();
    var x := WordMagnitude(exponent, mantissa);
    WordIsPositive(exponent, mantissa);
    if exponent > 0 {
      NormalWord(exponent, mantissa);
      ScaleMonoExp(1.0, exponent - 126, -25);
    } else {
      ScaleMonoExp(1.0, -126, -25);
    }
    ScaleMonoExp(1.0, -25, -13);
    ScaleMonoExp(1.0, -25, -14);
    BinadeUnique(x, -14, 15, -14);
    ScaleOrder(x, Scale(1.0, -25), 24);
    ScaleCompose(1.0, -25, 24);
    ScaleSign(x, 24);
    ScaleStep(1.0, -1);
    ScaleZero(1.0);
    ShlZero(10);
  }

  lemma SubnormalCase(exponent: nat, mantissa: nat)
    requires 102 <= exponent <= 112 && mantissa < 0x800000
    ensures var shift := 14 - (exponent - 112);
            RoundMagnitude(WordMagnitude(exponent, mantissa)) ==
            Shr(mantissa + 0x800000 + Shl(1, shift - 1), shift)
  {
    hide Scale, Shl, Shr, WordMagnitude, FiniteCodes, MinExp, TopExp;
    Constants();
    var x := WordMagnitude(exponent, mantissa);
    var shift := 126 - exponent;
    NormalWord(exponent, mantissa);
    WordIsPositive(exponent, mantissa);
    ScaleMonoExp(1.0, exponent - 126, -14);
    ScaleMonoExp(1.0, exponent - 126, -13);
    BinadeUnique(x, -14, 15, -14);
    ScaleCompose((0x800000 + mantissa) as real, exponent - 150, 24);
    RoundingShift(0x800000 + mantissa, shift);
    ShlZero(10);
    SubnormalNoOverflow(x);
  }

  lemma SubnormalNoOverflow(x: real)
    requires 0.0 <= x && ExpOf(x, F16) == -14
    ensures RoundCode(x, F16) < FiniteCodes(F16)
  {
    Constants();
    BelowTop(x, F16);
  }

  lemma NormalCase(exponent: nat, mantissa: nat)
    requires 113 <= exponent <= 142 && mantissa < 0x800000
    ensures var e := exponent - 112;
            var rounded := mantissa + 0x0fff + Shr(mantissa, 13) % 2;
            RoundMagnitude(WordMagnitude(exponent, mantissa)) ==
            if Shr(rounded, 23) % 2 == 1 then (if e + 1 >= 0x1f then 0x7c00 else Shl(e + 1, 10))
            else Shl(e, 10) + Low(Shr(rounded, 13), 10)
  {
    hide WordMagnitude, ExpOf, RoundedSignificand, FiniteCodes, Shl, Shr, Low;
    NormalSignificand(exponent, mantissa);
    var e, rounded := exponent - 112, mantissa + 0x0fff + Shr(mantissa, 13) % 2;
    RoundedFields(rounded);
    NormalPacking(e, 1024 + Shr(rounded, 13));
  }

  /** In the normal range the significand is the rounded quotient of the shifted word. */
  lemma NormalSignificand(exponent: nat, mantissa: nat)
    requires 113 <= exponent <= 142 && mantissa < 0x800000
    ensures var x := WordMagnitude(exponent, mantissa);
            && x >= 0.0 && ExpOf(x, F16) == exponent - 127
            && RoundedSignificand(x, F16) == 1024 + Shr(mantissa + 0x0fff + Shr(mantissa, 13) % 2, 13)
  {
    hide *;
    var n := 0x800000 + mantissa;
    Shl12();
    NormalExp(exponent, mantissa);
    NormalWord(exponent, mantissa);
    ScaleCompose(n as real, exponent - 150, 137 - exponent);
    EvenAboveSubnormals(WordMagnitude(exponent, mantissa));
    RoundingShift(n, 13);
    HiddenBit(mantissa);
    var rounded := mantissa + 0x0fff + Shr(mantissa, 13) % 2;
    HiddenBit(rounded);
    assert n + (Shl(1, 12) - 1) + Shr(n, 13) % 2 == 0x800000 + rounded;
  }

  lemma Shl12()
    ensures Shl(1, 12) == 4096
  {
    Constants();
  }

  /** Only the subnormal range rounds ties away. */
  lemma EvenAboveSubnormals(x: real)
    requires x >= Scale(1.0, -14) && x >= 0.0
    ensures RoundedSignificand(x, F16) == RoundHalfEven(Scale(x, 10 - ExpOf(x, F16)))
  {}

  lemma NormalExp(exponent: nat, mantissa: nat)
    requires 113 <= exponent <= 142 && mantissa < 0x800000
    ensures var x := WordMagnitude(exponent, mantissa);
            x >= Scale(1.0, -14) && x >= 0.0 && ExpOf(x, F16) == exponent - 127
  {
    Constants();
    NormalWord(exponent, mantissa);
    WordIsPositive(exponent, mantissa);
    ScaleMonoExp(1.0, -14, exponent - 127);
    BinadeUnique(WordMagnitude(exponent, mantissa), -14, 15, exponent - 127);
  }

  /** Exponent and significand add up to the packed code. */
  lemma NormalPacking(e: nat, q: nat)
    requires 1 <= e <= 30 && 1024 <= q <= 2048
    ensures var code := Shl(e - 1, 10) + q;
            (if code >= FiniteCodes(F16) then FiniteCodes(F16) else code) ==
            if q == 2048 then (if e + 1 >= 0x1f then 0x7c00 else Shl(e + 1, 10)) else Shl(e, 10) + (q - 1024)
  {
    Constants();
    ShlAdd(e - 1, 1, 10);
    ShlAdd(e - 1, 2, 10);
    ShlDouble(1, 10);
    ShlMono(e, 30, 10);
    ShlMono(e + 1, 30, 10);
    ShlAdd(30, 1, 10);
    assert Shl(31, 10) == 0x7c00;
  }

  /** The hidden bit only moves the quotient by 1024. */
  lemma HiddenBit(n: nat)
    ensures Shr(0x800000 + n, 13) == 1024 + Shr(n, 13)
  {
    HighLow(n, 13);
    ShlAdd(1024, Shr(n, 13), 13);
    assert Shl(1024, 13) == 0x800000;
    Unpacked(1024 + Shr(n, 13), Low(n, 13), 13);
  }

  lemma RoundedFields(rounded: nat)
    requires rounded <= 0x800000 + 0x1000
    ensures Shr(rounded, 23) % 2 == 1 <==> rounded >= 0x800000
    ensures rounded >= 0x800000 ==> Shr(rounded, 13) == 1024
    ensures rounded < 0x800000 ==> Shr(rounded, 13) < 1024 && Low(Shr(rounded, 13), 10) == Shr(rounded, 13)
  {
    Constants();
    if rounded >= 0x800000 {
      Unpacked(1, rounded - 0x800000, 23);
      Unpacked(1024, rounded - 0x800000, 13);
      assert Shl(1024, 13) == 0x800000;
    } else {
      ShlZero(23);
      Unpacked(0, rounded, 23);
      ShrBound(rounded, 10, 13);
      ShlZero(10);
      Unpacked(0, Shr(rounded, 13), 10);
    }
  }

  // ── back to f32 ───────────────────────────────────────────────────────────

  /** The source's f16 decoder. */
  function F16ToF32(bits: nat): (v: Num) {
    var neg := Shr(bits, 15) != 0;
    var exponent := Low(Shr(bits, 10), 5);
    var mantissa := Low(bits, 10);
    if exponent == 0 then Fin(neg, Scale(mantissa as real, -24))
    else if exponent == 0x1f then (if mantissa != 0 then NaN else Inf(neg))
    else Fin(neg, Scale(1.0 + Scale(mantissa as real, -10), exponent - 15))
  }

  /** It agrees with the generic decoder on every code. */
  lemma F16IsMini(bits: nat)
    ensures F16ToF32(bits) == DecodeMini(bits, F16)
  {
    assert MaxExp(F16) == 0x1f;
    ScaleCompose(Low(bits, 10) as real, 0 - 10, 1 - 15);
  }

  /** The f32 word a number is stored as (IEEE 754 section 4.3.1, ties to even). */
  function StoreWord(v: Num): (bits: nat) {
    match v
    case NaN => 0x7fc0_0000
    case Inf(neg) => (if neg then 0x8000_0000 else 0) + 0x7f80_0000
    case Fin(neg, mag) => (if neg then 0x8000_0000 else 0) + (if mag >= 0.0 then RoundCode(mag, F32) else 0)
  }

  /** Storing and reading back a word gives the nearest f32, with its sign. */
  lemma StoreReads(neg: bool, mag: real)
    requires mag >= 0.0 && RoundCode(mag, F32) < FiniteCodes(F32)
    ensures StoreWord(Fin(neg, mag)) < 0x1_0000_0000
    ensures DecodeMini(StoreWord(Fin(neg, mag)), F32) == Fin(neg, Magnitude(RoundCode(mag, F32), F32))
    ensures Shr(StoreWord(Fin(neg, mag)), 31) != 0 <==> neg
  {
    hide Scale, Shl, Shr, Low, RoundCode, DecodeMini, Magnitude, FiniteCodes;
    WordLimits();
    DecodeIsMagnitude(StoreWord(Fin(neg, mag)), F32);
    SignSplit(StoreWord(Fin(neg, mag)), F32);
  }

  lemma WordLimits()
    ensures SignBit(F32) == 0x8000_0000 && FiniteCodes(F32) == 0x7f80_0000 && Wide(F32)
    ensures SignBit(F16) == 0x8000 && FiniteCodes(F16) == 0x7c00 && Wide(F16)
  {
    Constants();
    ShlCompose(1, 23, 8);
    assert Shl(0x80_0000, 8) == 0x8000_0000;
    ShlAdd(255, 1, 23);
    ShlCompose(1, 8, 23);
  }

  /** A finite number within f16 range converts to its sign over its rounded magnitude. */
  lemma HalfOfStored(neg: bool, mag: real)
    requires mag >= 0.0 && RoundCode(mag, F32) < FiniteCodes(F32)
    ensures Magnitude(RoundCode(mag, F32), F32) >= 0.0
    ensures HalfOf(StoreWord(Fin(neg, mag))) ==
            (if neg then 0x8000 else 0) + RoundCode(Magnitude(RoundCode(mag, F32), F32), F16)
  {
    hide Scale, Shl, Shr, Low, RoundCode, StoreWord, DecodeMini, Magnitude, FiniteCodes;
    StoreReads(neg, mag);
    MagnitudeSign(RoundCode(mag, F32), F32);
  }

  lemma F16InF32(m: nat)
    requires m < FiniteCodes(F16)
    ensures Magnitude(m, F16) >= 0.0
    ensures RoundCode(Magnitude(m, F16), F32) < FiniteCodes(F32)
    ensures Magnitude(RoundCode(Magnitude(m, F16), F32), F32) == Magnitude(m, F16)
  {
    hide Scale, Shl, Shr, Low, RoundCode, Magnitude;
    WordLimits();
    TopExps();
    Embeds(m, F16, F32);
  }

  lemma TopExps()
    ensures MaxExp(F32) == 255 && MaxExp(F16) == 31 && MaxExp(E4M3) == 15 && MaxExp(E5M2) == 31
  {
    Constants();
    assert Shl(1, 5) == 32 && Shl(1, 4) == 16;
  }

  /** Every f16 code that is not a NaN survives the trip through f32. */
  lemma HalfRoundTrip(h: nat)
    requires h < 0x1_0000 && F16ToF32(h) != NaN
    ensures HalfOf(StoreWord(F16ToF32(h))) == h
  {
    hide Scale, Shl, Shr, Low, RoundCode, Magnitude, F16ToF32, FiniteCodes, DecodeMini;
    WordLimits();
    F16IsMini(h);
    DecodeIsMagnitude(h, F16);
    var m := if h >= 0x8000 then h - 0x8000 else h;
    if m < 0x7c00 {
      F16InF32(m);
      HalfOfStored(h >= 0x8000, Magnitude(m, F16));
      RoundCodeExact(m, F16);
    } else {
      NotFinite(h);
      InfWord(h >= 0x8000);
    }
  }

  lemma NotFinite(h: nat)
    requires h < 0x1_0000 && !F16ToF32(h).Fin? && F16ToF32(h) != NaN
    ensures F16ToF32(h) == Inf(h >= 0x8000)
    ensures h == (if h >= 0x8000 then 0x8000 else 0) + 0x7c00
  {
    hide Scale;
    WordLimits();
    Constants();
    SignSplit(h, F16);
    HighLow(h, 15);
    HighLow(h, 10);
    LowFields(h, 5, 10);
    HighLow(Low(h, 15), 10);
  }

  lemma InfWord(neg: bool)
    ensures DecodeMini(StoreWord(Inf(neg)), F32) == Inf(neg)
    ensures Shr(StoreWord(Inf(neg)), 31) != 0 <==> neg
  {
    hide Scale, Shl, Shr, Low, DecodeMini, Magnitude, FiniteCodes;
    WordLimits();
    DecodeIsMagnitude(StoreWord(Inf(neg)), F32);
    SignSplit(StoreWord(Inf(neg)), F32);
  }

  /** Ties of the bit arithmetic: of two f16 codes equally near, a finite word takes the one further
      from zero below the normal range, and an even one in it. */
  lemma HalfTies(exponent: nat, mantissa: nat, n: nat)
    requires exponent < 0xff && mantissa < 0x800000 && n < FiniteCodes(F16)
    requires var x := WordMagnitude(exponent, mantissa);
             && RoundMagnitude(x) < FiniteCodes(F16)
             && Magnitude(n, F16) != Magnitude(RoundMagnitude(x), F16)
             && Dist(x, Magnitude(n, F16)) == Dist(x, Magnitude(RoundMagnitude(x), F16))
    ensures var x := WordMagnitude(exponent, mantissa);
            if x < Scale(1.0, -14) then n < RoundMagnitude(x) else RoundMagnitude(x) % 2 == 0
  {
    hide Magnitude, RoundCode, Scale, FiniteCodes, WordMagnitude;
    Constants();
    WordIsPositive(exponent, mantissa);
    RoundCodeTies(WordMagnitude(exponent, mantissa), F16, n);
  }

  /** No NaN word becomes a number. */
  lemma NaNStaysNaN(bits: nat)
    requires bits < 0x1_0000_0000 && DecodeMini(bits, F32) == NaN
    ensures F16ToF32(HalfOf(bits)) == NaN
  {
    hide DecodeMini, Scale;
    Constants();
    var sign := if Shr(bits, 31) != 0 then 0x8000 else 0;
    var h := sign + 0x7e00;
    var s := sign / 1024;
    assert Shl(s + 31, 10) == sign + 0x7c00 by {
      if sign == 0 { assert Shl(31, 10) == 0x7c00; } else { assert Shl(63, 10) == 0xfc00; }
    }
    Unpacked(s + 31, 0x200, 10);
    assert Low(31, 5) == 31 && Low(63, 5) == 31;
  }
}
