/** Minifloat formats: the generic decoder, its strict monotonicity, and correctly rounded
    conversion from exact reals into a format with infinities. */
module MiniFloat {
  import opened Bits

  /** `infs`: the all-ones exponent is reserved for infinities and NaNs. `away`: ties in the
      subnormal range go away from zero rather than to even. */
  datatype Format = Format(exp: nat, mant: nat, bias: int, infs: bool, away: bool)

  const F32 := Format(8, 23, 127, true, false)
  const F16 := Format(5, 10, 15, true, true)
  const E4M3 := Format(4, 3, 7, false, false)
  const E5M2 := Format(5, 2, 15, true, false)

  /** A decoded number; zero keeps its sign. */
  datatype Num = NaN | Inf(neg: bool) | Fin(neg: bool, mag: real)

  function Signed(neg: bool, mag: real): real {
    if neg then -mag else mag
  }

  function Real(v: Num): real
    requires v.Fin?
  {
    Signed(v.neg, v.mag)
  }

  function MaxExp(f: Format): nat {
    Pow(f.exp) - 1
  }

  /** The code with only the sign bit set. */
  function SignBit(f: Format): nat {
    Pow(f.exp + f.mant)
  }

  /** The number of sign-less finite codes: they are exactly 0 .. FiniteCodes - 1. */
  function FiniteCodes(f: Format): nat {
    if f.infs then Shl(MaxExp(f), f.mant) else SignBit(f) - 1
  }

  /** The generic decoder, written as the source writes it. */
  function DecodeMini(code: nat, f: Format): (v: Num) {
    var neg := Shr(code, f.exp + f.mant) != 0;
    var exp := Low(Shr(code, f.mant), f.exp);
    var mant := Low(code, f.mant);
    if exp == MaxExp(f) then
      if f.infs then (if mant != 0 then NaN else Inf(neg))
      else if mant == Pow(f.mant) - 1 then NaN
      else Fin(neg, Scale(1.0 + Scale(mant as real, 0 - f.mant), MaxExp(f) - f.bias))
    else if exp == 0 then Fin(neg, Scale(Scale(mant as real, 0 - f.mant), 1 - f.bias))
    else Fin(neg, Scale(1.0 + Scale(mant as real, 0 - f.mant), exp - f.bias))
  }

  /** The exponent of the subnormals and of the first normal binade. */
  function MinExp(f: Format): int {
    1 - f.bias
  }

  /** Exponent of the spacing in the binade of exponent field `e`. */
  function Spacing(e: nat, f: Format): int {
    MinExp(f) + (if e == 0 then 0 else e - 1) - f.mant
  }

  /** Value of exponent field `e` over mantissa field `r`: an integer multiple of a spacing. */
  function FieldValue(e: nat, r: nat, f: Format): real {
    Scale((if e == 0 then r else Pow(f.mant) + r) as real, Spacing(e, f))
  }

  /** Value of the sign-less code `m`. */
  function Magnitude(m: nat, f: Format): real {
    FieldValue(Shr(m, f.mant), Low(m, f.mant), f)
  }

  lemma SignSplit(code: nat, f: Format)
    requires code < 2 * SignBit(f)
    ensures Shr(code, f.exp + f.mant) != 0 <==> code >= SignBit(f)
    ensures Low(code, f.exp + f.mant) == if code >= SignBit(f) then code - SignBit(f) else code
  {
    if code >= SignBit(f) {
      Unpacked(1, code - SignBit(f), f.exp + f.mant);
    } else {
      ShlMono(0, 0, f.exp + f.mant);
      HighLow(code, f.exp + f.mant);
      Unpacked(0, code, f.exp + f.mant);
      ShlZero(f.exp + f.mant);
    }
  }

  lemma {:induction false} ShlZero(k: nat)
    ensures Shl(0, k) == 0
  {
    if k > 0 { ShlZero(k - 1); }
  }

  /** The fields under the sign bit do not see the sign. */
  lemma {:induction false} LowFields(code: nat, j: nat, k: nat)
    ensures Low(Shr(code, k), j) == Shr(Low(code, j + k), k)
    ensures Low(code, k) == Low(Low(code, j + k), k)
    decreases k
  {
    if k > 0 { LowFields(code / 2, j, k - 1); }
  }

  /** A code is finite exactly when its sign-less part is below `FiniteCodes`; its value is
      then the signed magnitude of that part. */
  lemma DecodeIsMagnitude(code: nat, f: Format)
    requires f.exp >= 1 && code < 2 * SignBit(f)
    ensures var m := if code >= SignBit(f) then code - SignBit(f) else code;
            && (DecodeMini(code, f).Fin? <==> m < FiniteCodes(f))
            && (DecodeMini(code, f).Fin? ==> DecodeMini(code, f) == Fin(code >= SignBit(f), Magnitude(m, f)))
            && (f.infs && m == FiniteCodes(f) ==> DecodeMini(code, f) == Inf(code >= SignBit(f)))
  {
    hide Scale, Shl, Shr, Low, FieldValue, FiniteCodes, MaxExp, Spacing;
    var m := if code >= SignBit(f) then code - SignBit(f) else code;
    SignSplit(code, f);
    LowFields(code, f.exp, f.mant);
    ShrBound(m, f.exp, f.mant);
    FieldScaled(Shr(m, f.mant), Low(m, f.mant), f);
    FieldLimits(m, f);
  }

  /** The fraction form the source computes is an integer multiple of the spacing. */
  lemma FieldScaled(e: nat, r: nat, f: Format)
    ensures FieldValue(e, r, f) ==
            if e == 0 then Scale(Scale(r as real, 0 - f.mant), 1 - f.bias)
            else Scale(1.0 + Scale(r as real, 0 - f.mant), e - f.bias)
  {
    if e == 0 {
      ScaleCompose(r as real, 0 - f.mant, 1 - f.bias);
    } else {
      ScaleAdd(1.0, Scale(r as real, 0 - f.mant), e - f.bias);
      ScaleCompose(r as real, 0 - f.mant, e - f.bias);
      ScaleCompose(1.0, f.mant, e - f.bias - f.mant);
      ScaleInt(1, f.mant);
      ScaleAdd(Pow(f.mant) as real, r as real, e - f.bias - f.mant);
    }
  }

  lemma MaxExpPositive(f: Format)
    requires f.exp >= 1
    ensures MaxExp(f) >= 1
  {}

  /** Which sign-less codes have the all-ones exponent, and which of those are finite. */
  lemma FieldLimits(m: nat, f: Format)
    requires f.exp >= 1 && m < SignBit(f)
    ensures MaxExp(f) >= 1
    ensures var e, r := Shr(m, f.mant), Low(m, f.mant);
            && e <= MaxExp(f)
            && (m < FiniteCodes(f) <==> e < MaxExp(f) || (!f.infs && r != Pow(f.mant) - 1))
            && (f.infs && m == FiniteCodes(f) ==> e == MaxExp(f) && r == 0)
  {
    hide Shl, Shr, Low;
    var e := Shr(m, f.mant);
    MaxExpPositive(f);
    ShrBound(m, f.exp, f.mant);
    HighLow(m, f.mant);
    ShlMono(e, MaxExp(f), f.mant);
    ShlAdd(MaxExp(f), 1, f.mant);
    ShlCompose(1, f.exp, f.mant);
  }

  /** Neighbouring sign-less codes differ by the spacing at the lower one. */
  lemma MagnitudeStep(m: nat, f: Format)
    ensures Magnitude(m + 1, f) == Magnitude(m, f) + Scale(1.0, Spacing(Shr(m, f.mant), f))
  {
    hide Scale, Shl, Shr, Low;
    var e, r := Shr(m, f.mant), Low(m, f.mant);
    HighLow(m, f.mant);
    var s := (if e == 0 then r else Pow(f.mant) + r) as real;
    ScaleAdd(s, 1.0, Spacing(e, f));
    if r + 1 < Pow(f.mant) {
      Unpacked(e, r + 1, f.mant);
    } else {
      ShlAdd(e, 1, f.mant);
      Unpacked(e + 1, 0, f.mant);
      ScaleDouble(Pow(f.mant) as real, Spacing(e, f));
    }
  }

  /** The decoder is strictly increasing in the sign-less code, for every format. */
  lemma {:induction false} MagnitudeIncreasing(m: nat, n: nat, f: Format)
    requires m < n
    ensures Magnitude(m, f) < Magnitude(n, f)
    decreases n
  {
    MagnitudeStep(n - 1, f);
    ScaleSign(1.0, Spacing(Shr(n - 1, f.mant), f));
    if m < n - 1 {
      MagnitudeIncreasing(m, n - 1, f);
    }
  }

  lemma MagnitudeOrder(m: nat, n: nat, f: Format)
    ensures m < n <==> Magnitude(m, f) < Magnitude(n, f)
    ensures m == n <==> Magnitude(m, f) == Magnitude(n, f)
  {
    if m < n {
      MagnitudeIncreasing(m, n, f);
    } else if n < m {
      MagnitudeIncreasing(n, m, f);
    }
  }

  lemma MagnitudeSign(m: nat, f: Format)
    ensures Magnitude(0, f) == 0.0
    ensures m > 0 ==> Magnitude(m, f) > 0.0
    ensures Magnitude(m, f) >= 0.0
  {
    ShlZero(f.mant);
    Unpacked(0, 0, f.mant);
    ScaleSign(0.0, Spacing(0, f));
    MagnitudeOrder(0, m, f);
  }

  // ── correctly rounded conversion ──────────────────────────────────────────

  /** The exponent of the largest finite binade of a format with infinities. */
  function TopExp(f: Format): int {
    MaxExp(f) - 1 - f.bias
  }

  /** The greatest exponent in [lo, k] whose power of two is at most `x`, or `lo`. */
  function Binade(x: real, lo: int, k: int): (e: int)
    requires lo <= k
    ensures lo <= e <= k
    ensures e > lo ==> Scale(1.0, e) <= x
    ensures e < k ==> x < Scale(1.0, e + 1)
    decreases k - lo
  {
    if k == lo || Scale(1.0, k) <= x then k else Binade(x, lo, k - 1)
  }

  predicate Wide(f: Format) {
    f.infs && f.exp >= 2 && f.mant >= 1
  }

  lemma WideRange(f: Format)
    requires Wide(f)
    ensures MaxExp(f) >= 3 && MinExp(f) <= TopExp(f)
  {
    ShlCompose(1, 2, f.exp - 2);
    assert Shl(1, 2) == 2 * Shl(1, 1);
    assert Shl(Shl(1, 2), f.exp - 2) >= 4;
  }

  function ExpOf(x: real, f: Format): (e: int)
    requires Wide(f)
    ensures MinExp(f) <= e <= TopExp(f)
  {
    WideRange(f);
    Binade(x, MinExp(f), TopExp(f))
  }

  /** Half-subnormal ties follow the format's rule; everything else rounds half to even. */
  function AwayAt(x: real, f: Format): bool {
    f.away && x < Scale(1.0, MinExp(f))
  }

  /** The significand `x` rounds to, in units of its binade's spacing. */
  function RoundedSignificand(x: real, f: Format): (q: nat)
    requires Wide(f) && x >= 0.0
  {
    var e := ExpOf(x, f);
    ScaleOrder(0.0, x, f.mant - e);
    ScaleSign(0.0, f.mant - e);
    RoundIsNearest(Scale(x, f.mant - e), AwayAt(x, f), 0);
    Round(Scale(x, f.mant - e), AwayAt(x, f))
  }

  /** The sign-less code a magnitude rounds to, `FiniteCodes` standing for infinity. */
  function RoundCode(x: real, f: Format): (m: nat)
    requires Wide(f) && x >= 0.0
    ensures m <= FiniteCodes(f)
  {
    var code := Shl(ExpOf(x, f) - MinExp(f), f.mant) + RoundedSignificand(x, f);
    if code >= FiniteCodes(f) then FiniteCodes(f) else code
  }

  /** Codes of the window of binade `e` have the values q * 2^(e - mant). */
  lemma WindowValue(e: int, q: nat, f: Format)
    requires e >= MinExp(f) && q <= 2 * Pow(f.mant)
    requires e == MinExp(f) || q >= Pow(f.mant)
    ensures Magnitude(Shl(e - MinExp(f), f.mant) + q, f) == Scale(q as real, e - f.mant)
  {
    hide Scale, Shl, Shr, Low;
    var d := e - MinExp(f);
    var b := Pow(f.mant);
    if q < b {
      Unpacked(0, q, f.mant);
      ShlZero(f.mant);
    } else if q < 2 * b {
      ShlAdd(d, 1, f.mant);
      Unpacked(d + 1, q - b, f.mant);
    } else {
      ShlAdd(d, 2, f.mant);
      ShlDouble(1, f.mant);
      Unpacked(d + 2, 0, f.mant);
      ScaleDouble(b as real, e - f.mant);
    }
  }

  /** The largest finite code closes the top binade. */
  lemma TopCode(f: Format)
    requires Wide(f)
    ensures MinExp(f) <= TopExp(f)
    ensures Shl(TopExp(f) - MinExp(f), f.mant) + 2 * Pow(f.mant) == FiniteCodes(f)
  {
    WideRange(f);
    ShlAdd(TopExp(f) - MinExp(f), 2, f.mant);
    ShlDouble(1, f.mant);
  }

  /** `x` measured in units of its binade's spacing. */
  lemma BinadeBounds(x: real, f: Format) returns (e: int, y: real)
    requires Wide(f) && x >= 0.0
    ensures e == ExpOf(x, f) && y == Scale(x, f.mant - e) && y >= 0.0 && x == Scale(y, e - f.mant)
    ensures e > MinExp(f) ==> y >= Pow(f.mant) as real
    ensures e < TopExp(f) ==> y < 2.0 * Pow(f.mant) as real
  {
    hide Scale, Shl;
    e := ExpOf(x, f);
    y := Scale(x, f.mant - e);
    ScaleCompose(x, f.mant - e, e - f.mant);
    ScaleZero(x);
    ScaleOrder(0.0, x, f.mant - e);
    ScaleSign(0.0, f.mant - e);
    ScaleInt(1, f.mant);
    ScaleCompose(1.0, e, f.mant - e);
    ScaleOrder(x, Scale(1.0, e), f.mant - e);
    ScaleCompose(1.0, e + 1, f.mant - e);
    ScaleOrder(x, Scale(1.0, e + 1), f.mant - e);
    ScaleStep(1.0, f.mant);
  }

  /** The rounded significand stays in its window unless the conversion overflows. */
  lemma SignificandBounds(x: real, f: Format)
    requires Wide(f) && x >= 0.0
    ensures ExpOf(x, f) > MinExp(f) ==> RoundedSignificand(x, f) >= Pow(f.mant)
    ensures ExpOf(x, f) < TopExp(f) ==> RoundedSignificand(x, f) <= 2 * Pow(f.mant)
    ensures RoundCode(x, f) < FiniteCodes(f) ==> RoundedSignificand(x, f) <= 2 * Pow(f.mant)
  {
    var e, y := BinadeBounds(x, f);
    RoundIsNearest(y, AwayAt(x, f), Pow(f.mant));
    RoundIsNearest(y, AwayAt(x, f), 2 * Pow(f.mant));
    TopCode(f);
  }

  lemma SignificandIsRound(x: real, f: Format)
    requires Wide(f) && x >= 0.0
    ensures RoundedSignificand(x, f) == Round(Scale(x, f.mant - ExpOf(x, f)), AwayAt(x, f))
    ensures RoundCode(x, f) < FiniteCodes(f) ==>
              RoundCode(x, f) == Shl(ExpOf(x, f) - MinExp(f), f.mant) + RoundedSignificand(x, f)
  {}

  /** The code a finite conversion returns carries the rounded significand, within half a spacing. */
  lemma RoundCodeValue(x: real, f: Format)
    requires Wide(f) && x >= 0.0 && RoundCode(x, f) < FiniteCodes(f)
    ensures Magnitude(RoundCode(x, f), f) == Scale(RoundedSignificand(x, f) as real, ExpOf(x, f) - f.mant)
    ensures Dist(x, Magnitude(RoundCode(x, f), f)) <= Scale(0.5, ExpOf(x, f) - f.mant)
  {
    hide *;
    var e, y := BinadeBounds(x, f);
    SignificandBounds(x, f);
    var q := RoundedSignificand(x, f);
    SignificandIsRound(x, f);
    WindowValue(e, q, f);
    RoundIsNearest(y, AwayAt(x, f), 0);
    ScaleDist(y, q as real, e - f.mant);
    ScaleOrder(Dist(y, q as real), 0.5, e - f.mant);
    ScaleOrder(0.5, Dist(y, q as real), e - f.mant);
  }

  /** No value of the window is closer than the one conversion returns. */
  lemma NearestInWindow(x: real, f: Format, n: nat)
    requires Wide(f) && x >= 0.0 && RoundCode(x, f) < FiniteCodes(f) && n <= 2 * Pow(f.mant)
    requires ExpOf(x, f) == MinExp(f) || n >= Pow(f.mant)
    ensures Dist(x, Magnitude(RoundCode(x, f), f)) <=
            Dist(x, Magnitude(Shl(ExpOf(x, f) - MinExp(f), f.mant) + n, f))
  {
    hide *;
    var e, y := BinadeBounds(x, f);
    RoundCodeValue(x, f);
    WindowValue(e, n, f);
    var q := RoundedSignificand(x, f) as real;
    SignificandIsRound(x, f);
    RoundIsNearest(y, AwayAt(x, f), n);
    ScaleDist(y, q, e - f.mant);
    ScaleDist(y, n as real, e - f.mant);
    ScaleOrder(Dist(y, n as real), Dist(y, q), e - f.mant);
  }

  /** Conversion returns a finite code of least distance. */
  lemma RoundCodeNearest(x: real, f: Format, n: nat)
    requires Wide(f) && x >= 0.0 && RoundCode(x, f) < FiniteCodes(f) && n < FiniteCodes(f)
    ensures Dist(x, Magnitude(RoundCode(x, f), f)) <= Dist(x, Magnitude(n, f))
  {
    hide *;
    var e := ExpOf(x, f);
    TopCode(f);
    var base, b := Shl(e - MinExp(f), f.mant), Pow(f.mant);
    if n > base + 2 * b {
      NearestInWindow(x, f, 2 * b);
      OutsideWindow(x, f, n);
    } else if e > MinExp(f) && n < base + b {
      NearestInWindow(x, f, b);
      OutsideWindow(x, f, n);
    } else {
      if e == MinExp(f) { ShlZero(f.mant); }
      NearestInWindow(x, f, n - base);
    }
  }

  /** Codes outside the window of `x` are further than the window's edge on their side. */
  lemma OutsideWindow(x: real, f: Format, n: nat)
    requires Wide(f) && x >= 0.0 && n < FiniteCodes(f)
    ensures var e := ExpOf(x, f); var base, b := Shl(e - MinExp(f), f.mant), Pow(f.mant);
            && (n > base + 2 * b ==> Dist(x, Magnitude(base + 2 * b, f)) <= Dist(x, Magnitude(n, f)))
            && (e > MinExp(f) && n < base + b ==> Dist(x, Magnitude(base + b, f)) <= Dist(x, Magnitude(n, f)))
  {
    hide *;
    var e, y := BinadeBounds(x, f);
    TopCode(f);
    var base, b := Shl(e - MinExp(f), f.mant), Pow(f.mant);
    if e < TopExp(f) {
      WindowValue(e, 2 * b, f);
      ScaleOrder(y, 2.0 * b as real, e - f.mant);
      Further(x, Magnitude(base + 2 * b, f), base + 2 * b, n, f);
    }
    if e > MinExp(f) {
      WindowValue(e, b, f);
      ScaleOrder(y, b as real, e - f.mant);
      Further(x, Magnitude(base + b, f), base + b, n, f);
    }
  }

  /** Beyond a code on the far side of `x`, codes only get further. */
  lemma Further(x: real, v: real, edge: nat, n: nat, f: Format)
    requires v == Magnitude(edge, f)
    ensures x <= v && edge < n ==> Dist(x, v) <= Dist(x, Magnitude(n, f))
    ensures v <= x && n < edge ==> Dist(x, v) <= Dist(x, Magnitude(n, f))
  {
    hide Magnitude;
    MagnitudeOrder(edge, n, f);
    MagnitudeOrder(n, edge, f);
  }

  /** Conversion overflows exactly from the midpoint above the largest finite value. */
  lemma RoundCodeOverflow(x: real, f: Format)
    requires Wide(f) && x >= 0.0
    ensures RoundCode(x, f) == FiniteCodes(f) <==>
            x >= Scale(2.0 * Pow(f.mant) as real - 0.5, TopExp(f) - f.mant)
  {
    hide ExpOf, Magnitude, TopExp, FiniteCodes, Scale, Shl, AwayAt;
    var e, y := BinadeBounds(x, f);
    var b := Pow(f.mant) as real;
    var top := TopExp(f) - f.mant;
    TopCode(f);
    if e == TopExp(f) {
      ScaleOrder(y, 2.0 * b - 0.5, top);
      RoundReaches(y, AwayAt(x, f), 2 * Pow(f.mant));
    } else {
      BelowTop(x, f);
      ScaleOrder(y, 2.0 * b, e - f.mant);
      ScaleDouble(b, e - f.mant);
      ScaleMonoExp(b, e + 1 - f.mant, top);
      ScaleOrder(b, 2.0 * b - 0.5, top);
    }
  }

  lemma RoundReaches(y: real, away: bool, n: nat)
    requires n % 2 == 0
    ensures Round(y, away) >= n <==> y >= n as real - 0.5
  {}

  lemma BelowTop(x: real, f: Format)
    requires Wide(f) && x >= 0.0 && ExpOf(x, f) < TopExp(f)
    ensures RoundCode(x, f) < FiniteCodes(f)
  {
    hide Scale, Shl, ExpOf, RoundedSignificand, MinExp, TopExp, FiniteCodes;
    SignificandBounds(x, f);
    TopCode(f);
    var d := ExpOf(x, f) - MinExp(f);
    ShlAdd(d, TopExp(f) - ExpOf(x, f), f.mant);
    ShlMono(1, TopExp(f) - ExpOf(x, f), f.mant);
  }

  /** The value as far on the other side, in units of the binade's spacing, stays in the window. */
  lemma TieUnits(x: real, f: Format, w: real) returns (t: real)
    requires Wide(f) && x >= 0.0 && RoundCode(x, f) < FiniteCodes(f)
    requires w >= 0.0 && w != Magnitude(RoundCode(x, f), f) && Dist(x, w) == Dist(x, Magnitude(RoundCode(x, f), f))
    ensures var e, q := ExpOf(x, f), RoundedSignificand(x, f) as real;
            && w == Scale(t, e - f.mant) && t == 2.0 * Scale(x, f.mant - e) - q && t != q
            && t <= 2.0 * Pow(f.mant) as real && (e > MinExp(f) ==> t >= Pow(f.mant) as real)
  {
    hide *;
    var e, y := BinadeBounds(x, f);
    var q := RoundedSignificand(x, f);
    t := 2.0 * y - q as real;
    SignificandBounds(x, f);
    SignificandIsRound(x, f);
    RoundCodeValue(x, f);
    Halfway(y, AwayAt(x, f), q);
    TopCode(f);
    MirrorUnits(x, y, q as real, w, e - f.mant);
  }

  lemma Halfway(y: real, away: bool, q: int)
    requires q == Round(y, away)
    ensures q as real - 0.5 <= y <= q as real + 0.5
  {
  }

  /** A code as near as the returned one lies in the same window. */
  lemma TieInWindow(x: real, f: Format, n: nat) returns (k: nat)
    requires Wide(f) && x >= 0.0 && RoundCode(x, f) < FiniteCodes(f)
    requires Magnitude(n, f) != Magnitude(RoundCode(x, f), f)
    requires Dist(x, Magnitude(n, f)) == Dist(x, Magnitude(RoundCode(x, f), f))
    ensures n == Shl(ExpOf(x, f) - MinExp(f), f.mant) + k
    ensures k as real == 2.0 * Scale(x, f.mant - ExpOf(x, f)) - RoundedSignificand(x, f) as real
    ensures k != RoundedSignificand(x, f)
  {
    hide *;
    MagnitudeSign(n, f);
    var t := TieUnits(x, f, Magnitude(n, f));
    var e, b := ExpOf(x, f), Pow(f.mant);
    var base := Shl(e - MinExp(f), f.mant);
    WindowValue(e, 2 * b, f);
    if n > base + 2 * b {
      MagnitudeIncreasing(base + 2 * b, n, f);
      ScaleOrder(t, 2.0 * b as real, e - f.mant);
    }
    if e > MinExp(f) {
      WindowValue(e, b, f);
      if n < base + b {
        MagnitudeIncreasing(n, base + b, f);
        ScaleOrder(t, b as real, e - f.mant);
      }
    } else {
      ShlZero(f.mant);
    }
    k := n - base;
    WindowValue(e, k, f);
    ScaleOrder(t, k as real, e - f.mant);
    ScaleOrder(k as real, t, e - f.mant);
  }

  /** Equal distances, in units. */
  lemma MirrorUnits(x: real, y: real, q: real, w: real, k: int)
    requires x == Scale(y, k) && w != Scale(q, k) && Dist(x, w) == Dist(x, Scale(q, k))
    ensures w == Scale(2.0 * y - q, k) && 2.0 * y - q != q
  {
    hide Scale;
    ScaleAdd(2.0 * y - q, q, k);
    ScaleAdd(y, y, k);
  }

  /** Ties: of two finite codes equally near, conversion returns the larger one where the format
      rounds its subnormals away from zero, and an even one everywhere else. */
  lemma RoundCodeTies(x: real, f: Format, n: nat)
    requires Wide(f) && x >= 0.0 && RoundCode(x, f) < FiniteCodes(f)
    requires Magnitude(n, f) != Magnitude(RoundCode(x, f), f)
    requires Dist(x, Magnitude(n, f)) == Dist(x, Magnitude(RoundCode(x, f), f))
    ensures if AwayAt(x, f) then n < RoundCode(x, f) else RoundCode(x, f) % 2 == 0
  {
    hide Scale, Shl, Magnitude, ExpOf, RoundCode, RoundedSignificand, FiniteCodes, AwayAt, Round, Dist;
    var y, q := Scale(x, f.mant - ExpOf(x, f)), RoundedSignificand(x, f);
    var k := TieInWindow(x, f, n);
    SignificandIsRound(x, f);
    TieParity(y, AwayAt(x, f), q, k);
    EvenBase(ExpOf(x, f) - MinExp(f), f.mant);
  }

  lemma TieParity(y: real, away: bool, q: int, k: int)
    requires q == Round(y, away) && k as real == 2.0 * y - q as real && k != q
    ensures if away then k < q else q % 2 == 0
  {
    hide Round;
    Halfway(y, away, q);
    assert y - y.Floor as real == 0.5;
    RoundTies(y, away);
  }

  lemma EvenBase(n: nat, k: nat)
    requires k >= 1
    ensures Shl(n, k) % 2 == 0
  {
  }

  /** A larger magnitude never gets a smaller code. */
  lemma RoundCodeMono(x: real, y: real, f: Format)
    requires Wide(f) && 0.0 <= x <= y
    ensures RoundCode(x, f) <= RoundCode(y, f)
  {
    RoundCodeOverflow(x, f);
    RoundCodeOverflow(y, f);
    if x < y && RoundCode(y, f) < FiniteCodes(f) {
      RoundCodeNearest(x, f, RoundCode(y, f));
      RoundCodeNearest(y, f, RoundCode(x, f));
      MagnitudeOrder(RoundCode(y, f), RoundCode(x, f), f);
    }
  }

  /** Every finite value of the format converts back to its own code. */
  lemma RoundCodeExact(m: nat, f: Format)
    requires Wide(f) && m < FiniteCodes(f)
    ensures Magnitude(m, f) >= 0.0 && RoundCode(Magnitude(m, f), f) == m
  {
    hide RoundCode, Magnitude, FiniteCodes, Scale, Shl;
    var x := Magnitude(m, f);
    MagnitudeSign(m, f);
    var b, top := Pow(f.mant), TopExp(f) - f.mant;
    TopCode(f);
    WideRange(f);
    WindowValue(TopExp(f), 2 * b - 1, f);
    MagnitudeOrder(FiniteCodes(f) - 1, m, f);
    ScaleOrder((2 * b - 1) as real, 2.0 * b as real - 0.5, top);
    RoundCodeOverflow(x, f);
    RoundCodeNearest(x, f, m);
    MagnitudeOrder(m, RoundCode(x, f), f);
  }

  // ── one format inside another ─────────────────────────────────────────────

  /** An integer multiple of a wide enough power of two, with few enough digits, is exact. */
  lemma ExactOnGrid(n: nat, k: int, f: Format)
    requires Wide(f) && n < 2 * Pow(f.mant) && k >= MinExp(f) - f.mant
    ensures Scale(n as real, k) >= 0.0
    ensures RoundCode(Scale(n as real, k), f) < FiniteCodes(f) ==>
              Magnitude(RoundCode(Scale(n as real, k), f), f) == Scale(n as real, k)
  {
    var x := Scale(n as real, k);
    ScaleSign(n as real, k);
    var e, y := BinadeBounds(x, f);
    ScaleCompose(n as real, k, f.mant - e);
    if k + f.mant < e {
      BinadeTooHigh(n, k, f);
      assert false;
    }
    ScaleInt(n, k + f.mant - e);
    RoundIsNearest(y, AwayAt(x, f), Shl(n, k + f.mant - e));
    if RoundCode(x, f) < FiniteCodes(f) {
      RoundCodeValue(x, f);
    }
  }

  lemma BinadeTooHigh(n: nat, k: int, f: Format)
    requires Wide(f) && n < 2 * Pow(f.mant) && k >= MinExp(f) - f.mant
    ensures ExpOf(Scale(n as real, k), f) <= k + f.mant
  {
    var x := Scale(n as real, k);
    var e := ExpOf(x, f);
    ScaleInt(1, f.mant + 1);
    ScaleOrder(n as real, Shl(1, f.mant + 1) as real, k);
    ScaleCompose(1.0, f.mant + 1, k);
    if k + f.mant + 1 <= e {
      ScaleMonoExp(1.0, k + f.mant + 1, e);
    }
  }

  /** The exponent of the largest finite binade of any format. */
  function LastExp(f: Format): int {
    (if f.infs then MaxExp(f) as int - 1 else MaxExp(f) as int) - f.bias
  }

  /** Every finite value of `a` is a finite value of the wider format `b`. */
  lemma Embeds(m: nat, a: Format, b: Format)
    requires a.exp >= 1 && m < FiniteCodes(a) && m < SignBit(a)
    requires Wide(b) && a.mant <= b.mant && MinExp(a) - a.mant >= MinExp(b) - b.mant
    requires LastExp(a) <= TopExp(b) && MinExp(a) <= TopExp(b)
    ensures Magnitude(m, a) >= 0.0
    ensures RoundCode(Magnitude(m, a), b) < FiniteCodes(b)
    ensures Magnitude(RoundCode(Magnitude(m, a), b), b) == Magnitude(m, a)
  {
    hide Scale, Shl, Shr, Low, RoundCode, TopExp, FiniteCodes;
    var e, r := Shr(m, a.mant), Low(m, a.mant);
    var n := if e == 0 then r else Pow(a.mant) + r;
    ShlCompose(1, a.mant, b.mant - a.mant);
    FieldLimits(m, a);
    WideRange(b);
    ExactOnGrid(n, Spacing(e, a), b);
    BelowThreshold(n, Spacing(e, a), a.mant, TopExp(b), b.mant);
    RoundCodeOverflow(Magnitude(m, a), b);
  }

  /** A short significand in the top binade stays under the overflow threshold. */
  lemma BelowThreshold(n: nat, k: int, am: nat, top: int, bm: nat)
    requires n < 2 * Pow(am) && am <= bm && k <= top - am
    ensures Scale(n as real, k) < Scale(2.0 * Pow(bm) as real - 0.5, top - bm)
  {
    hide Scale, Shl;
    var a, d := 2 * Pow(am) - 1, bm - am;
    ScaleOrder(a as real, n as real, k);
    ScaleMonoExp(a as real, k, top - am);
    ScaleCompose(a as real, d, top - bm);
    ScaleInt(a, d);
    ShlCompose(1, am, d);
    ShlAdd(a, 1, d);
    ShlDouble(Pow(am), d);
    ScaleOrder(Shl(a, d) as real, 2.0 * Pow(bm) as real - 0.5, top - bm);
  }
}
