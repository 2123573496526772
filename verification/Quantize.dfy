/** Scaled quantization of a parameter or gradient vector, and why one trip through the wire
    changes nothing a second trip would. Scaling is over exact reals; the store to f32 before
    the bit arithmetic and every 8- and 16-bit rounding are modelled. */
module Quantize {
  import opened Wrappers
  import opened Bits
  import opened MiniFloat
  import opened HalfPrecision
  import opened NearestCode

  datatype Precision = P32 | P16 | P8E4M3 | P8E5M2

  function FormatOf(p: Precision): Format {
    match p
    case P32 => F32
    case P16 => F16
    case P8E4M3 => E4M3
    case P8E5M2 => E5M2
  }

  /** Where the largest magnitude of a message is placed. */
  function Target(p: Precision): real {
    if p == P8E4M3 then 192.0 else 1024.0
  }

  predicate Reduced(p: Precision) {
    p != P32
  }

  // ── one element ───────────────────────────────────────────────────────────

  function FromReal(x: real): Num {
    Fin(x < 0.0, Abs(x))
  }

  /** The f16 code of a scaled element. */
  function HalfCode(x: real): nat {
    HalfOf(StoreWord(FromReal(x)))
  }

  /** The wire code of a scaled element. */
  function WireCode(x: real, p: Precision): nat {
    if p == P16 then HalfCode(x)
    else if p == P8E4M3 || p == P8E5M2 then (FormatFacts(); Bridge(HalfCode(x), FormatOf(p)))
    else 0
  }

  /** What a scaled element reads back as. */
  function Element(x: real, p: Precision): real {
    CodeValue(WireCode(x, p), FormatOf(p))
  }

  lemma FormatFacts()
    ensures Searchable(E4M3) && Searchable(E5M2)
    ensures SignBit(E4M3) == 128 && FiniteCodes(E4M3) == 127
    ensures SignBit(E5M2) == 128 && FiniteCodes(E5M2) == 124
    ensures Wide(E5M2) && Pow(2) == 4 && Pow(3) == 8
  {
    assert Shl(1, 4) == 16 && Shl(1, 7) == 128 && Shl(1, 2) == 4 && Shl(1, 3) == 8 && Shl(31, 2) == 124;
    TopExps();
  }

  lemma FieldCode(e: nat, r: nat, f: Format)
    requires f.exp >= 1 && r < Pow(f.mant) && Shl(e, f.mant) + r < FiniteCodes(f) <= SignBit(f)
    ensures CodeValue(Shl(e, f.mant) + r, f) == Scale((if e == 0 then r else Pow(f.mant) + r) as real, Spacing(e, f))
  {
    hide Scale, Shl, Shr, Low, DecodeMini, FiniteCodes, SignBit;
    DecodeIsMagnitude(Shl(e, f.mant) + r, f);
    Unpacked(e, r, f.mant);
  }

  /** The 8-bit formats by the codes of one, of the largest value and of the smallest. */
  lemma KnownBytes()
    ensures CodeValue(0x38, E4M3) == 1.0 && CodeValue(0x7e, E4M3) == 448.0 && CodeValue(1, E4M3) == 1.0 / 512.0
    ensures CodeValue(0x3c, E5M2) == 1.0 && CodeValue(0x7b, E5M2) == 57344.0 && CodeValue(1, E5M2) == 1.0 / 65536.0
  {
    hide CodeValue, FiniteCodes, SignBit;
    FormatFacts();
    assert Shl(7, 3) == 56 && Shl(15, 3) == 120 && Shl(0, 3) == 0;
    assert Shl(15, 2) == 60 && Shl(30, 2) == 120 && Shl(0, 2) == 0;
    FieldCode(7, 0, E4M3);
    FieldCode(15, 6, E4M3);
    FieldCode(0, 1, E4M3);
    FieldCode(15, 0, E5M2);
    FieldCode(30, 3, E5M2);
    FieldCode(0, 1, E5M2);
    Halvings();
  }

  lemma Halvings()
    ensures Scale(8.0, -3) == 1.0 && Scale(14.0, 5) == 448.0 && Scale(1.0, -9) == 1.0 / 512.0
    ensures Scale(4.0, -2) == 1.0 && Scale(7.0, 13) == 57344.0 && Scale(1.0, -16) == 1.0 / 65536.0
    ensures Scale(1024.0, -10) == 1.0 && Scale(2047.0, 5) == 65504.0 && Scale(1.0, -24) == 1.0 / 16777216.0
  {
    assert Scale(1.0, -8) == 1.0 / 256.0;
    ScaleCompose(1.0, -8, -1);
    ScaleCompose(1.0, -8, -8);
    assert Scale(1.0 / 256.0, -8) == 1.0 / 65536.0;
    ScaleCompose(1.0, -16, -8);
    assert Scale(1.0 / 65536.0, -8) == 1.0 / 16777216.0;
    assert Scale(7.0, 6) == 448.0;
    ScaleCompose(7.0, 6, 7);
    assert Scale(448.0, 7) == 57344.0;
    assert Scale(1024.0, -5) == 32.0;
    ScaleCompose(1024.0, -5, -5);
  }

  /** And f16. */
  lemma KnownHalves()
    ensures CodeValue(0x3c00, F16) == 1.0 && CodeValue(0x7bff, F16) == 65504.0 && CodeValue(1, F16) == 1.0 / 16777216.0
  {
    hide CodeValue, FiniteCodes, SignBit, Scale;
    WordLimits();
    Constants();
    assert Shl(0, 10) == 0;
    Tens();
    FieldCode(15, 0, F16);
    FieldCode(30, 1023, F16);
    FieldCode(0, 1, F16);
    Halvings();
  }

  lemma Tens()
    ensures Shl(15, 10) == 0x3c00 && Shl(30, 10) == 0x7800 && Pow(10) == 1024
  {
    assert Shl(15, 5) == 480 && Shl(30, 5) == 960 && Shl(1, 5) == 32;
    ShlCompose(15, 5, 5);
    ShlCompose(30, 5, 5);
    ShlCompose(1, 5, 5);
    assert Shl(480, 5) == 15360 && Shl(960, 5) == 30720 && Shl(32, 5) == 1024;
  }

  /** Both 8-bit formats sit inside f16. */
  lemma ByteInF16(p: Precision, m: nat)
    requires (p == P8E4M3 || p == P8E5M2) && m < FiniteCodes(FormatOf(p))
    ensures Magnitude(m, FormatOf(p)) >= 0.0
    ensures RoundCode(Magnitude(m, FormatOf(p)), F16) < FiniteCodes(F16)
    ensures Magnitude(RoundCode(Magnitude(m, FormatOf(p)), F16), F16) == Magnitude(m, FormatOf(p))
  {
    hide Scale, Shl, Shr, Low, RoundCode, Magnitude;
    FormatFacts();
    TopExps();
    WordLimits();
    Embeds(m, FormatOf(p), F16);
  }

  /** A short significand within range has a finite code in a wide format. */
  lemma GridCode(n: nat, k: int, f: Format) returns (m: nat)
    requires Wide(f) && n < 2 * Pow(f.mant) && MinExp(f) - f.mant <= k <= TopExp(f) - f.mant
    ensures m < FiniteCodes(f) && Magnitude(m, f) == Scale(n as real, k)
  {
    hide Scale, Shl, RoundCode, Magnitude, FiniteCodes, TopExp;
    ExactOnGrid(n, k, f);
    BelowThreshold(n, k, f.mant, TopExp(f), f.mant);
    RoundCodeOverflow(Scale(n as real, k), f);
    m := RoundCode(Scale(n as real, k), f);
  }

  lemma TargetScaled()
    ensures Scale(8.0, 7) == 1024.0 && Scale(1024.0, 0) == 1024.0 && Scale(192.0, 0) == 192.0
    ensures Scale(4.0, 8) == 1024.0 && Scale(12.0, 4) == 192.0 && Scale(4.0, 8) == 1024.0
  {
    assert Scale(4.0, 1) == 8.0 && Scale(4.0, 2) == 16.0 && Scale(4.0, 3) == 32.0 && Scale(4.0, 4) == 64.0;
    ScaleCompose(4.0, 4, 4);
    ScaleCompose(4.0, 1, 7);
    assert Scale(64.0, 4) == 1024.0;
    assert Scale(12.0, 2) == 48.0;
    ScaleCompose(12.0, 2, 2);
  }

  /** The target is a value of f32 and of f16. */
  lemma TargetInWide(p: Precision) returns (m32: nat, m16: nat)
    requires Reduced(p)
    ensures m32 < FiniteCodes(F32) && Magnitude(m32, F32) == Target(p)
    ensures m16 < FiniteCodes(F16) && Magnitude(m16, F16) == Target(p)
  {
    hide Scale, Shl, Magnitude, FiniteCodes;
    TargetScaled();
    WordLimits();
    Constants();
    TopExps();
    m32 := GridCode(if p == P8E4M3 then 192 else 1024, 0, F32);
    m16 := GridCode(if p == P8E4M3 then 192 else 1024, 0, F16);
  }

  /** The target, with either sign, is a value of its own 8-bit format. */
  lemma TargetInByte(p: Precision, neg: bool) returns (code: nat)
    requires p == P8E4M3 || p == P8E5M2
    ensures FiniteCode(code, FormatOf(p)) && CodeValue(code, FormatOf(p)) == Signed(neg, Target(p))
  {
    hide Scale, Shl, Shr, Low, Magnitude, DecodeMini, FiniteCodes;
    FormatFacts();
    TopExps();
    TargetScaled();
    var m: nat;
    if p == P8E4M3 {
      m := 0x74;
      E4M3Target();
    } else {
      m := GridCode(4, 8, E5M2);
    }
    code := m + if neg then 128 else 0;
    DecodeIsMagnitude(code, FormatOf(p));
  }

  lemma E4M3Target()
    ensures Magnitude(0x74, E4M3) == Scale(12.0, 4)
  {
    hide Scale;
    FormatFacts();
    assert Shl(14, 3) == 112;
    Unpacked(14, 4, 3);
  }

  /** A value capped by a finite code rounds to at most that code. */
  lemma RoundCap(x: real, m: nat, f: Format)
    requires Wide(f) && 0.0 <= x <= Magnitude(m, f) && m < FiniteCodes(f)
    ensures RoundCode(x, f) <= m && Magnitude(RoundCode(x, f), f) <= Magnitude(m, f)
  {
    hide RoundCode, Magnitude, FiniteCodes;
    RoundCodeExact(m, f);
    RoundCodeMono(x, Magnitude(m, f), f);
    MagnitudeOrder(m, RoundCode(x, f), f);
  }

  /** The nearest f32 of a magnitude. */
  function Stored(mag: real): (y: real)
    requires mag >= 0.0
    ensures y >= 0.0
  {
    WordLimits();
    MagnitudeSign(RoundCode(mag, F32), F32);
    Magnitude(RoundCode(mag, F32), F32)
  }

  function HalfMag(mag: real): (m: nat)
    requires mag >= 0.0
  {
    WordLimits();
    RoundCode(Stored(mag), F16)
  }

  /** Within the target no element overflows, and none is read back above the target. */
  lemma HalfElement(x: real, p: Precision)
    requires Reduced(p) && Abs(x) <= Target(p)
    ensures RoundCode(Abs(x), F32) < FiniteCodes(F32) && Stored(Abs(x)) <= Target(p)
    ensures HalfMag(Abs(x)) < FiniteCodes(F16) && Magnitude(HalfMag(Abs(x)), F16) <= Target(p)
    ensures HalfCode(x) == (if x < 0.0 then 0x8000 else 0) + HalfMag(Abs(x))
    ensures F16ToF32(HalfCode(x)) == Fin(x < 0.0, Magnitude(HalfMag(Abs(x)), F16))
  {
    hide RoundCode, Magnitude, FiniteCodes, HalfOf, StoreWord, F16ToF32, DecodeMini;
    var m32, m16 := TargetInWide(p);
    WordLimits();
    RoundCap(Abs(x), m32, F32);
    RoundCap(Stored(Abs(x)), m16, F16);
    HalfOfStored(x < 0.0, Abs(x));
    F16IsMini(HalfCode(x));
    DecodeIsMagnitude(HalfCode(x), F16);
  }

  /** The f16 value of a scaled element. */
  function HalfValue(x: real): real {
    Signed(x < 0.0, Magnitude(HalfMag(Abs(x)), F16))
  }

  /** An f16 value is kept exactly. */
  lemma HalfFixes(x: real, m: nat)
    requires m < FiniteCodes(F16) && Abs(x) == Magnitude(m, F16)
    ensures HalfValue(x) == x
  {
    hide RoundCode, Magnitude, FiniteCodes;
    F16InF32(m);
    WordLimits();
    RoundCodeExact(m, F16);
  }

  /** How an element reads back, by format. */
  lemma ElementValue(x: real, p: Precision)
    requires Reduced(p) && Abs(x) <= Target(p)
    ensures p == P16 ==> Element(x, p) == HalfValue(x)
    ensures p != P16 ==> Searchable(FormatOf(p)) &&
                         Element(x, p) == CodeValue(EncodeReal(HalfValue(x), FormatOf(p)), FormatOf(p))
    ensures Abs(HalfValue(x)) <= Target(p)
  {
    hide RoundCode, Magnitude, FiniteCodes, HalfOf, StoreWord, F16ToF32, DecodeMini, EncodeReal, SignBit;
    FormatFacts();
    HalfElement(x, p);
    MagnitudeSign(HalfMag(Abs(x)), F16);
    F16IsMini(HalfCode(x));
    if p == P16 {
      assert CodeValue(HalfCode(x), F16) == HalfValue(x);
    }
  }

  /** No element is read back outside the target: nothing saturates. */
  lemma ElementBounded(x: real, p: Precision)
    requires Reduced(p) && Abs(x) <= Target(p)
    ensures Abs(Element(x, p)) <= Target(p)
  {
    hide Element, HalfValue, EncodeReal, CodeValue, FiniteCode, Searchable;
    ElementValue(x, p);
    if p != P16 {
      var lo := TargetInByte(p, true);
      var hi := TargetInByte(p, false);
      EncodeNearest(HalfValue(x), lo, FormatOf(p));
      EncodeNearest(HalfValue(x), hi, FormatOf(p));
    }
  }

  /** The target itself, with either sign, is kept exactly. */
  lemma TargetKept(p: Precision, neg: bool)
    requires Reduced(p)
    ensures Element(Signed(neg, Target(p)), p) == Signed(neg, Target(p))
  {
    hide Element, HalfValue, EncodeReal, CodeValue, FiniteCode, Searchable, FiniteCodes, Magnitude;
    var x := Signed(neg, Target(p));
    var m32, m16 := TargetInWide(p);
    HalfFixes(x, m16);
    ElementValue(x, p);
    if p != P16 {
      var code := TargetInByte(p, neg);
      EncodeExact(code, FormatOf(p));
    }
  }

  /** An element that has been on the wire is kept exactly the next time. */
  lemma ElementIdempotent(x: real, p: Precision)
    requires Reduced(p) && Abs(x) <= Target(p)
    ensures Element(Element(x, p), p) == Element(x, p)
  {
    hide Element, EncodeReal, CodeValue, FiniteCode, Searchable, FiniteCodes, Magnitude, RoundCode, HalfMag, HalfValue;
    ElementBounded(x, p);
    ElementValue(x, p);
    ElementValue(Element(x, p), p);
    if p == P16 {
      HalfValueCode(x, p);
      HalfFixes(Element(x, p), HalfMag(Abs(x)));
    } else {
      var f := FormatOf(p);
      var code := EncodeReal(HalfValue(x), f);
      var any := TargetInByte(p, false);
      EncodeNearest(HalfValue(x), any, f);
      var m := ByteValueInF16(p, code);
      HalfFixes(Element(x, p), m);
      EncodeExact(code, f);
    }
  }

  lemma HalfValueCode(x: real, p: Precision)
    requires Reduced(p) && Abs(x) <= Target(p)
    ensures HalfMag(Abs(x)) < FiniteCodes(F16) && Abs(HalfValue(x)) == Magnitude(HalfMag(Abs(x)), F16)
  {
    hide RoundCode, Magnitude, FiniteCodes, HalfMag, HalfCode;
    HalfElement(x, p);
    MagnitudeSign(HalfMag(Abs(x)), F16);
  }

  lemma ByteValueInF16(p: Precision, code: nat) returns (m: nat)
    requires (p == P8E4M3 || p == P8E5M2) && FiniteCode(code, FormatOf(p))
    ensures m < FiniteCodes(F16) && Abs(CodeValue(code, FormatOf(p))) == Magnitude(m, F16)
  {
    hide RoundCode, Magnitude, FiniteCodes, DecodeMini;
    var f := FormatOf(p);
    FormatFacts();
    DecodeIsMagnitude(code, f);
    var c := if code >= SignBit(f) then code - SignBit(f) else code;
    ByteInF16(p, c);
    m := RoundCode(Magnitude(c, f), F16);
  }

  // ── a whole vector ────────────────────────────────────────────────────────

  /** The largest magnitude of a vector. */
  function MaxAbs(v: seq<real>): (m: real)
    ensures m >= 0.0
    ensures forall i :: 0 <= i < |v| ==> Abs(v[i]) <= m
    ensures m > 0.0 ==> exists i :: 0 <= i < |v| && Abs(v[i]) == m
  {
    if v == [] then 0.0
    else
      var rest := MaxAbs(v[..|v| - 1]);
      if Abs(v[|v| - 1]) > rest then Abs(v[|v| - 1]) else rest
  }

  /** A product and a quotient, named so that proofs can treat them as atoms. */
  function Times(x: real, y: real): real {
    x * y
  }

  function Over(x: real, y: real): real
    requires y != 0.0
  {
    x / y
  }

  /** The laws of scaling by a positive factor. */
  lemma TimesLaws(x: real, y: real, s: real)
    requires s > 0.0
    ensures Abs(Times(x, s)) == Times(Abs(x), s)
    ensures x < 0.0 <==> Times(x, s) < 0.0
    ensures x == 0.0 <==> Times(x, s) == 0.0
    ensures Times(-x, s) == -Times(x, s)
    ensures x < y <==> Times(x, s) < Times(y, s)
    ensures x == y <==> Times(x, s) == Times(y, s)
    ensures Over(1.0, s) > 0.0
    ensures Times(Times(x, Over(1.0, s)), s) == x
    ensures Times(x, 1.0) == x
  {
    ProductSigns(x, s);
    ProductSigns(y - x, s);
    assert (y - x) * s == y * s - x * s;
    assert (1.0 / s) * s == 1.0;
    assert x * (1.0 / s) * s == x * ((1.0 / s) * s);
  }

  lemma ProductSigns(x: real, s: real)
    requires s > 0.0
    ensures x < 0.0 <==> x * s < 0.0
    ensures x == 0.0 <==> x * s == 0.0
    ensures (-x) * s == -(x * s)
  {
    assert x > 0.0 ==> x * s > 0.0;
    assert x < 0.0 ==> x * s < 0.0;
  }

  lemma OverLaw(t: real, m: real)
    requires t > 0.0 && m > 0.0
    ensures Over(t, m) > 0.0 && Times(m, Over(t, m)) == t
  {
    assert t / m > 0.0;
  }

  /** The per-message scale. */
  function ScaleOf(v: seq<real>, p: Precision): (s: real)
    ensures s > 0.0
  {
    if MaxAbs(v) > 0.0 then (OverLaw(Target(p), MaxAbs(v)); Over(Target(p), MaxAbs(v))) else 1.0
  }

  /** The codes of a vector under a given scale. */
  function ScaledCodes(v: seq<real>, scale: real, p: Precision): (codes: seq<nat>) {
    seq<nat>(|v|, i requires 0 <= i < |v| => WireCode(Times(v[i], scale), p))
  }

  function Codes(v: seq<real>, p: Precision): (codes: seq<nat>) {
    ScaledCodes(v, ScaleOf(v, p), p)
  }

  function Values(codes: seq<nat>, scale: real, p: Precision): (v: seq<real>)
    requires scale != 0.0
  {
    seq(|codes|, i requires 0 <= i < |codes| => Times(CodeValue(codes[i], FormatOf(p)), Over(1.0, scale)))
  }

  /** What a vector becomes after a trip through the wire; None when the wire changes nothing. */
  function RoundTrip(v: seq<real>, p: Precision): Option<seq<real>> {
    if p == P32 || |v| == 0 then None else Some(Values(Codes(v, p), ScaleOf(v, p), p))
  }

  /** The vector every receiver decodes. */
  function OnWire(v: seq<real>, p: Precision): (w: seq<real>)
    ensures |w| == |v|
  {
    match RoundTrip(v, p)
    case None => v
    case Some(w) => w
  }

  /** Scaling maps the largest magnitude to the target and every other one below it. */
  lemma ScaledBound(v: seq<real>, p: Precision, i: nat)
    requires Reduced(p) && i < |v|
    ensures Abs(Times(v[i], ScaleOf(v, p))) <= Target(p)
    ensures MaxAbs(v) > 0.0 && Abs(v[i]) == MaxAbs(v) ==>
              Times(v[i], ScaleOf(v, p)) == Signed(v[i] < 0.0, Target(p))
    ensures MaxAbs(v) > 0.0 ==> Times(MaxAbs(v), ScaleOf(v, p)) == Target(p)
    ensures MaxAbs(v) == 0.0 ==> Times(v[i], ScaleOf(v, p)) == 0.0
  {
    hide Times, Over, MaxAbs;
    var s, m := ScaleOf(v, p), MaxAbs(v);
    assert Abs(v[i]) <= m;
    TimesLaws(v[i], m, s);
    TimesLaws(Abs(v[i]), m, s);
    TimesLaws(m, Abs(v[i]), s);
    if m > 0.0 {
      OverLaw(Target(p), m);
    }
  }

  lemma CodesAt(v: seq<real>, scale: real, p: Precision, i: nat)
    requires i < |v|
    ensures |ScaledCodes(v, scale, p)| == |v| && ScaledCodes(v, scale, p)[i] == WireCode(Times(v[i], scale), p)
  {
    hide Times, WireCode;
  }

  lemma ValuesAt(codes: seq<nat>, scale: real, p: Precision, i: nat)
    requires scale > 0.0 && i < |codes|
    ensures Values(codes, scale, p)[i] == Times(CodeValue(codes[i], FormatOf(p)), Over(1.0, scale))
  {
    hide Times, Over, CodeValue;
  }

  /** One element of what a receiver decodes. */
  lemma OnWireAt(v: seq<real>, p: Precision, i: nat)
    requires Reduced(p) && i < |v|
    ensures OnWire(v, p)[i] == Times(Element(Times(v[i], ScaleOf(v, p)), p), Over(1.0, ScaleOf(v, p)))
    ensures Times(OnWire(v, p)[i], ScaleOf(v, p)) == Element(Times(v[i], ScaleOf(v, p)), p)
  {
    hide WireCode, CodeValue, ScaleOf, MaxAbs, ScaledCodes, Values, Times, Over;
    CodesAt(v, ScaleOf(v, p), p, i);
    ValuesAt(Codes(v, p), ScaleOf(v, p), p, i);
    TimesLaws(Element(Times(v[i], ScaleOf(v, p)), p), 0.0, ScaleOf(v, p));
  }

  /** The largest magnitude survives the wire, so the scale is reproduced. */
  lemma MaxAbsKept(v: seq<real>, p: Precision)
    requires Reduced(p)
    ensures MaxAbs(OnWire(v, p)) == MaxAbs(v)
  {
    hide MaxAbs, Element, OnWire, ScaleOf;
    var w, m := OnWire(v, p), MaxAbs(v);
    forall i | 0 <= i < |v|
      ensures Abs(w[i]) <= m
      ensures m > 0.0 && Abs(v[i]) == m ==> Abs(w[i]) == m
    {
      ElementKeepsBound(v, p, i);
    }
    if m > 0.0 {
      var i :| 0 <= i < |v| && Abs(v[i]) == m;
      assert Abs(w[i]) <= MaxAbs(w);
    }
    if MaxAbs(w) > 0.0 {
      var j :| 0 <= j < |w| && Abs(w[j]) == MaxAbs(w);
    }
  }

  /** The scale puts the largest magnitude of a message at a fixed place of its format, and leaves a
      message of zeros as it is. */
  lemma LargestPlaced(v: seq<real>, p: Precision, i: nat)
    requires Reduced(p) && i < |v| && Abs(v[i]) == MaxAbs(v)
    ensures MaxAbs(v) > 0.0 ==> Abs(CodeValue(Codes(v, p)[i], FormatOf(p))) == if p == P8E4M3 then 192.0 else 1024.0
    ensures MaxAbs(v) == 0.0 ==> ScaleOf(v, p) == 1.0
  {
    hide MaxAbs, WireCode, CodeValue, Times, Over;
    ScaledBound(v, p, i);
    CodesAt(v, ScaleOf(v, p), p, i);
    TargetKept(p, v[i] < 0.0);
  }

  lemma ElementKeepsBound(v: seq<real>, p: Precision, i: nat)
    requires Reduced(p) && i < |v|
    ensures Abs(OnWire(v, p)[i]) <= MaxAbs(v)
    ensures MaxAbs(v) > 0.0 && Abs(v[i]) == MaxAbs(v) ==> Abs(OnWire(v, p)[i]) == MaxAbs(v)
  {
    hide Element, OnWire, ScaleOf, MaxAbs, Times;
    var s, m, w := ScaleOf(v, p), MaxAbs(v), OnWire(v, p)[i];
    var x := Times(v[i], s);
    OnWireAt(v, p, i);
    ScaledBound(v, p, i);
    ElementBounded(x, p);
    TargetKept(p, v[i] < 0.0);
    ZeroKept(p);
    TimesLaws(w, 0.0, s);
    TimesLaws(Abs(w), m, s);
    TimesLaws(m, Abs(w), s);
  }

  /** Zero is kept, so an all-zero vector has no degenerate scale. */
  lemma ZeroKept(p: Precision)
    requires Reduced(p)
    ensures Element(0.0, p) == 0.0
  {
    hide Element, HalfValue, EncodeReal, CodeValue, FiniteCode, Magnitude, FiniteCodes;
    WordLimits();
    FormatFacts();
    MagnitudeSign(0, F16);
    HalfFixes(0.0, 0);
    ElementValue(0.0, p);
    if p != P16 {
      ZeroTakesTheSign(FormatOf(p));
    }
  }

  /** Quantization is idempotent: what the peers hold is what the next message carries. */
  lemma OnWireIdempotent(v: seq<real>, p: Precision)
    ensures OnWire(OnWire(v, p), p) == OnWire(v, p)
  {
    hide MaxAbs, Element, OnWire, ScaleOf, Times, Over;
    if Reduced(p) {
      var w := OnWire(v, p);
      MaxAbsKept(v, p);
      SameScale(v, w, p);
      forall i | 0 <= i < |v| ensures OnWire(w, p)[i] == w[i] {
        OnWireAt(v, p, i);
        OnWireAt(w, p, i);
        ScaledBound(v, p, i);
        ElementIdempotent(Times(v[i], ScaleOf(v, p)), p);
      }
    } else {
      FullPrecision(v);
    }
  }

  lemma SameScale(v: seq<real>, w: seq<real>, p: Precision)
    requires MaxAbs(v) == MaxAbs(w)
    ensures ScaleOf(v, p) == ScaleOf(w, p)
  {}

  lemma FullPrecision(v: seq<real>)
    ensures OnWire(v, P32) == v && RoundTrip(v, P32) == None
  {}

  // ── the same claim on codes ───────────────────────────────────────────────

  /** Apart from the two zeros, a finite value has one code. */
  lemma CodeUnique(c: nat, d: nat, f: Format)
    requires Searchable(f) && FiniteCode(c, f) && FiniteCode(d, f)
    requires CodeValue(c, f) == CodeValue(d, f)
    ensures c == d || (CodeValue(c, f) == 0.0 && (c == 0 || c == SignBit(f)))
  {
    var i, j := IndexOf(c, f), IndexOf(d, f);
    TableEntry(i, f);
    TableEntry(j, f);
    MagnitudeSign(0, f);
    if i < j { TableOrder(i, j, f); } else if j < i { TableOrder(j, i, f); }
  }

  /** On codes idempotence fails exactly where the first trip produced the positive zero:
      the second trip turns it into the sign-bit zero. */
  lemma CodesIdempotentUnlessZero(x: real, p: Precision)
    requires (p == P8E4M3 || p == P8E5M2) && Abs(x) <= Target(p)
    ensures WireCode(Element(x, p), p) == WireCode(x, p) <==> WireCode(x, p) != 0
  {
    hide HalfValue, EncodeReal, CodeValue, FiniteCode, Magnitude, FiniteCodes, RoundCode, SignBit;
    var f := FormatOf(p);
    FormatFacts();
    var any := TargetInByte(p, false);
    ElementBounded(x, p);
    ElementIdempotent(x, p);
    var c, d := WireCode(x, p), WireCode(Element(x, p), p);
    WireCodeIsEncode(x, p);
    WireCodeIsEncode(Element(x, p), p);
    EncodeNearest(HalfValue(x), any, f);
    EncodeNearest(HalfValue(Element(x, p)), any, f);
    CodeUnique(c, d, f);
    CodeUnique(d, c, f);
    ZeroTakesTheSign(f);
    if c == 0 || c == SignBit(f) {
      ZeroKept(p);
      ZeroCode(p);
    }
  }

  lemma WireCodeIsEncode(x: real, p: Precision)
    requires (p == P8E4M3 || p == P8E5M2) && Abs(x) <= Target(p)
    ensures Searchable(FormatOf(p)) && WireCode(x, p) == EncodeReal(HalfValue(x), FormatOf(p))
  {
    hide RoundCode, Magnitude, FiniteCodes, HalfCode, HalfMag, F16ToF32, DecodeMini, EncodeReal, SignBit;
    FormatFacts();
    HalfElement(x, p);
  }

  lemma ZeroCode(p: Precision)
    requires p == P8E4M3 || p == P8E5M2
    ensures WireCode(0.0, p) == SignBit(FormatOf(p)) != 0
  {
    hide RoundCode, Magnitude, FiniteCodes, EncodeReal, HalfValue, DecodeMini;
    FormatFacts();
    WordLimits();
    MagnitudeSign(0, F16);
    HalfFixes(0.0, 0);
    WireCodeIsEncode(0.0, p);
    ZeroTakesTheSign(FormatOf(p));
  }

  /** The failing case exists: the smallest negative f16 goes out as the positive zero. */
  lemma TinyNegativeBecomesZero(p: Precision)
    requires p == P8E4M3 || p == P8E5M2
    ensures var x := -Magnitude(1, F16); Abs(x) <= Target(p) && WireCode(x, p) == 0
  {
    hide RoundCode, FiniteCodes, DecodeMini, HalfValue, Magnitude, EncodeReal, WireCode, Searchable, Element;
    var x := -Magnitude(1, F16);
    TinyBounds();
    FormatFacts();
    WordLimits();
    MagnitudeSign(1, F16);
    HalfFixes(x, 1);
    WireCodeIsEncode(x, p);
    TinyEncode(x, FormatOf(p));
  }

  lemma TinyBounds()
    ensures 0.0 < Magnitude(1, F16) <= 1.0
    ensures 2.0 * Magnitude(1, F16) < Magnitude(1, E4M3) && 2.0 * Magnitude(1, F16) < Magnitude(1, E5M2)
  {
    hide Magnitude, Scale;
    SmallestCodes();
    ScaleSign(1.0, -24);
    ScaleZero(1.0);
    ScaleMonoExp(1.0, -24, 0);
    ScaleMonoExp(1.0, -24, -23);
    ScaleMonoExp(1.0, -23, -16);
    ScaleMonoExp(1.0, -16, -9);
  }

  lemma SmallestCodes()
    ensures Magnitude(1, F16) == Scale(1.0, -24)
    ensures Magnitude(1, E4M3) == Scale(1.0, -9)
    ensures Magnitude(1, E5M2) == Scale(1.0, -16)
  {
    hide Scale;
    Constants();
    FormatFacts();
    ShlZero(10);
    ShlZero(3);
    ShlZero(2);
    Unpacked(0, 1, 10);
    Unpacked(0, 1, 3);
    Unpacked(0, 1, 2);
  }

  lemma TinyEncode(x: real, f: Format)
    requires Searchable(f) && FiniteCodes(f) >= 3 && x < 0.0 && -2.0 * x <= Magnitude(1, f)
    ensures EncodeReal(x, f) == 0
  {
    hide Magnitude, FiniteCodes, SignBit, LastAtMost;
    var n := FiniteCodes(f);
    MagnitudeSign(0, f);
    MagnitudeSign(1, f);
    MagnitudeOrder(1, n - 1, f);
    SignBitEven(f);
    LastUnique(x, n - 2, f);
  }

  /** From zero up the positive zero is never chosen. */
  lemma UpwardsNotZero(x: real, f: Format)
    requires Searchable(f) && FiniteCodes(f) >= 3 && x >= 0.0
    ensures EncodeReal(x, f) != 0
  {
    hide Magnitude, FiniteCodes, SignBit, LastAtMost;
    var n := FiniteCodes(f);
    ZeroTakesTheSign(f);
    MagnitudeSign(0, f);
    MagnitudeSign(n - 1, f);
    if x < TableValue(TableSize(f) - 1, f) {
      var lo := LastAtMost(x, TableSize(f) - 1, f);
      if lo < n {
        TableOrder2(lo + 1, n, f);
      }
    }
  }

  /** Exactly which reals an 8-bit format takes for the positive zero: the negative ones down to
      half its smallest value, the tie included, since zero is the even code. */
  lemma PositiveZeroIff(x: real, f: Format)
    requires Searchable(f) && FiniteCodes(f) >= 3
    ensures EncodeReal(x, f) == 0 <==> x < 0.0 && -2.0 * x <= Magnitude(1, f)
  {
    hide Magnitude, FiniteCodes, SignBit, EncodeReal, FiniteCode, CodeValue;
    var n := FiniteCodes(f);
    if x >= 0.0 {
      UpwardsNotZero(x, f);
    } else if -2.0 * x <= Magnitude(1, f) {
      TinyEncode(x, f);
    } else {
      ZeroTakesTheSign(f);
      MagnitudeSign(1, f);
      TableEntry(n - 2, f);
      EncodeNearest(x, TableCode(n - 2, f), f);
    }
  }

  /** A test on the f16 value of a scaled element: negative, and within half the smallest 8-bit
      value of zero. */
  predicate FallsToZero(x: real, p: Precision) {
    HalfValue(x) < 0.0 && -2.0 * HalfValue(x) <= Magnitude(1, FormatOf(p))
  }

  /** On 8-bit codes a second trip changes something exactly for such elements. */
  lemma CodesIdempotentIff(x: real, p: Precision)
    requires (p == P8E4M3 || p == P8E5M2) && Abs(x) <= Target(p)
    ensures WireCode(Element(x, p), p) == WireCode(x, p) <==> !FallsToZero(x, p)
  {
    hide HalfValue, EncodeReal, Magnitude, WireCode, Element, SignBit;
    FormatFacts();
    CodesIdempotentUnlessZero(x, p);
    WireCodeIsEncode(x, p);
    PositiveZeroIff(HalfValue(x), FormatOf(p));
  }

  // ── error ─────────────────────────────────────────────────────────────────

  /** Half the spacing of format `f` at magnitude `y`. */
  function HalfStep(y: real, f: Format): real
    requires Wide(f)
  {
    Scale(0.5, ExpOf(y, f) - f.mant)
  }

  /** The format with its top exponent reserved: same values below, so same spacing. */
  function Reserved(f: Format): Format {
    f.(infs := true)
  }

  /** Each element moves by at most what its store to f32 moves it, half an f16 step, and in the
      8-bit formats half an 8-bit step; one that is already an f32 value by the steps alone. */
  lemma ElementError(x: real, p: Precision)
    requires Reduced(p) && Abs(x) <= Target(p)
    ensures Wide(F32) && Wide(F16) && Wide(Reserved(FormatOf(p)))
    ensures Dist(Abs(x), Stored(Abs(x))) <= HalfStep(Abs(x), F32)
    ensures Dist(x, Element(x, p)) <= Dist(Abs(x), Stored(Abs(x))) + StepsAllowed(x, p)
  {
    hide Element, HalfStep, RoundCode, Magnitude, FiniteCodes, HalfMag, Stored, EncodeReal, CodeValue;
    WordLimits();
    ElementValue(x, p);
    HalfError(x, p);
    if p != P16 {
      ByteError(HalfValue(x), p);
    }
  }

  /** Half a step of f16, and of the 8-bit format if it is one, where the element stands. */
  function StepsAllowed(x: real, p: Precision): real
    requires Wide(F16) && Wide(Reserved(FormatOf(p)))
  {
    HalfStep(Stored(Abs(x)), F16) + if p == P16 || p ==
      P32 then 0.0 else HalfStep(Abs(HalfValue(x)), Reserved(FormatOf(p)))
  }

  lemma HalfError(x: real, p: Precision)
    requires Reduced(p) && Abs(x) <= Target(p)
    ensures Wide(F32) && Wide(F16)
    ensures Dist(Abs(x), Stored(Abs(x))) <= HalfStep(Abs(x), F32)
    ensures Dist(x, HalfValue(x)) <= Dist(Abs(x), Stored(Abs(x))) + HalfStep(Stored(Abs(x)), F16)
    ensures Dist(x, HalfValue(x)) <= Dist(Abs(x), Stored(Abs(x))) + Dist(Stored(Abs(x)),
              Magnitude(HalfMag(Abs(x)), F16))
  {
    hide RoundCode, Magnitude, FiniteCodes, Scale, ExpOf;
    WordLimits();
    HalfElement(x, p);
    RoundCodeValue(Abs(x), F32);
    RoundCodeValue(Stored(Abs(x)), F16);
  }

  lemma ByteError(z: real, p: Precision)
    requires (p == P8E4M3 || p == P8E5M2) && Abs(z) <= Target(p)
    ensures var f := FormatOf(p);
            && Searchable(f) && Wide(Reserved(f))
            && Dist(z, CodeValue(EncodeReal(z, f), f)) <= HalfStep(Abs(z), Reserved(f))
  {
    hide RoundCode, Magnitude, DecodeMini, Scale, ExpOf, EncodeReal;
    var f := FormatOf(p);
    FormatFacts();
    ReservedFacts();
    TargetUnderReserved(p);
    RoundCap(Abs(z), if p == P8E4M3 then 0x74 else 0x64, Reserved(f));
    RoundCodeValue(Abs(z), Reserved(f));
    var m := RoundCode(Abs(z), Reserved(f));
    var code := m + if z < 0.0 then 128 else 0;
    ReservedMagnitude(m, f);
    DecodeIsMagnitude(code, f);
    EncodeNearest(z, code, f);
  }

  lemma ReservedFacts()
    ensures FiniteCodes(Reserved(E4M3)) == 120 && FiniteCodes(Reserved(E5M2)) == 124
  {
    FormatFacts();
    assert Shl(15, 3) == 120;
  }

  lemma ReservedMagnitude(m: nat, f: Format)
    ensures Magnitude(m, Reserved(f)) == Magnitude(m, f)
  {
    hide Scale, Shl, Shr, Low;
  }

  lemma TargetUnderReserved(p: Precision)
    requires p == P8E4M3 || p == P8E5M2
    ensures Magnitude(if p == P8E4M3 then 0x74 else 0x64, Reserved(FormatOf(p))) == Target(p)
  {
    hide Scale;
    FormatFacts();
    TargetScaled();
    E4M3Target();
    ReservedMagnitude(0x74, E4M3);
    ReservedMagnitude(0x64, E5M2);
    assert Shl(25, 2) == 100;
    Unpacked(25, 0, 2);
  }

  lemma ExpBelow(y: real, k: int, f: Format)
    requires Wide(f) && MinExp(f) <= k && y < Scale(1.0, k + 1)
    ensures ExpOf(y, f) <= k
    ensures HalfStep(y, f) <= Scale(0.5, k - f.mant)
  {
    hide Scale;
    var e := ExpOf(y, f);
    if k + 1 <= e { ScaleMonoExp(1.0, k + 1, e); }
    ScaleMonoExp(0.5, e - f.mant, k - f.mant);
  }

  // ── when two half steps do not suffice ────────────────────────────────────

  /** An integer multiple of 2^k. */
  ghost predicate OnGrid(x: real, k: int) {
    exists n :: x == Grid(n, k)
  }

  function Grid(n: int, k: int): real {
    Scale(n as real, k)
  }

  lemma GridUnit(n: int, k: int)
    ensures Grid(n, k) == Times(n as real, Scale(1.0, k)) && Scale(1.0, k) > 0.0
  {
    hide Scale;
    ScaleLinear(n as real, k);
    ScaleSign(1.0, k);
  }

  /** A coarser grid lies on a finer one. */
  lemma Finer(n: int, j: int, k: int)
    requires j >= k
    ensures OnGrid(Scale(n as real, j), k)
  {
    hide Scale;
    var t := j - k;
    ScaleCompose(n as real, t, k);
    ScaleFactor(n as real, t);
    ScaleInt(1, t);
    var m := n * Shl(1, t);
    assert Scale(n as real, t) == m as real;
    assert Scale(n as real, j) == Grid(m, k);
  }

  lemma HalfOnGrid(j: int, k: int)
    requires j - 1 >= k
    ensures OnGrid(Scale(0.5, j), k) && Scale(0.5, j) > 0.0
  {
    hide Scale;
    ScaleDouble(0.5, j - 1);
    ScaleSign(0.5, j);
    Finer(1, j - 1, k);
  }

  lemma SignedOnGrid(neg: bool, x: real, k: int)
    requires OnGrid(x, k)
    ensures OnGrid(Signed(neg, x), k)
  {
    hide Scale;
    var n :| x == Grid(n, k);
    GridUnit(n, k);
    GridUnit(-n, k);
    assert -x == Grid(-n, k);
  }

  /** On a grid, short of a bound is short by a whole unit. */
  lemma GridGap(x: real, y: real, bound: real, k: int)
    requires OnGrid(x, k) && OnGrid(y, k) && OnGrid(bound, k)
    ensures Dist(x, y) < bound ==> Dist(x, y) + Scale(1.0, k) <= bound
    ensures bound > 0.0 ==> bound >= Scale(1.0, k)
  {
    hide Grid, Dist;
    var a :| x == Grid(a, k);
    var b :| y == Grid(b, k);
    var c :| bound == Grid(c, k);
    GridDist(a, b, k);
    GridStep(if a < b then b - a else a - b, c, k);
    GridStep(0, c, k);
  }

  lemma GridDist(a: int, b: int, k: int)
    ensures Dist(Grid(a, k), Grid(b, k)) == Grid(if a < b then b - a else a - b, k)
  {
    hide Grid, Scale, Times;
    GridUnit(a, k);
    GridUnit(b, k);
    GridUnit(if a < b then b - a else a - b, k);
    UnitDist(a as real, b as real, Scale(1.0, k));
  }

  lemma UnitDist(a: real, b: real, u: real)
    requires u > 0.0
    ensures Dist(Times(a, u), Times(b, u)) == Times(Dist(a, b), u)
  {
    assert a * u - b * u == (a - b) * u;
    ProductSigns(a - b, u);
  }

  lemma RealGap(d: int, c: int)
    ensures c as real <= d as real || c as real - d as real >= 1.0
  {
    assert c <= d || c >= d + 1;
  }

  lemma UnitStep(d: real, c: real, u: real)
    requires u > 0.0 && (c <= d || c - d >= 1.0)
    ensures Times(d, u) < Times(c, u) ==> Times(d, u) + u <= Times(c, u)
  {
    assert (c - d) * u == c * u - d * u;
    assert (c - d - 1.0) * u == (c - d) * u - u;
    ProductSigns(c - d, u);
    ProductSigns(c - d - 1.0, u);
  }

  lemma GridZero(k: int)
    ensures Grid(0, k) == 0.0
  {
    hide Scale;
    ScaleSign(0.0, k);
  }

  lemma GridStep(d: int, c: int, k: int)
    ensures Grid(d, k) < Grid(c, k) ==> Grid(d, k) + Scale(1.0, k) <= Grid(c, k)
    ensures Grid(0, k) == 0.0
  {
    hide Grid, Scale, Times;
    GridUnit(d, k);
    GridUnit(c, k);
    GridZero(k);
    RealGap(d, c);
    UnitStep(d as real, c as real, Scale(1.0, k));
  }

  /** A value of a wide format on its own grid. */
  lemma ValueOnGrid(m: nat, f: Format, k: int)
    requires Wide(f) && m < FiniteCodes(f) && Magnitude(m, f) >= 0.0
    requires ExpOf(Magnitude(m, f), f) - f.mant >= k
    ensures OnGrid(Magnitude(m, f), k)
  {
    hide Scale, RoundCode, Magnitude, FiniteCodes, ExpOf, RoundedSignificand;
    var x := Magnitude(m, f);
    RoundCodeExact(m, f);
    RoundCodeValue(x, f);
    Finer(RoundedSignificand(x, f), ExpOf(x, f) - f.mant, k);
  }

  /** The exponent of a magnitude grows with the magnitude and with the format's least exponent. */
  lemma ExpAtLeast(y: real, e: int, f: Format)
    requires Wide(f) && y >= Scale(1.0, e) && e <= TopExp(f)
    ensures ExpOf(y, f) >= e
  {
    hide Scale;
    if ExpOf(y, f) < e { ScaleMonoExp(1.0, ExpOf(y, f) + 1, e); }
  }

  /** Storing never leaves the binade downwards. */
  lemma StoredExp(a: real)
    requires 0.0 <= a <= 1024.0 && Wide(F32) && RoundCode(a, F32) < FiniteCodes(F32) && Stored(a) <= 1024.0
    ensures ExpOf(a, F32) <= ExpOf(Stored(a), F32) <= 10
    ensures Dist(a, Stored(a)) <= Scale(1.0, ExpOf(Stored(a), F32) - 24)
  {
    hide Scale, RoundCode, Magnitude, FiniteCodes;
    Constants();
    TopExps();
    PowerTable();
    ScaleStep(1.0, 10);
    var ea := ExpOf(a, F32);
    ExpBelow(Stored(a), 10, F32);
    if ea > -126 {
      ExpBelow(a, 10, F32);
      var m := GridCode(8388608, ea - 23, F32);
      EightMillion(ea);
      RoundCodeExact(m, F32);
      RoundCodeMono(Magnitude(m, F32), a, F32);
      MagnitudeOrder(RoundCode(a, F32), m, F32);
      ExpAtLeast(Stored(a), ea, F32);
    }
    StoredStep(a);
    ScaleDouble(0.5, ea - 24);
    ScaleMonoExp(1.0, ea - 24, ExpOf(Stored(a), F32) - 24);
  }

  lemma EightMillion(e: int)
    ensures Scale(8388608.0, e - 23) == Scale(1.0, e) && Scale(1.0, e) > 0.0
  {
    hide Scale;
    Constants();
    ScaleInt(1, 23);
    ScaleCompose(1.0, 23, e - 23);
    ScaleSign(1.0, e);
  }

  /** Both wide roundings of a scaled magnitude on one grid, whose unit the store cannot exceed. */
  lemma HalfGrid(a: real) returns (k: int)
    requires 0.0 <= a <= 1024.0 && Wide(F32) && Wide(F16)
    requires RoundCode(a, F32) < FiniteCodes(F32) && Stored(a) <= 1024.0 && HalfMag(a) < FiniteCodes(F16)
    ensures k == ExpOf(Stored(a), F32) - 24 <= -14 && Dist(a, Stored(a)) <= Scale(1.0, k)
    ensures OnGrid(Stored(a), k) && OnGrid(Magnitude(HalfMag(a), F16), k)
    ensures OnGrid(HalfStep(Stored(a), F16), k) && 0.0 < HalfStep(Stored(a), F16) <= 0.5
    ensures Dist(Stored(a), Magnitude(HalfMag(a), F16)) <= HalfStep(Stored(a), F16)
  {
    hide Scale, RoundCode, Magnitude, FiniteCodes, ExpOf, OnGrid, RoundedSignificand;
    var y := Stored(a);
    StoredExp(a);
    k := ExpOf(y, F32) - 24;
    MagnitudeSign(RoundCode(a, F32), F32);
    ValueOnGrid(RoundCode(a, F32), F32, k);
    HalfExp(y);
    HalfOnGrid(ExpOf(y, F16) - 10, k);
    RoundCodeValue(y, F16);
    Finer(RoundedSignificand(y, F16), ExpOf(y, F16) - 10, k);
    ScaleZero(0.5);
    ScaleMonoExp(0.5, ExpOf(y, F16) - 10, 0);
  }

  /** An f16 exponent is at least the f32 one. */
  lemma HalfExp(y: real)
    requires 0.0 <= y <= 1024.0 && Wide(F32) && Wide(F16)
    ensures ExpOf(y, F32) <= ExpOf(y, F16) <= 10
  {
    hide Scale;
    Constants();
    TopExps();
    PowerTable();
    ScaleStep(1.0, 10);
    ExpBelow(y, 10, F16);
    ExpBelow(y, ExpOf(y, F16), F32);
  }

  /** The 8-bit value and half its step lie on that grid as well. */
  lemma ByteGrid(w: real, c: nat, p: Precision, k: int)
    requires (p == P8E4M3 || p == P8E5M2) && 0.0 <= w <= Target(p) && c < FiniteCodes(FormatOf(p))
    requires Wide(Reserved(FormatOf(p))) && 0.0 <= Magnitude(c, FormatOf(p)) <= Target(p)
    requires Dist(w, Magnitude(c, FormatOf(p))) <= HalfStep(w, Reserved(FormatOf(p)))
    requires k <= -14 && (k >= -16 ==> w >= 255.0)
    ensures OnGrid(HalfStep(w, Reserved(FormatOf(p))), k) && HalfStep(w, Reserved(FormatOf(p))) > 0.0
    ensures OnGrid(Magnitude(c, FormatOf(p)), k)
  {
    hide Scale, Magnitude, FiniteCodes, ExpOf, OnGrid;
    var f := Reserved(FormatOf(p));
    ByteExps(p);
    ReservedMagnitude(c, FormatOf(p));
    UnderTarget(c, p);
    if k >= -16 && p == P8E5M2 {
      LargeBytes(w, Magnitude(c, f));
    }
    HalfOnGrid(ExpOf(w, f) - f.mant, k);
    ValueOnGrid(c, f, k);
  }

  lemma ByteExps(p: Precision)
    requires p == P8E4M3 || p == P8E5M2
    ensures var f := Reserved(FormatOf(p)); Wide(f) && MinExp(f) == (if p == P8E4M3 then -6 else -14) && TopExp(f) >= 7
    ensures Reserved(FormatOf(p)).mant == if p == P8E4M3 then 3 else 2
  {
    TopExps();
    assert Shl(1, 4) == 16 && Shl(1, 5) == 32;
  }

  lemma UnderTarget(c: nat, p: Precision)
    requires (p == P8E4M3 || p == P8E5M2) && Magnitude(c, FormatOf(p)) <= Target(p)
    ensures c < FiniteCodes(Reserved(FormatOf(p)))
  {
    hide Magnitude, FiniteCodes;
    var f := FormatOf(p);
    ReservedFacts();
    TargetUnderReserved(p);
    ReservedMagnitude(c, f);
    MagnitudeOrder(if p == P8E4M3 then 0x74 else 0x64, c, Reserved(f));
  }

  /** From 255 up an E5M2 value is at least 2^7. */
  lemma LargeBytes(w: real, z: real)
    requires Wide(Reserved(E5M2)) && w >= 255.0 && Dist(w, z) <= HalfStep(w, Reserved(E5M2))
    ensures ExpOf(w, Reserved(E5M2)) >= 7 && ExpOf(z, Reserved(E5M2)) >= 7
  {
    hide Scale, ExpOf, Reserved;
    var f := Reserved(E5M2);
    ByteExps(P8E5M2);
    PowerTable();
    ScaleInt(1, 7);
    assert Scale(1.0, 7) == 128.0 by { OneTwentyEight(); }
    ExpAtLeast(w, 7, f);
    var e := ExpOf(w, f);
    BinadeFloor(w, f);
    ScaleDouble(0.5, e - 3);
    UnitsUp(1.0, e - 3, 3);
    assert Scale(1.0, 3) == 8.0 by { Eight(); }
    ExpAtLeast(z, 7, f);
  }

  lemma OneTwentyEight()
    ensures Scale(1.0, 7) == 128.0
  {}

  lemma Eight()
    ensures Scale(1.0, 3) == 8.0
  {}

  lemma BinadeFloor(x: real, f: Format)
    requires Wide(f)
    ensures ExpOf(x, f) > MinExp(f) ==> Scale(1.0, ExpOf(x, f)) <= x
  {
    hide Scale;
  }

  /** What the 8-bit table makes of an f16 value. */
  function ByteValue(h: real, p: Precision): real
    requires Searchable(FormatOf(p))
  {
    CodeValue(EncodeReal(h, FormatOf(p)), FormatOf(p))
  }

  /** A test on the word an element is stored as: that word is an f16 tie, its f16 value is a tie of
      the 8-bit format, both ties go the same way, and the element lies strictly beyond the word on
      the other side. */
  ghost predicate PushedTwice(x: real, p: Precision)
    requires Searchable(FormatOf(p)) && Wide(F16) && Wide(Reserved(FormatOf(p)))
  {
    var y, h, z := Signed(x < 0.0, Stored(Abs(x))), HalfValue(x), ByteValue(HalfValue(x), p);
    && Dist(y, h) == HalfStep(Stored(Abs(x)), F16)
    && Dist(h, z) == HalfStep(Abs(h), Reserved(FormatOf(p)))
    && (x < y < h < z || x > y > h > z)
  }

  /** The arithmetic of three roundings in a row, on one grid. */
  lemma ThreeRoundings(x: real, y: real, h: real, z: real, half: real, byte: real, u: real)
    requires Dist(x, y) <= u && Dist(y, h) <= half && Dist(h, z) <= byte && u <= half && u <= byte && u > 0.0
    requires Dist(y, h) < half ==> Dist(y, h) + u <= half
    requires Dist(h, z) < byte ==> Dist(h, z) + u <= byte
    ensures Dist(x, z) > half + byte <==> Dist(y, h) == half && Dist(h, z) == byte && (x < y < h < z || x > y > h > z)
  {
  }

  /** The 8-bit value of a scaled element as a finite magnitude with a sign. */
  lemma ByteMagnitude(h: real, p: Precision) returns (neg: bool, c: nat)
    requires (p == P8E4M3 || p == P8E5M2) && Abs(h) <= Target(p) && Searchable(FormatOf(p))
    ensures c < FiniteCodes(FormatOf(p)) && Magnitude(c, FormatOf(p)) >= 0.0
    ensures ByteValue(h, p) == Signed(neg, Magnitude(c, FormatOf(p)))
  {
    hide Magnitude, EncodeReal, DecodeMini;
    var f := FormatOf(p);
    FormatFacts();
    var any := TargetInByte(p, false);
    EncodeNearest(h, any, f);
    var code := EncodeReal(h, f);
    DecodeIsMagnitude(code, f);
    neg := code >= SignBit(f);
    c := if neg then code - SignBit(f) else code;
    MagnitudeSign(c, f);
  }

  /** The three roundings of an 8-bit element, on one grid of unit 2^k. */
  lemma ByteRoundings(x: real, p: Precision) returns (k: int)
    requires (p == P8E4M3 || p == P8E5M2) && Abs(x) <= Target(p)
    ensures Searchable(FormatOf(p)) && Wide(F16) && Wide(Reserved(FormatOf(p))) && Scale(1.0, k) > 0.0
    ensures var y, h, z := Signed(x < 0.0, Stored(Abs(x))), HalfValue(x), ByteValue(HalfValue(x), p);
            var half, byte := HalfStep(Stored(Abs(x)), F16), HalfStep(Abs(h), Reserved(FormatOf(p)));
            && Dist(x, y) <= Scale(1.0, k) && Dist(y, h) <= half && Dist(h, z) <= byte && half > 0.0 && byte > 0.0
            && OnGrid(y, k) && OnGrid(h, k) && OnGrid(z, k) && OnGrid(half, k) && OnGrid(byte, k)
  {
    hide RoundCode, Magnitude, FiniteCodes, HalfMag, Stored, Element, Scale, ExpOf, OnGrid, HalfStep, ByteValue,
         EncodeReal, CodeValue, DecodeMini, Wide, Searchable;
    var a, h := Abs(x), HalfValue(x);
    WordLimits();
    ByteExps(p);
    HalfElement(x, p);
    ElementValue(x, p);
    ByteIs(x, p);
    k := HalfGrid(a);
    var w := Magnitude(HalfMag(a), F16);
    MagnitudeSign(HalfMag(a), F16);
    ByteError(h, p);
    HighGrid(a, k);
    ByteOnGrid(x, w, p, k);
    SignedOnGrid(x < 0.0, Stored(a), k);
    SignedOnGrid(x < 0.0, w, k);
    ScaleSign(1.0, k);
  }

  lemma ByteOnGrid(x: real, w: real, p: Precision, k: int)
    requires (p == P8E4M3 || p == P8E5M2) && Abs(x) <= Target(p) && w == Abs(HalfValue(x)) <= Target(p)
    requires Searchable(FormatOf(p)) && Wide(Reserved(FormatOf(p)))
    requires Dist(HalfValue(x), ByteValue(HalfValue(x), p)) <= HalfStep(w, Reserved(FormatOf(p)))
    requires k <= -14 && (k >= -16 ==> w >= 255.0)
    ensures OnGrid(HalfStep(w, Reserved(FormatOf(p))), k) && HalfStep(w, Reserved(FormatOf(p))) > 0.0
    ensures OnGrid(ByteValue(HalfValue(x), p), k)
  {
    hide RoundCode, Magnitude, FiniteCodes, HalfValue, Element, Scale, ExpOf, OnGrid, HalfStep, ByteValue, Wide,
         Searchable;
    ByteIs(x, p);
    ElementBounded(x, p);
    var neg, c := ByteMagnitude(HalfValue(x), p);
    ByteGrid(w, c, p, k);
    SignedOnGrid(neg, Magnitude(c, FormatOf(p)), k);
  }

  /** Exactly when an 8-bit element moves by more than half a step of f16 and half a step of its own
      format. */
  lemma ByteMovesMoreIff(x: real, p: Precision)
    requires (p == P8E4M3 || p == P8E5M2) && Abs(x) <= Target(p)
    ensures Searchable(FormatOf(p)) && Wide(F16) && Wide(Reserved(FormatOf(p)))
    ensures Dist(x, Element(x, p)) > StepsAllowed(x, p) <==> PushedTwice(x, p)
  {
    hide HalfValue, Stored, Element, Scale, OnGrid, HalfStep, ByteValue, Wide, Searchable, Signed;
    var k := ByteRoundings(x, p);
    ByteIs(x, p);
    var y, h, z := Signed(x < 0.0, Stored(Abs(x))), HalfValue(x), ByteValue(HalfValue(x), p);
    var half, byte := HalfStep(Stored(Abs(x)), F16), HalfStep(Abs(h), Reserved(FormatOf(p)));
    GridGap(y, h, half, k);
    GridGap(h, z, byte, k);
    ThreeRoundings(x, y, h, z, half, byte, Scale(1.0, k));
  }

  lemma ByteIs(x: real, p: Precision)
    requires (p == P8E4M3 || p == P8E5M2) && Abs(x) <= Target(p)
    ensures Searchable(FormatOf(p)) && Element(x, p) == ByteValue(HalfValue(x), p)
    ensures ByteValue(HalfValue(x), p) == CodeValue(EncodeReal(HalfValue(x), FormatOf(p)), FormatOf(p))
  {
    hide HalfValue, EncodeReal, CodeValue, Element;
    ElementValue(x, p);
  }

  /** A grid as coarse as 2^-16 belongs to a word of at least 256. */
  lemma HighGrid(a: real, k: int)
    requires 0.0 <= a && Wide(F32) && Wide(F16) && k == ExpOf(Stored(a), F32) - 24
    requires Dist(Stored(a), Magnitude(HalfMag(a), F16)) <= 0.5
    ensures k >= -16 ==> Magnitude(HalfMag(a), F16) >= 255.0
  {
    hide Scale, RoundCode, Magnitude, FiniteCodes, ExpOf;
    Constants();
    BinadeFloor(Stored(a), F32);
    if k >= -16 {
      TwoFiftySix();
      ScaleMonoExp(1.0, 8, ExpOf(Stored(a), F32));
    }
  }

  lemma TwoFiftySix()
    ensures Scale(1.0, 8) == 256.0
  {}

  /** In f16 no element moves by more than 2^-2 + 2^-15 of the 1024 the largest is scaled to. */
  lemma HalfUniformError(x: real)
    requires Abs(x) <= 1024.0
    ensures Dist(x, Element(x, P16)) <= Scale(0.5, -1) + Scale(0.5, -14)
  {
    hide Element, HalfStep, RoundCode, Magnitude, FiniteCodes, HalfMag, Stored, HalfValue, Scale, Wide, ExpOf, MinExp,
         TopExp, HalfCode, F16ToF32, Shl, MaxExp;
    WordLimits();
    ElementValue(x, P16);
    HalfError(x, P16);
    HalfElement(x, P16);
    TenthPower();
    ScaleSign(0.5, -1);
    ScaleSign(0.5, -14);
    TargetKept(P16, x < 0.0);
    if Abs(x) < 1024.0 {
      ExpBelow(Abs(x), 9, F32);
      if Stored(Abs(x)) < 1024.0 {
        ExpBelow(Stored(Abs(x)), 9, F16);
      } else {
        StoredTargetExact(x);
      }
    }
  }

  /** An element moves by at most 2^-2 and what its store to f32 moved it before: one that is
      already an f32 value by at most 2^-2. */
  lemma StoredElementError(x: real)
    requires Abs(x) <= 1024.0
    ensures Dist(x, Element(x, P16)) <= Scale(0.5, -1) + Dist(Abs(x), Stored(Abs(x)))
  {
    hide Element, HalfStep, RoundCode, Magnitude, FiniteCodes, HalfMag, Stored, HalfValue, Scale, Wide, ExpOf, MinExp,
         TopExp, HalfCode, F16ToF32, Shl, MaxExp;
    WordLimits();
    ElementValue(x, P16);
    HalfError(x, P16);
    HalfElement(x, P16);
    TenthPower();
    ScaleSign(0.5, -1);
    if Stored(Abs(x)) < 1024.0 {
      ExpBelow(Stored(Abs(x)), 9, F16);
    } else {
      StoredTargetExact(x);
    }
  }

  /** A magnitude of a given binade above the subnormals, by its significand. */
  lemma InBinade(x: real, f: Format, e: int, q: int)
    requires (f == F32 || f == F16) && -13 <= e <= 10 && Scale(1.0, e) <= x < Scale(1.0, e + 1) && x >= 0.0
    requires Wide(f) && RoundCode(x, f) < FiniteCodes(f) && RoundHalfEven(Scale(x, f.mant - e)) == q
    ensures Magnitude(RoundCode(x, f), f) == Scale(q as real, e - f.mant)
  {
    hide RoundCode, Magnitude, FiniteCodes, Scale, RoundHalfEven;
    Constants();
    TopExps();
    BinadeUnique(x, MinExp(f), TopExp(f), e);
    RoundCodeValue(x, f);
    ScaleMonoExp(1.0, MinExp(f), e);
    SignificandIsRound(x, f);
  }

  lemma NinthBinade(x: real, f: Format, q: int)
    requires (f == F32 || f == F16) && 512.0 <= x < 1024.0
    requires Wide(f) && RoundCode(x, f) < FiniteCodes(f) && RoundHalfEven(Scale(x, f.mant - 9)) == q
    ensures Magnitude(RoundCode(x, f), f) == Scale(q as real, 9 - f.mant)
  {
    hide RoundCode, Magnitude, FiniteCodes, Scale, RoundHalfEven;
    PowerTable();
    InBinade(x, f, 9, q);
  }

  /** A test on the word an element is stored as: whether it is an f16 tie in the top binade, and
      the element itself lies strictly beyond it, away from the even neighbour it will go to. */
  predicate DoublyRounded(a: real)
    requires a >= 0.0
  {
    var y := Stored(a);
    var half := y * 2.0;
    512.0 <= y < 1024.0 && half - half.Floor as real == 0.5 && if half.Floor % 2 == 0 then a > y else a < y
  }

  /** What an element moves by is what its magnitude moves by. */
  lemma ElementDistance(x: real)
    requires Abs(x) <= 1024.0
    ensures Wide(F16) && Wide(F32) && RoundCode(Abs(x), F32) < FiniteCodes(F32) && HalfMag(Abs(x)) < FiniteCodes(F16)
    ensures Stored(Abs(x)) <= 1024.0
    ensures Dist(x, Element(x, P16)) == Dist(Abs(x), Magnitude(HalfMag(Abs(x)), F16))
  {
    hide Element, RoundCode, Magnitude, FiniteCodes, HalfMag, Stored, HalfCode, F16ToF32;
    WordLimits();
    ElementValue(x, P16);
    HalfElement(x, P16);
  }

  /** Both roundings of the top binade, in units of an f32 step: `n` steps stored, `q` half steps
      of f16 kept. */
  lemma TopBinade(a: real)
    requires 0.0 <= a && 512.0 < Stored(a) < 1024.0 && a <= 1024.0
    requires Wide(F16) && Wide(F32) && RoundCode(a, F32) < FiniteCodes(F32) && HalfMag(a) < FiniteCodes(F16)
    ensures 512.0 <= a < 1024.0
    ensures Stored(a) == RoundHalfEven(a * 16384.0) as real / 16384.0
    ensures Magnitude(HalfMag(a), F16) == RoundHalfEven(Stored(a) * 2.0) as real / 2.0
  {
    hide RoundCode, Magnitude, FiniteCodes, RoundHalfEven;
    Constants();
    TopExps();
    PowerTable();
    var low := GridCode(512, 0, F32);
    ScaleZero(512.0);
    if a < 512.0 { RoundCap(a, low, F32); }
    StoredTop(a);
    FourteenUp(a);
    NinthBinade(a, F32, RoundHalfEven(a * 16384.0));
    FourteenDown(RoundHalfEven(a * 16384.0) as real);
    NinthBinade(Stored(a), F16, RoundHalfEven(Stored(a) * 2.0));
  }

  lemma StoredTop(a: real)
    requires 0.0 <= a <= 1024.0 && Stored(a) < 1024.0
    ensures a < 1024.0
  {
    hide RoundCode, Magnitude, FiniteCodes;
    var m32, m16 := TargetInWide(P16);
    WordLimits();
    RoundCodeExact(m32, F32);
  }

  /** The arithmetic of rounding twice: `a` to `n`, then to a multiple of 8192, ties to even. */
  lemma TwiceRounded(a: real, n: int, q: int)
    requires n == RoundHalfEven(a) && q == RoundHalfEven(n as real / 8192.0)
    ensures var half := n as real / 8192.0;
            Dist(a, 8192.0 * q as real) > 4096.0 <==>
              half - half.Floor as real == 0.5 && if half.Floor % 2 == 0 then a > n as real else a < n as real
  {
    var half := n as real / 8192.0;
    var f := half.Floor;
    var r := n - 8192 * f;
    assert half - f as real == r as real / 8192.0;
    assert 0 <= r < 8192;
    assert -0.5 <= a - n as real <= 0.5;
  }

  /** Below the top binade, at its power of two, and at the target, two half steps fit. */
  lemma FarFromTies(a: real)
    requires 0.0 <= a <= 1024.0 && !(512.0 < Stored(a) < 1024.0) && Stored(a) <= 1024.0
    requires Wide(F16) && Wide(F32) && RoundCode(a, F32) < FiniteCodes(F32) && HalfMag(a) < FiniteCodes(F16)
    ensures Dist(a, Magnitude(HalfMag(a), F16)) <= 0.25
  {
    hide RoundCode, Magnitude, FiniteCodes, HalfStep, Scale;
    Constants();
    TopExps();
    PowerTable();
    TinySteps();
    TenthPower();
    ScaleStep(1.0, 10);
    StoredStep(a);
    ExpBelow(a, 10, F32);
    if Stored(a) < 512.0 {
      ExpBelow(Stored(a), 8, F16);
      HalfStepIs(Stored(a));
    } else {
      ScaleZero(512.0);
      ScaleZero(1024.0);
      var m := GridCode(if Stored(a) == 512.0 then 512 else 1024, 0, F16);
      RoundCodeExact(m, F16);
    }
  }

  lemma StoredStep(a: real)
    requires Wide(F32) && a >= 0.0 && RoundCode(a, F32) < FiniteCodes(F32)
    ensures Dist(a, Stored(a)) <= HalfStep(a, F32)
  {
    hide RoundCode, Magnitude, FiniteCodes, Scale;
    RoundCodeValue(a, F32);
  }

  lemma TinySteps()
    ensures Scale(0.5, -13) <= 0.125 && Scale(0.5, -2) == 0.125 && Scale(0.5, -1) == 0.25
  {
    ScaleMonoExp(0.5, -13, -2);
  }

  /** Exactly when rounding to f32 first makes an f16 element move by more than the 2^-2 that one
      rounding allows. */
  lemma MovesMoreIff(x: real)
    requires Abs(x) <= 1024.0
    ensures Dist(x, Element(x, P16)) > 0.25 <==> DoublyRounded(Abs(x))
  {
    hide Element, RoundCode, Magnitude, FiniteCodes, HalfMag, Stored, RoundHalfEven, Scale;
    var a := Abs(x);
    ElementDistance(x);
    if 512.0 < Stored(a) < 1024.0 {
      TopBinade(a);
      var n := RoundHalfEven(a * 16384.0);
      var q := RoundHalfEven(Stored(a) * 2.0);
      assert Stored(a) * 2.0 == n as real / 8192.0;
      TwiceRounded(a * 16384.0, n, q);
    } else {
      FarFromTies(a);
    }
  }

  /** The values of f32. */
  ghost predicate F32Values(v: seq<real>) {
    forall i :: 0 <= i < |v| ==> exists m: nat :: m < FiniteCodes(F32) && Abs(v[i]) == Magnitude(m, F32)
  }

  lemma FourteenUp(x: real)
    ensures Scale(x, 14) == x * 16384.0
  {
    TwoToThe14();
    ScaleFactor(x, 14);
  }

  lemma FourteenDown(x: real)
    ensures Scale(x, -14) == x / 16384.0
  {
    FourteenUp(Scale(x, -14));
    ScaleCompose(x, -14, 14);
    ScaleZero(x);
  }

  lemma TwoToThe14()
    ensures Scale(1.0, 14) == 16384.0
  {
    assert Scale(1.0, 7) == 128.0;
  }

  lemma {:induction false} ScaleFactor(x: real, k: nat)
    ensures Scale(x, k) == x * Scale(1.0, k)
  {
    if k > 0 {
      ScaleFactor(x, k - 1);
      assert x * (2.0 * Scale(1.0, k - 1)) == 2.0 * (x * Scale(1.0, k - 1));
    }
  }

  lemma TenthPower()
    ensures Scale(1.0, 10) == 1024.0 && MinExp(F32) <= 9 && MinExp(F16) <= 9 && F32.mant == 23 && F16.mant == 10
  {
    Constants();
    ScaleInt(1, 10);
  }

  lemma StoredTargetExact(x: real)
    requires Abs(x) <= 1024.0 && Stored(Abs(x)) == 1024.0
    ensures Magnitude(HalfMag(Abs(x)), F16) == 1024.0
  {
    hide RoundCode, Magnitude, FiniteCodes, Stored;
    var m32, m16 := TargetInWide(P16);
    WordLimits();
    RoundCodeExact(m16, F16);
  }

  /** The powers of two around binade `e`, in units of half an f32 step. */
  lemma BinadeUnits(e: int) returns (u: real)
    ensures u > 0.0 && Scale(0.5, e - 23) == u && Scale(0.5, e - 10) == 8192.0 * u
    ensures Scale(1.0, e) == 16777216.0 * u && Scale(8193.0, e - 13) == 16777216.0 * u + 2048.0 * u
    ensures Scale(1024.0, e - 10) == Scale(1.0, e) && Scale(1.0, e + 1) == 2.0 * Scale(1.0, e) == Scale(1024.0, e - 9)
  {
    hide Scale;
    u := Scale(0.5, e - 23);
    ScaleSign(0.5, e - 23);
    ScaleDouble(0.5, e - 23);
    ScaleStep(0.5, e - 23);
    ScaleStep(1.0, e);
    UnitsUp(0.5, e - 23, 13);
    UnitsUp(1.0, e - 23, 10);
    UnitsUp(1.0, e - 13, 13);
    UnitsUp(1.0, e - 10, 10);
    UnitsUp(1.0, e - 9, 10);
    PowerTable();
    ScaleLinear(1024.0, e - 10);
    ScaleLinear(1024.0, e - 9);
    ScaleLinear(8193.0, e - 13);
  }

  lemma UnitsUp(x: real, k: int, n: nat)
    ensures Scale(x, k + n) == Scale(x, k) * Scale(1.0, n)
  {
    hide Scale;
    ScaleCompose(x, k, n);
    ScaleFactor(Scale(x, k), n);
  }

  lemma PowerTable()
    ensures Scale(1.0, 9) == 512.0 && Scale(1.0, 10) == 1024.0 && Scale(1.0, 11) == 2048.0 && Scale(1.0, 13) == 8192.0
  {
    assert Scale(1.0, 7) == 128.0;
  }

  lemma ScaleLinear(x: real, k: int)
    ensures Scale(x, k) == x * Scale(1.0, k)
  {
    ScaleTimes(1.0, x, k);
  }

  /** Just above a power of two the stored value is as close to it as an f16 value needs to be. */
  lemma NearPower(a: real, e: int, u: real)
    requires -14 <= e <= 10 && u > 0.0 && Scale(1.0, e) == 16777216.0 * u &&
             Scale(8193.0, e - 13) == 16777216.0 * u + 2048.0 * u
    requires Scale(1024.0, e - 10) == Scale(1.0, e) && Scale(1.0, e) <= a <= Scale(8193.0, e - 13)
    requires Wide(F32) && Wide(F16) && RoundCode(a, F32) < FiniteCodes(F32) && HalfMag(a) < FiniteCodes(F16)
    ensures Dist(Stored(a), Magnitude(HalfMag(a), F16)) <= 2048.0 * u
  {
    hide Scale, RoundCode, Magnitude, FiniteCodes;
    Constants();
    TopExps();
    var lo := GridCode(1024, e - 10, F32);
    var hi := GridCode(8193, e - 13, F32);
    var power := GridCode(1024, e - 10, F16);
    RoundCap(a, hi, F32);
    RoundCodeExact(lo, F32);
    RoundCodeMono(Magnitude(lo, F32), a, F32);
    MagnitudeOrder(RoundCode(a, F32), lo, F32);
    RoundCodeNearest(Stored(a), F16, power);
  }

  /** Anywhere in binade `e` the second rounding moves by at most half an f16 step of it. */
  lemma WithinBinade(a: real, e: int)
    requires -14 <= e <= 9 && Scale(1.0, e) <= a < Scale(1.0, e + 1) && Scale(1.0, e + 1) == Scale(1024.0, e - 9)
    requires Wide(F32) && Wide(F16) && RoundCode(a, F32) < FiniteCodes(F32) && HalfMag(a) < FiniteCodes(F16)
    ensures Dist(Stored(a), Magnitude(HalfMag(a), F16)) <= Scale(0.5, e - 10)
  {
    hide Scale, RoundCode, Magnitude, FiniteCodes, HalfStep;
    Constants();
    TopExps();
    ScaleSign(0.5, e - 10);
    ScaleSign(1.0, e);
    var top := GridCode(1024, e - 9, F32);
    RoundCap(a, top, F32);
    if Stored(a) < Scale(1.0, e + 1) {
      ExpBelow(Stored(a), e, F16);
      HalfStepIs(Stored(a));
    } else {
      var next := GridCode(1024, e - 9, F16);
      RoundCodeExact(next, F16);
    }
  }

  lemma HalfStepIs(y: real)
    requires Wide(F16) && y >= 0.0 && RoundCode(y, F16) < FiniteCodes(F16)
    ensures Dist(y, Magnitude(RoundCode(y, F16), F16)) <= HalfStep(y, F16)
  {
    hide RoundCode, Magnitude, FiniteCodes, Scale;
    RoundCodeValue(y, F16);
  }

  /** For elements of at least 2^-14 after scaling, relative error is at most 2^-11, the store to
      f32 included: near a power of two the f16 value below is close enough, and further up half a
      step of each kind is a smaller share. */
  lemma HalfRelativeError(x: real)
    requires Scale(1.0, -14) <= Abs(x) <= 1024.0
    ensures Dist(x, Element(x, P16)) <= Scale(Abs(x), -11)
  {
    hide Element, RoundCode, Magnitude, FiniteCodes, HalfMag, Stored, HalfValue, Scale, Wide, HalfCode, F16ToF32, Shl,
         MaxExp, HalfStep;
    var a := Abs(x);
    WordLimits();
    ElementValue(x, P16);
    HalfError(x, P16);
    HalfElement(x, P16);
    PowerTable();
    var e := BinadeOf(a);
    var u := BinadeUnits(e);
    if a <= Scale(8193.0, e - 13) {
      NearPower(a, e, u);
    } else {
      WithinBinade(a, e);
    }
    UnitsUp(a, -11, 11);
    ScaleZero(a);
  }

  /** The binade of a scaled magnitude, and half its f32 step. */
  lemma BinadeOf(a: real) returns (e: int)
    requires Scale(1.0, -14) <= a <= 1024.0 && Wide(F32)
    ensures -14 <= e <= 10 && Scale(1.0, e) <= a < Scale(1.0, e + 1) && HalfStep(a, F32) == Scale(0.5, e - 23)
    ensures e == 10 ==> a == 1024.0
  {
    hide Scale;
    Constants();
    TopExps();
    PowerTable();
    e := ExpOf(a, F32);
    if e < -14 { ScaleMonoExp(1.0, e + 1, -14); }
    if e > 10 { ScaleMonoExp(1.0, 11, e); }
  }

  /** The same bound on a vector: an element moves by at most maxAbs * (2^-12 + 2^-25). */
  lemma HalfVectorError(v: seq<real>, i: nat)
    requires i < |v|
    ensures Times(1024.0, Dist(v[i], OnWire(v, P16)[i])) <= Times(MaxAbs(v), Scale(0.5, -1) + Scale(0.5, -14))
  {
    hide OnWire, MaxAbs, Element, ScaleOf, Scale, Times, Over;
    var s, m, w := ScaleOf(v, P16), MaxAbs(v), OnWire(v, P16)[i];
    var x := Times(v[i], s);
    OnWireAt(v, P16, i);
    ScaledBound(v, P16, i);
    HalfUniformError(x);
    ElementKeepsBound(v, P16, i);
    TimesLaws(v[i], 0.0, s);
    if m > 0.0 {
      ScaledDistance(v[i], w, s, m, Scale(0.5, -1) + Scale(0.5, -14));
    } else {
      ZeroDistance(v[i], w, Scale(0.5, -1) + Scale(0.5, -14));
    }
  }

  lemma ZeroDistance(v: real, w: real, bound: real)
    requires v == 0.0 && w == 0.0
    ensures Times(1024.0, Dist(v, w)) <= Times(0.0, bound)
  {}

  lemma ScaledDistance(v: real, w: real, s: real, m: real, bound: real)
    requires s > 0.0 && m > 0.0 && Times(m, s) == 1024.0
    requires Dist(Times(v, s), Times(w, s)) <= bound
    ensures Times(1024.0, Dist(v, w)) <= Times(m, bound)
  {
    TimesLaws(v - w, 0.0, s);
    assert (v - w) * s == v * s - w * s;
    var d := Dist(v, w);
    assert Times(d, s) <= bound;
    assert m * Times(d, s) <= m * bound;
    assert m * (d * s) == (m * s) * d;
  }

  /** Every bound on a scaled element is a bound on the vector's own: nothing saturates, and the
      distance an element moves, scaled, is the distance its scaled image moves. */
  lemma VectorElementError(v: seq<real>, p: Precision, i: nat)
    requires Reduced(p) && i < |v|
    ensures var s, x := ScaleOf(v, p), Times(v[i], ScaleOf(v, p));
            && Abs(x) <= Target(p) && Abs(Element(x, p)) <= Target(p)
            && Times(Dist(v[i], OnWire(v, p)[i]), s) == Dist(x, Element(x, p))
    ensures Wide(F32) && Wide(F16) && Wide(Reserved(FormatOf(p)))
    ensures var s, x := ScaleOf(v, p), Times(v[i], ScaleOf(v, p));
            Times(Dist(v[i], OnWire(v, p)[i]), s) <= Dist(Abs(x), Stored(Abs(x))) + StepsAllowed(x, p)
  {
    hide OnWire, MaxAbs, Element, ScaleOf, Times, Over, Stored, StepsAllowed, Wide;
    var s, w := ScaleOf(v, p), OnWire(v, p)[i];
    OnWireAt(v, p, i);
    ScaledBound(v, p, i);
    ElementBounded(Times(v[i], s), p);
    ElementError(Times(v[i], s), p);
    DistScales(v[i], w, s);
  }

  /** In the 8-bit formats, exactly when an element of a vector moves by more than the two half
      steps, divided by the scale. */
  lemma ByteVectorErrorIff(v: seq<real>, p: Precision, i: nat)
    requires (p == P8E4M3 || p == P8E5M2) && i < |v|
    ensures Searchable(FormatOf(p)) && Wide(F16) && Wide(Reserved(FormatOf(p)))
    ensures var s, x := ScaleOf(v, p), Times(v[i], ScaleOf(v, p));
            Times(Dist(v[i], OnWire(v, p)[i]), s) > StepsAllowed(x, p) <==> PushedTwice(x, p)
  {
    hide OnWire, MaxAbs, Element, ScaleOf, Times, Over, PushedTwice, StepsAllowed, Searchable, Wide;
    VectorElementError(v, p, i);
    ByteMovesMoreIff(Times(v[i], ScaleOf(v, p)), p);
  }

  /** f32 vectors meet it: of [9343, 6621] in E4M3 the second is scaled to just above 136.0625, which
      f16 takes down to 136 and E4M3 down to 128. */
  lemma FloatsPushedTwice()
    ensures var v, p := [9343.0, 6621.0], P8E4M3;
            && F32Values(v) && MaxAbs(v) == 9343.0 && Searchable(E4M3) && Wide(F16) && Wide(Reserved(E4M3))
            && OnWire(v, p)[1] == 128.0 * (9343.0 / 192.0)
            && Times(Dist(v[1], OnWire(v, p)[1]), ScaleOf(v, p)) > StepsAllowed(Times(v[1], ScaleOf(v, p)), p)
            && PushedTwice(Times(v[1], ScaleOf(v, p)), p)
  {
    hide OnWire, Element, RoundCode, Magnitude, FiniteCodes, Scale, Wide, HalfCode, F16ToF32, Stored, HalfMag,
         HalfStep, ByteValue, StepsAllowed, PushedTwice, Searchable;
    var v, p := [9343.0, 6621.0], P8E4M3;
    PairOfIntegers();
    PairLargest();
    var s := ScaleOf(v, p);
    assert s == 192.0 / 9343.0;
    var x := Times(v[1], s);
    assert x == 1271232.0 / 9343.0;
    OnWireAt(v, p, 1);
    HalfElement(x, p);
    ElementValue(x, p);
    WordLimits();
    ByteIs(x, p);
    SeventhRoundings(x);
    To128();
    StepsAt136();
    assert Over(1.0, s) == 9343.0 / 192.0;
    ByteVectorErrorIff(v, p, 1);
    assert Dist(x, 128.0) > 8.0625;
    ElementScaled(v, p, 1);
    SumOfSteps(x);
  }

  /** What is allowed there: half an f16 step of 2^-3, and half an E4M3 step of 16. */
  lemma SumOfSteps(x: real)
    requires Wide(F16) && Wide(Reserved(E4M3)) && Stored(Abs(x)) == 136.0625 && Abs(HalfValue(x)) == 136.0
    requires HalfStep(136.0625, F16) == 0.0625 && HalfStep(136.0, Reserved(E4M3)) == 8.0
    ensures StepsAllowed(x, P8E4M3) == 8.0625
  {
    hide HalfStep, Stored, HalfValue;
  }

  lemma ElementScaled(v: seq<real>, p: Precision, i: nat)
    requires Reduced(p) && i < |v|
    ensures Times(Dist(v[i], OnWire(v, p)[i]), ScaleOf(v, p)) ==
            Dist(Times(v[i], ScaleOf(v, p)), Element(Times(v[i], ScaleOf(v, p)), p))
  {
    hide OnWire, Element, ScaleOf, Times, Stored, StepsAllowed, Wide;
    VectorElementError(v, p, i);
  }

  lemma PairOfIntegers()
    ensures F32Values([9343.0, 6621.0])
  {
    hide Scale, Magnitude, FiniteCodes;
    WordLimits();
    Constants();
    TopExps();
    var m := GridCode(9343, 0, F32);
    var n := GridCode(6621, 0, F32);
    ScaleZero(9343.0);
    ScaleZero(6621.0);
  }

  lemma PairLargest()
    ensures MaxAbs([9343.0, 6621.0]) == 9343.0
  {
    assert [9343.0, 6621.0][..1] == [9343.0];
    assert [9343.0, 6621.0][1..] == [6621.0];
  }

  lemma SeventhRoundings(x: real)
    requires x == 1271232.0 / 9343.0 && Wide(F32) && Wide(F16)
    requires RoundCode(x, F32) < FiniteCodes(F32) && HalfMag(x) < FiniteCodes(F16)
    ensures Stored(x) == 136.0625 && Magnitude(HalfMag(x), F16) == 136.0 && x > 136.0625
  {
    hide RoundCode, Magnitude, FiniteCodes, Scale;
    assert (x * 65536.0).Floor == 8916992;
    SixteenShift(x);
    SeventhPowers();
    InBinade(x, F32, 7, 8916992);
    ScaleCompose(136.0625, 16, -16);
    ScaleZero(136.0625);
    SixteenShift(136.0625);
    assert Scale(136.0625, 3) == 1088.5 by { UnitsUp(136.0625, 0, 3); ScaleZero(136.0625); Eight(); }
    assert 1088.5.Floor == 1088;
    InBinade(136.0625, F16, 7, 1088);
    ScaleCompose(136.0, 3, -3);
    ScaleZero(136.0);
    assert Scale(136.0, 3) == 1088.0 by { UnitsUp(136.0, 0, 3); Eight(); ScaleZero(136.0); }
  }

  lemma SeventhPowers()
    ensures Scale(1.0, 7) == 128.0 && Scale(1.0, 8) == 256.0 && Scale(1.0, 16) == 65536.0
  {
    ScaleCompose(1.0, 8, 8);
    UnitsUp(1.0, 8, 8);
  }

  lemma SixteenShift(x: real)
    ensures Scale(x, 16) == x * 65536.0
  {
    hide Scale;
    SeventhPowers();
    ScaleFactor(x, 16);
  }

  /** 136 is midway between 128 and 144, and 128 has the even code. */
  lemma To128()
    ensures Searchable(E4M3) && ByteValue(136.0, P8E4M3) == 128.0
  {
    hide Magnitude, EncodeReal, DecodeMini, FiniteCodes, Searchable;
    FormatFacts();
    ReservedFacts();
    Neighbours();
    DecodeIsMagnitude(112, E4M3);
    DecodeIsMagnitude(113, E4M3);
    EncodeNearest(136.0, 112, E4M3);
    var code := EncodeReal(136.0, E4M3);
    DecodeIsMagnitude(code, E4M3);
    var m := if code >= 128 then code - 128 else code;
    MagnitudeOrder(112, m, E4M3);
    MagnitudeOrder(m, 113, E4M3);
    MagnitudeOrder(m, 112, E4M3);
    MagnitudeOrder(113, m, E4M3);
    MagnitudeSign(m, E4M3);
    if code == 113 { EncodeTiesToEven(136.0, 112, E4M3); }
  }

  lemma Neighbours()
    ensures Magnitude(112, E4M3) == 128.0 && Magnitude(113, E4M3) == 144.0
  {
    hide Scale;
    FormatFacts();
    assert Shl(14, 3) == 112;
    Unpacked(14, 0, 3);
    Unpacked(14, 1, 3);
    assert Magnitude(112, E4M3) == Scale(8.0, 4);
    assert Magnitude(113, E4M3) == Scale(9.0, 4);
    FourUp();
  }

  lemma FourUp()
    ensures Scale(8.0, 4) == 128.0 && Scale(9.0, 4) == 144.0
  {}

  lemma StepsAt136()
    ensures Wide(F16) && Wide(Reserved(E4M3)) && HalfStep(136.0625, F16) == 0.0625 &&
            HalfStep(136.0, Reserved(E4M3)) == 8.0
  {
    hide Scale;
    Constants();
    TopExps();
    ByteExps(P8E4M3);
    SeventhPowers();
    ExpAtLeast(136.0625, 7, F16);
    ExpBelow(136.0625, 7, F16);
    ExpAtLeast(136.0, 7, Reserved(E4M3));
    ExpBelow(136.0, 7, Reserved(E4M3));
    SmallHalves();
  }

  lemma SmallHalves()
    ensures Scale(0.5, -3) == 0.0625 && Scale(0.5, 4) == 8.0
  {}

  lemma DistScales(v: real, w: real, s: real)
    requires s > 0.0
    ensures Times(Dist(v, w), s) == Dist(Times(v, s), Times(w, s))
  {
    TimesLaws(v - w, 0.0, s);
    assert (v - w) * s == v * s - w * s;
  }

  lemma {:induction false} ScaleTimes(x: real, s: real, k: int)
    ensures Scale(Times(x, s), k) == Times(Scale(x, k), s)
    decreases if k < 0 then -k else k
  {
    if k > 0 {
      ScaleTimes(x, s, k - 1);
      assert Times(2.0 * Scale(x, k - 1), s) == 2.0 * Times(Scale(x, k - 1), s);
    } else if k < 0 {
      ScaleTimes(x, s, k + 1);
      assert Times(Scale(x, k + 1) / 2.0, s) == Times(Scale(x, k + 1), s) / 2.0;
    }
  }

  /** Exactly when an element of a vector moves by more than maxAbs * 2^-12: when its scaled image
      is doubly rounded. */
  lemma HalfVectorErrorIff(v: seq<real>, i: nat)
    requires i < |v| && MaxAbs(v) > 0.0
    ensures Abs(Times(v[i], ScaleOf(v, P16))) <= 1024.0
    ensures Dist(v[i], OnWire(v, P16)[i]) > Scale(MaxAbs(v), -12) <==> DoublyRounded(Abs(Times(v[i], ScaleOf(v, P16))))
  {
    hide OnWire, MaxAbs, Element, ScaleOf, Scale, Times, Over, DoublyRounded;
    var s, m := ScaleOf(v, P16), MaxAbs(v);
    VectorElementError(v, P16, i);
    MovesMoreIff(Times(v[i], s));
    ScaledBound(v, P16, i);
    TimesLaws(Scale(m, -12), Dist(v[i], OnWire(v, P16)[i]), s);
    ScaleTimes(m, s, -12);
    QuarterOfTarget();
  }

  lemma QuarterOfTarget()
    ensures Scale(1024.0, -12) == 0.25
  {
    hide Scale;
    ScaleCompose(1.0, 10, -12);
    TenthPower();
    TinySteps();
    ScaleDouble(0.5, -2);
    ScaleStep(0.5, -2);
  }

  /** And f32 vectors do meet it: of [10239, 5122] the second comes back as 5119.5, which is further
      than 10239 * 2^-12. */
  lemma FloatsDoublyRounded()
    ensures var v := [10239.0, 5122.0];
            && F32Values(v) && MaxAbs(v) == 10239.0 && OnWire(v, P16)[1] == 5119.5
            && Dist(v[1], OnWire(v, P16)[1]) > Scale(MaxAbs(v), -12)
  {
    hide OnWire, Element, RoundCode, Magnitude, FiniteCodes, Scale, Wide, HalfCode, F16ToF32, Stored, HalfMag;
    var v := [10239.0, 5122.0];
    TwoIntegers();
    TwoLargest();
    var s := ScaleOf(v, P16);
    assert s == 1024.0 / 10239.0;
    var x := Times(v[1], s);
    assert x == 5244928.0 / 10239.0;
    OnWireAt(v, P16, 1);
    ElementDistance(x);
    ElementValue(x, P16);
    FirstRounding(x);
    SecondRounding(x);
    assert Element(x, P16) == 512.0;
    assert Over(1.0, s) == 10239.0 / 1024.0;
    assert 512.0 * (10239.0 / 1024.0) == 5119.5;
    HalfVectorErrorIff(v, 1);
  }

  lemma TwoLargest()
    ensures MaxAbs([10239.0, 5122.0]) == 10239.0
  {
    assert [10239.0, 5122.0][..1] == [10239.0];
    assert [10239.0, 5122.0][1..] == [5122.0];
  }

  lemma TwoIntegers()
    ensures F32Values([10239.0, 5122.0])
  {
    hide Scale, Magnitude, FiniteCodes;
    WordLimits();
    Constants();
    TopExps();
    var m := GridCode(10239, 0, F32);
    var n := GridCode(5122, 0, F32);
    ScaleZero(10239.0);
    ScaleZero(5122.0);
  }

  lemma FirstRounding(x: real)
    requires x == 5244928.0 / 10239.0
    requires Wide(F32) && RoundCode(x, F32) < FiniteCodes(F32)
    ensures Stored(x) == 512.25 && x > 512.25
  {
    hide RoundCode, Magnitude, FiniteCodes, Scale;
    assert (x * 16384.0).Floor == 8392704;
    FourteenUp(x);
    NinthBinade(x, F32, 8392704);
    FourteenDown(8392704.0);
  }

  lemma SecondRounding(x: real)
    requires x >= 0.0 && Stored(x) == 512.25 && Wide(F16) && HalfMag(x) < FiniteCodes(F16)
    ensures Magnitude(HalfMag(x), F16) == 512.0
  {
    hide RoundCode, Magnitude, FiniteCodes, Stored;
    assert Scale(512.25, 1) == 1024.5;
    assert 1024.5.Floor == 1024;
    NinthBinade(512.25, F16, 1024);
    assert Scale(1024.0, -1) == 512.0;
  }

  /** In f16 an element of at least maxAbs * 2^-24 keeps its relative size to 2^-11. */
  lemma HalfVectorRelative(v: seq<real>, i: nat)
    requires i < |v| && MaxAbs(v) > 0.0 && Scale(MaxAbs(v), -24) <= Abs(v[i])
    ensures Dist(v[i], OnWire(v, P16)[i]) <= Scale(Abs(v[i]), -11)
  {
    hide OnWire, MaxAbs, Element, ScaleOf, Scale, Times, Over;
    var s, m, a := ScaleOf(v, P16), MaxAbs(v), Abs(v[i]);
    var x, d := Times(v[i], s), Dist(v[i], OnWire(v, P16)[i]);
    VectorElementError(v, P16, i);
    ScaledBound(v, P16, i);
    TimesLaws(v[i], 0.0, s);
    TimesLaws(Scale(m, -24), a, s);
    ScaleTimes(m, s, -24);
    Thousandth();
    HalfRelativeError(x);
    ScaleTimes(a, s, -11);
    TimesLaws(Scale(a, -11), d, s);
  }

  lemma Thousandth()
    ensures Scale(1024.0, -24) == Scale(1.0, -14)
  {
    hide Scale;
    ScaleCompose(1.0, 10, -24);
    TenthPower();
  }

  // ── the loops of the source ───────────────────────────────────────────────

  lemma WordRange(x: real)
    ensures StoreWord(FromReal(x)) < 0x1_0000_0000 && HalfCode(x) < 0x1_0000
  {
    hide RoundCode, DecodeMini, Scale, Shl;
    WordLimits();
  }

  method LargestMagnitude(values: array<real>) returns (maxAbs: real)
    ensures maxAbs == MaxAbs(values[..])
  {
    maxAbs := 0.0;
    var i := 0;
    while i < values.Length
      invariant 0 <= i <= values.Length && maxAbs == MaxAbs(values[..i])
    {
      assert values[..i + 1][..i] == values[..i];
      if Abs(values[i]) > maxAbs { maxAbs := Abs(values[i]); }
      i := i + 1;
    }
    assert values[..i] == values[..];
  }

  /** Find the scale, then convert element by element, the 8-bit formats through the bridge. */
  method QuantizeVector(values: array<real>, p: Precision) returns (scale: real, out: array<nat>)
    requires Reduced(p)
    ensures fresh(out) && scale == ScaleOf(values[..], p) && out[..] == Codes(values[..], p)
  {
    hide WireCode, Times, Over, HalfOf, StoreWord, MaxAbs, Searchable, FromReal, Bridge;
    FormatFacts();
    var maxAbs := LargestMagnitude(values);
    if maxAbs > 0.0 { OverLaw(Target(p), maxAbs); }
    scale := if maxAbs > 0.0 then Over(Target(p), maxAbs) else 1.0;
    out := new nat[values.Length];
    var via: array<nat> := new nat[0];
    if p != P16 { via := BuildBridge(FormatOf(p)); }
    var i := 0;
    while i < values.Length
      invariant 0 <= i <= values.Length
      invariant forall j :: 0 <= j < i ==> out[j] == WireCode(Times(values[j], scale), p)
      modifies out
    {
      WordRange(Times(values[i], scale));
      var half := F32ToF16(StoreWord(FromReal(Times(values[i], scale))));
      WireCodeByPath(Times(values[i], scale), p);
      out[i] := if p == P16 then half else via[half];
      i := i + 1;
    }
  }

  lemma WireCodeByPath(x: real, p: Precision)
    requires Reduced(p)
    ensures p == P16 ==> WireCode(x, p) == HalfCode(x)
    ensures p != P16 ==> Searchable(FormatOf(p)) && WireCode(x, p) == Bridge(HalfCode(x), FormatOf(p))
  {
    FormatFacts();
  }

  /** Decode element by element and undo the scale. */
  method DequantizeVector(payload: array<nat>, scale: real, p: Precision) returns (out: array<real>)
    requires Reduced(p) && scale != 0.0
    ensures fresh(out) && out[..] == Values(payload[..], scale, p)
  {
    hide Times, Over, CodeValue;
    out := new real[payload.Length];
    var inv := Over(1.0, scale);
    var i := 0;
    while i < payload.Length
      invariant 0 <= i <= payload.Length
      invariant forall j :: 0 <= j < i ==> out[j] == Times(CodeValue(payload[j], FormatOf(p)), inv)
    {
      out[i] := Times(CodeValue(payload[i], FormatOf(p)), inv);
      i := i + 1;
    }
  }
}
