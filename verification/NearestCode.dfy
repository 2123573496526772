/** The 8-bit formats: the sorted value table, nearest-code search over it, and the 65,536-entry
    bridge from f16 codes. */
module NearestCode {
  import opened Bits
  import opened MiniFloat
  import opened HalfPrecision

  predicate Searchable(f: Format) {
    f.exp >= 1 && f.mant >= 1 && FiniteCodes(f) >= 2 && FiniteCodes(f) < SignBit(f)
  }

  /** Real value of a finite code. */
  function CodeValue(code: nat, f: Format): real {
    var v := DecodeMini(code, f);
    if v.Fin? then Real(v) else 0.0
  }

  predicate FiniteCode(code: nat, f: Format) {
    code < 2 * SignBit(f) && DecodeMini(code, f).Fin?
  }

  /** The order a stable sort by value puts codes in when they start in code order. */
  predicate Before(c: nat, d: nat, f: Format) {
    CodeValue(c, f) < CodeValue(d, f) || (CodeValue(c, f) == CodeValue(d, f) && c < d)
  }

  ghost predicate Ordered(codes: seq<nat>, f: Format) {
    forall i, j :: 0 <= i < j < |codes| ==> Before(codes[i], codes[j], f)
  }

  // ── the table, in closed form ─────────────────────────────────────────────

  function TableSize(f: Format): nat {
    2 * FiniteCodes(f)
  }

  /** The i-th code: negative magnitudes falling, the two zeros, positive magnitudes rising. */
  function TableCode(i: nat, f: Format): nat
    requires i < TableSize(f)
  {
    var n := FiniteCodes(f);
    if i + 1 < n then SignBit(f) + (n - 1 - i)
    else if i + 1 == n then 0
    else if i == n then SignBit(f)
    else i - n
  }

  function TableValue(i: nat, f: Format): real
    requires i < TableSize(f)
  {
    var n := FiniteCodes(f);
    if i < n then -Magnitude(n - 1 - i, f) else Magnitude(i - n, f)
  }

  lemma TableEntry(i: nat, f: Format)
    requires Searchable(f) && i < TableSize(f)
    ensures FiniteCode(TableCode(i, f), f) && CodeValue(TableCode(i, f), f) == TableValue(i, f)
  {
    DecodeIsMagnitude(TableCode(i, f), f);
    MagnitudeSign(0, f);
  }

  /** The table's position of a finite code. */
  function IndexOf(code: nat, f: Format): nat
    requires Searchable(f) && FiniteCode(code, f)
    ensures IndexOf(code, f) < TableSize(f) && TableCode(IndexOf(code, f), f) == code
  {
    DecodeIsMagnitude(code, f);
    var n := FiniteCodes(f);
    if code > SignBit(f) then n - 1 - (code - SignBit(f))
    else if code == SignBit(f) then n
    else if code == 0 then n - 1
    else n + code
  }

  lemma TableOrder(i: nat, j: nat, f: Format)
    requires Searchable(f) && i < j < TableSize(f)
    ensures TableValue(i, f) <= TableValue(j, f)
    ensures TableValue(i, f) == TableValue(j, f) <==> i + 1 == FiniteCodes(f) == j
    ensures Before(TableCode(i, f), TableCode(j, f), f)
  {
    var n := FiniteCodes(f);
    TableEntry(i, f);
    TableEntry(j, f);
    MagnitudeSign(if i < n then n - 1 - i else i - n, f);
    MagnitudeSign(if j < n then n - 1 - j else j - n, f);
    if j < n {
      MagnitudeOrder(n - 1 - j, n - 1 - i, f);
    } else if n <= i {
      MagnitudeOrder(i - n, j - n, f);
    }
  }

  function TableCodes(f: Format): (codes: seq<nat>) {
    seq(TableSize(f), i requires 0 <= i < TableSize(f) => TableCode(i, f))
  }

  function TableValues(f: Format): (values: seq<real>) {
    seq(TableSize(f), i requires 0 <= i < TableSize(f) => TableValue(i, f))
  }

  /** The closed form is the stable sort of the finite codes, and the only one. */
  lemma TableIsTheSort(codes: seq<nat>, f: Format)
    requires Searchable(f) && Ordered(codes, f)
    requires forall c :: c in codes <==> FiniteCode(c, f)
    ensures codes == TableCodes(f)
  {
    var t := TableCodes(f);
    assert Ordered(t, f) by {
      forall i, j | 0 <= i < j < |t| ensures Before(t[i], t[j], f) { TableOrder(i, j, f); }
    }
    forall c ensures c in t <==> FiniteCode(c, f) {
      if FiniteCode(c, f) { assert t[IndexOf(c, f)] == c; }
      if c in t {
        var i :| 0 <= i < |t| && t[i] == c;
        TableEntry(i, f);
      }
    }
    OrderedUnique(codes, t, f);
  }

  /** Two ordered sequences with the same elements are equal. */
  lemma {:induction false} OrderedUnique(s: seq<nat>, t: seq<nat>, f: Format)
    requires Ordered(s, f) && Ordered(t, f)
    requires forall c :: c in s <==> c in t
    ensures s == t
  {
    assert |t| > 0 ==> t[0] in t;
    assert |s| > 0 ==> s[0] in s;
    if s != [] {
      assert s[0] == t[0];
      forall c ensures c in s[1..] <==> c in t[1..] {
        TailMembers(s, c, f);
        TailMembers(t, c, f);
      }
      OrderedUnique(s[1..], t[1..], f);
      assert s == [s[0]] + s[1..] && t == [t[0]] + t[1..];
    }
  }

  lemma TailMembers(s: seq<nat>, c: nat, f: Format)
    requires s != [] && Ordered(s, f)
    ensures c in s[1..] <==> c in s && c != s[0]
  {
    assert s == [s[0]] + s[1..];
    if c in s[1..] {
      var i :| 0 <= i < |s| - 1 && s[1..][i] == c;
      assert Before(s[0], s[i + 1], f);
    }
  }

  /** Enumerate every code, keep the finite ones, and keep them stably sorted by value. */
  method BuildTable(f: Format) returns (values: seq<real>, codes: seq<nat>)
    requires Searchable(f)
    ensures codes == TableCodes(f) && values == TableValues(f)
  {
    codes := [];
    var size := 2 * SignBit(f);
    var code: nat := 0;
    while code < size
      invariant 0 <= code <= size
      invariant Ordered(codes, f)
      invariant forall c: nat :: c in codes <==> c < code && FiniteCode(c, f)
    {
      if DecodeMini(code, f).Fin? {
        codes := SortedInsert(codes, code, f);
      }
      code := code + 1;
    }
    TableIsTheSort(codes, f);
    values := [];
    var i := 0;
    while i < |codes|
      invariant 0 <= i <= |codes| && values == TableValues(f)[..i]
    {
      TableEntry(i, f);
      values := values + [CodeValue(codes[i], f)];
      i := i + 1;
    }
  }

  /** A stable sort's step: a later entry goes after every entry of at most its value. */
  method SortedInsert(codes: seq<nat>, code: nat, f: Format) returns (r: seq<nat>)
    requires Ordered(codes, f) && forall c :: c in codes ==> c < code
    ensures Ordered(r, f)
    ensures forall c :: c in r <==> c in codes || c == code
  {
    hide CodeValue, FiniteCode, Ordered;
    var p := |codes|;
    while p > 0 && CodeValue(codes[p - 1], f) > CodeValue(code, f)
      invariant 0 <= p <= |codes|
      invariant forall i :: p <= i < |codes| ==> CodeValue(codes[i], f) > CodeValue(code, f)
    {
      p := p - 1;
    }
    r := codes[..p] + [code] + codes[p..];
    assert codes == codes[..p] + codes[p..];
    if p > 0 {
      assert codes[p - 1] in codes;
      assert Before(codes[p - 1], code, f);
    }
    InsertOrdered(codes, p, code, f);
  }

  lemma InsertOrdered(codes: seq<nat>, p: nat, code: nat, f: Format)
    requires Ordered(codes, f) && p <= |codes|
    requires p > 0 ==> Before(codes[p - 1], code, f)
    requires p < |codes| ==> Before(code, codes[p], f)
    ensures Ordered(codes[..p] + [code] + codes[p..], f)
  {
    hide CodeValue;
    var r := codes[..p] + [code] + codes[p..];
    forall i, j | 0 <= i < j < |r| ensures Before(r[i], r[j], f) {
      if j < p {
        assert Before(codes[i], codes[j], f);
      } else if j == p {
        assert i < p - 1 ==> Before(codes[i], codes[p - 1], f);
      } else if i == p {
        assert p < j - 1 ==> Before(codes[p], codes[j - 1], f);
      } else {
        assert Before(codes[if i < p then i else i - 1], codes[j - 1], f);
      }
    }
  }

  // ── search ────────────────────────────────────────────────────────────────

  /** The greatest table index at most `k` whose value does not exceed `x`. */
  function LastAtMost(x: real, k: nat, f: Format): (i: nat)
    requires k < TableSize(f)
    ensures i <= k
    ensures TableValue(0, f) <= x ==> TableValue(i, f) <= x
    ensures i < k ==> x < TableValue(i + 1, f)
  {
    if k == 0 || TableValue(k, f) <= x then k else LastAtMost(x, k - 1, f)
  }

  /** Nearest finite code of a real, saturating at both ends. */
  function EncodeReal(x: real, f: Format): (code: nat)
    requires Searchable(f)
  {
    var last := TableSize(f) - 1;
    if x <= TableValue(0, f) then TableCode(0, f)
    else if x >= TableValue(last, f) then TableCode(last, f)
    else
      var lo := LastAtMost(x, last, f);
      var dLo, dHi := x - TableValue(lo, f), TableValue(lo + 1, f) - x;
      if dLo < dHi then TableCode(lo, f)
      else if dHi < dLo then TableCode(lo + 1, f)
      else if TableCode(lo, f) % 2 == 0 then TableCode(lo, f) else TableCode(lo + 1, f)
  }

  /** NaN takes the all-ones pattern; infinities saturate. */
  function EncodeMini(v: Num, f: Format): (code: nat)
    requires Searchable(f)
  {
    match v
    case NaN => SignBit(f) - 1
    case Inf(neg) => if neg then TableCode(0, f) else TableCode(TableSize(f) - 1, f)
    case Fin(_, _) => EncodeReal(Real(v), f)
  }

  /** The source's binary search. */
  method Search(value: Num, values: seq<real>, codes: seq<nat>, f: Format) returns (code: nat)
    requires Searchable(f) && codes == TableCodes(f) && values == TableValues(f)
    ensures code == EncodeMini(value, f)
  {
    hide TableValue, TableCode, LastAtMost, DecodeMini, Shl;
    if value.NaN? { return Pow(f.exp + f.mant) - 1; }
    if value.Inf? { return if value.neg then codes[0] else codes[|codes| - 1]; }
    var x := Real(value);
    if x <= values[0] { return codes[0]; }
    if x >= values[|values| - 1] { return codes[|values| - 1]; }
    var lo, hi := 0, |values| - 1;
    while hi - lo > 1
      invariant 0 <= lo < hi < |values|
      invariant values[lo] <= x < values[hi]
    {
      var mid := (lo + hi) / 2;
      if values[mid] <= x { lo := mid; } else { hi := mid; }
    }
    LastUnique(x, lo, f);
    var dLo, dHi := x - values[lo], values[hi] - x;
    if dLo < dHi { return codes[lo]; }
    if dHi < dLo { return codes[hi]; }
    return if codes[lo] % 2 == 0 then codes[lo] else codes[hi];
  }

  lemma LastUnique(x: real, lo: nat, f: Format)
    requires Searchable(f) && lo + 1 < TableSize(f)
    requires TableValue(lo, f) <= x < TableValue(lo + 1, f)
    ensures LastAtMost(x, TableSize(f) - 1, f) == lo
  {
    hide TableValue, LastAtMost, FiniteCodes;
    var i := LastAtMost(x, TableSize(f) - 1, f);
    TableOrder2(0, lo, f);
    if i < lo {
      TableOrder2(i + 1, lo, f);
    } else if lo < i {
      TableOrder2(lo + 1, i, f);
    }
  }

  lemma TableOrder2(i: nat, j: nat, f: Format)
    requires Searchable(f) && i <= j < TableSize(f)
    ensures TableValue(i, f) <= TableValue(j, f)
  {
    if i < j { TableOrder(i, j, f); }
  }

  /** Strictly inside the table the search picks the nearer neighbour, the even one at a tie. */
  lemma EncodeChoice(x: real, f: Format) returns (lo: nat)
    requires Searchable(f) && TableValue(0, f) < x < TableValue(TableSize(f) - 1, f)
    ensures lo + 1 < TableSize(f) && TableValue(lo, f) <= x < TableValue(lo + 1, f)
    ensures FiniteCode(EncodeReal(x, f), f)
    ensures var v, dLo, dHi := CodeValue(EncodeReal(x, f), f), x - TableValue(lo, f), TableValue(lo + 1, f) - x;
            && (dLo < dHi ==> v == TableValue(lo, f))
            && (dHi < dLo ==> v == TableValue(lo + 1, f))
            && (v == TableValue(lo, f) || v == TableValue(lo + 1, f))
            && (dLo == dHi ==> EncodeReal(x, f) % 2 == 0)
  {
    hide TableValue, CodeValue, FiniteCode, LastAtMost, FiniteCodes, Before, TableCode, SignBit;
    lo := LastAtMost(x, TableSize(f) - 1, f);
    TableEntry(lo, f);
    TableEntry(lo + 1, f);
    NeighbourParity(lo, f);
  }

  /** Outside it the end code is returned, and it is the nearest. */
  lemma EncodeEnds(x: real, f: Format)
    requires Searchable(f) && !(TableValue(0, f) < x < TableValue(TableSize(f) - 1, f))
    ensures FiniteCode(EncodeReal(x, f), f)
    ensures x <= TableValue(0, f) ==> CodeValue(EncodeReal(x, f), f) == TableValue(0, f)
    ensures x > TableValue(0, f) ==> CodeValue(EncodeReal(x, f), f) == TableValue(TableSize(f) - 1, f)
  {
    hide TableValue, CodeValue, FiniteCode, LastAtMost, FiniteCodes, TableCode;
    TableEntry(0, f);
    TableEntry(TableSize(f) - 1, f);
  }

  /** Any finite code's value lies between the ends, and on one side of a bracket. */
  lemma CodeInTable(code: nat, lo: nat, f: Format)
    requires Searchable(f) && FiniteCode(code, f) && lo + 1 < TableSize(f)
    ensures var v := CodeValue(code, f);
            && TableValue(0, f) <= v <= TableValue(TableSize(f) - 1, f)
            && (v <= TableValue(lo, f) || TableValue(lo + 1, f) <= v)
  {
    hide TableValue, CodeValue, FiniteCode, FiniteCodes, TableCode, IndexOf;
    var k, last := IndexOf(code, f), TableSize(f) - 1;
    TableEntry(k, f);
    TableOrder2(0, k, f);
    TableOrder2(k, last, f);
    if k <= lo { TableOrder2(k, lo, f); } else { TableOrder2(lo + 1, k, f); }
  }

  /** The code returned is finite and no finite code is closer. */
  lemma EncodeNearest(x: real, code: nat, f: Format)
    requires Searchable(f) && FiniteCode(code, f)
    ensures FiniteCode(EncodeReal(x, f), f)
    ensures Dist(x, CodeValue(EncodeReal(x, f), f)) <= Dist(x, CodeValue(code, f))
  {
    hide EncodeReal, TableValue, CodeValue, FiniteCode, FiniteCodes;
    CodeInTable(code, 0, f);
    if TableValue(0, f) < x < TableValue(TableSize(f) - 1, f) {
      var lo := EncodeChoice(x, f);
      CodeInTable(code, lo, f);
    } else {
      EncodeEnds(x, f);
    }
  }

  /** A finite code at the same distance but of another value loses to an even code. */
  lemma EncodeTiesToEven(x: real, code: nat, f: Format)
    requires Searchable(f) && FiniteCode(code, f)
    requires CodeValue(code, f) != CodeValue(EncodeReal(x, f), f)
    requires Dist(x, CodeValue(code, f)) == Dist(x, CodeValue(EncodeReal(x, f), f))
    ensures EncodeReal(x, f) % 2 == 0
  {
    hide EncodeReal, TableValue, CodeValue, FiniteCode, FiniteCodes;
    CodeInTable(code, 0, f);
    if TableValue(0, f) < x < TableValue(TableSize(f) - 1, f) {
      var lo := EncodeChoice(x, f);
      CodeInTable(code, lo, f);
    } else {
      EncodeEnds(x, f);
    }
  }

  /** Of two neighbouring entries of different values one is even. */
  lemma NeighbourParity(lo: nat, f: Format)
    requires Searchable(f) && lo + 1 < TableSize(f)
    ensures TableValue(lo, f) < TableValue(lo + 1, f) ==>
              TableCode(lo, f) % 2 == 0 || TableCode(lo + 1, f) % 2 == 0
  {
    hide TableValue, CodeValue, SignBit, FiniteCodes, Before;
    SignBitEven(f);
    TableOrder(lo, lo + 1, f);
  }

  lemma SignBitEven(f: Format)
    requires f.exp >= 1
    ensures SignBit(f) % 2 == 0
  {}

  /** Every finite value encodes to a code of the same value. */
  lemma EncodeExact(code: nat, f: Format)
    requires Searchable(f) && FiniteCode(code, f)
    ensures CodeValue(EncodeReal(CodeValue(code, f), f), f) == CodeValue(code, f)
  {
    EncodeNearest(CodeValue(code, f), code, f);
  }

  /** Values only, not codes: both zeros encode to the sign-bit zero. */
  lemma ZeroTakesTheSign(f: Format)
    requires Searchable(f)
    ensures EncodeReal(0.0, f) == SignBit(f)
    ensures FiniteCode(0, f) && CodeValue(0, f) == 0.0 == CodeValue(SignBit(f), f) && SignBit(f) != 0
  {
    hide Magnitude, SignBit, FiniteCode, CodeValue, LastAtMost;
    var n := FiniteCodes(f);
    TableEntry(n - 1, f);
    TableEntry(n, f);
    MagnitudeSign(0, f);
    MagnitudeSign(1, f);
    MagnitudeSign(n - 1, f);
    LastUnique(0.0, n, f);
    SignBitEven(f);
  }

  /** NaN stays NaN, and an infinity becomes the value furthest out on its side. */
  lemma SpecialsEncode(neg: bool, code: nat, f: Format)
    requires Searchable(f) && FiniteCode(code, f)
    ensures DecodeMini(EncodeMini(NaN, f), f) == NaN && EncodeMini(NaN, f) < SignBit(f)
    ensures var far := EncodeMini(Inf(neg), f);
            && FiniteCode(far, f)
            && if neg then CodeValue(far, f) <= CodeValue(code, f) else CodeValue(code, f) <= CodeValue(far, f)
  {
    hide TableValue, CodeValue, FiniteCode, DecodeMini, TableCode;
    AllOnesIsNaN(f);
    TableEntry(0, f);
    TableEntry(TableSize(f) - 1, f);
    CodeInTable(code, 0, f);
  }

  lemma AllOnesIsNaN(f: Format)
    requires f.exp >= 1 && f.mant >= 1
    ensures DecodeMini(SignBit(f) - 1, f) == NaN
  {
    hide Scale, Shr, Low;
    var top, ones := MaxExp(f), Pow(f.mant) - 1;
    ShlAdd(top, 1, f.mant);
    ShlCompose(1, f.exp, f.mant);
    assert SignBit(f) - 1 == Shl(top, f.mant) + ones;
    Unpacked(top, ones, f.mant);
    Unpacked(0, SignBit(f) - 1, f.exp + f.mant);
    ShlZero(f.exp + f.mant);
    LowFields(SignBit(f) - 1, f.exp, f.mant);
  }

  // ── the bridge ────────────────────────────────────────────────────────────

  /** f16 code -> 8-bit code, by way of the exact value. */
  function Bridge(code: nat, f: Format): nat
    requires Searchable(f)
  {
    EncodeMini(F16ToF32(code), f)
  }

  method BuildBridge(f: Format) returns (map': array<nat>)
    requires Searchable(f)
    ensures fresh(map') && map'.Length == 0x10000
    ensures forall c :: 0 <= c < 0x10000 ==> map'[c] == Bridge(c, f)
  {
    hide Searchable, F16ToF32, EncodeMini;
    map' := new nat[0x10000];
    var values, codes := BuildTable(f);
    var code := 0;
    while code < 0x10000
      invariant 0 <= code <= 0x10000
      invariant forall c :: 0 <= c < code ==> map'[c] == Bridge(c, f)
    {
      map'[code] := Search(F16ToF32(code), values, codes, f);
      code := code + 1;
    }
  }
}
