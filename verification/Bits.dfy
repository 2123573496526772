/** Shifts and masks of natural numbers, scaling of reals by powers of two, and rounding
    of reals to integers: the arithmetic shared by the wire formats. Every definition
    recurses on the shift distance, so the reasoning stays linear. */
module Bits {

  /** n << k. */
  function Shl(n: nat, k: nat): (r: nat)
    ensures n > 0 ==> r >= n
  {
    if k == 0 then n else 2 * Shl(n, k - 1)
  }

  /** n >>> k. */
  function Shr(n: nat, k: nat): nat {
    if k == 0 then n else Shr(n / 2, k - 1)
  }

  /** n & ((1 << k) - 1). */
  function Low(n: nat, k: nat): (r: nat)
    ensures r < Shl(1, k)
  {
    if k == 0 then 0 else n % 2 + 2 * Low(n / 2, k - 1)
  }

  function Pow(k: nat): (r: nat)
    ensures r >= 1
  {
    Shl(1, k)
  }

  lemma {:induction false} ShlAdd(m: nat, n: nat, k: nat)
    ensures Shl(m + n, k) == Shl(m, k) + Shl(n, k)
  {
    if k > 0 { ShlAdd(m, n, k - 1); }
  }

  lemma {:induction false} ShlDouble(n: nat, k: nat)
    ensures Shl(2 * n, k) == 2 * Shl(n, k)
  {
    if k > 0 { ShlDouble(n, k - 1); }
  }

  lemma {:induction false} ShlCompose(n: nat, j: nat, k: nat)
    ensures Shl(Shl(n, j), k) == Shl(n, j + k)
    decreases k
  {
    if k > 0 { ShlCompose(n, j, k - 1); }
  }

  lemma ShlMono(m: nat, n: nat, k: nat)
    ensures m <= n ==> Shl(m, k) <= Shl(n, k)
    ensures m < n ==> Shl(m, k) + Shl(1, k) <= Shl(n, k)
  {
    if m < n {
      ShlAdd(m, n - m, k);
      ShlAdd(1, n - m - 1, k);
    }
  }

  /** A number is its high part and its low part. */
  lemma {:induction false} HighLow(n: nat, k: nat)
    ensures n == Shl(Shr(n, k), k) + Low(n, k)
  {
    if k > 0 { HighLow(n / 2, k - 1); }
  }

  /** Packing a high part over a low part is undone by shift and mask. */
  lemma {:induction false} Unpacked(h: nat, l: nat, k: nat)
    requires l < Shl(1, k)
    ensures Shr(Shl(h, k) + l, k) == h && Low(Shl(h, k) + l, k) == l
  {
    if k > 0 {
      var n := Shl(h, k) + l;
      assert n / 2 == Shl(h, k - 1) + l / 2 && n % 2 == l % 2;
      Unpacked(h, l / 2, k - 1);
    }
  }

  /** The high part is bounded like the number. */
  lemma ShrBound(n: nat, j: nat, k: nat)
    requires n < Shl(1, j + k)
    ensures Shr(n, k) < Shl(1, j)
  {
    HighLow(n, k);
    ShlCompose(1, j, k);
    ShlMono(Shl(1, j), Shr(n, k), k);
  }

  /** x * 2^k. */
  function Scale(x: real, k: int): (r: real)
    decreases x, if k < 0 then -k else k
  {
    if k == 0 then x else if k > 0 then 2.0 * Scale(x, k - 1) else Scale(x, k + 1) / 2.0
  }

  lemma ScaleZero(x: real)
    ensures Scale(x, 0) == x
  {}

  lemma ScaleStep(x: real, k: int)
    ensures Scale(x, k + 1) == 2.0 * Scale(x, k)
  {}

  lemma {:induction false} ScaleAdd(x: real, y: real, k: int)
    ensures Scale(x + y, k) == Scale(x, k) + Scale(y, k)
    decreases if k < 0 then -k else k
  {
    if k > 0 { ScaleAdd(x, y, k - 1); } else if k < 0 { ScaleAdd(x, y, k + 1); }
  }

  lemma {:induction false} ScaleDouble(x: real, k: int)
    ensures Scale(2.0 * x, k) == Scale(x, k + 1)
    decreases if k < 0 then -k else k
  {
    ScaleAdd(x, x, k);
    ScaleStep(x, k);
    assert x + x == 2.0 * x;
  }

  lemma {:induction false} ScaleCompose(x: real, j: int, k: int)
    ensures Scale(Scale(x, j), k) == Scale(x, j + k)
    decreases if k < 0 then -k else k
  {
    if k > 0 {
      ScaleCompose(x, j, k - 1);
      ScaleStep(x, j + k - 1);
    } else if k < 0 {
      ScaleCompose(x, j, k + 1);
      ScaleStep(x, j + k);
    }
  }

  lemma {:induction false} ScaleSign(x: real, k: int)
    ensures x > 0.0 ==> Scale(x, k) > 0.0
    ensures x == 0.0 ==> Scale(x, k) == 0.0
    ensures x < 0.0 ==> Scale(x, k) < 0.0
    ensures Scale(-x, k) == -Scale(x, k)
    decreases if k < 0 then -k else k
  {
    if k > 0 { ScaleSign(x, k - 1); } else if k < 0 { ScaleSign(x, k + 1); }
  }

  lemma ScaleOrder(x: real, y: real, k: int)
    ensures x < y <==> Scale(x, k) < Scale(y, k)
    ensures x == y <==> Scale(x, k) == Scale(y, k)
  {
    ScaleAdd(x, y - x, k);
    ScaleSign(y - x, k);
    assert x + (y - x) == y;
  }

  lemma ScaleDist(x: real, y: real, k: int)
    ensures Dist(Scale(x, k), Scale(y, k)) == Scale(Dist(x, y), k)
  {
    ScaleAdd(x - y, y, k);
    assert x - y + y == x;
    ScaleSign(x - y, k);
  }

  lemma {:induction false} ScaleMonoExp(x: real, j: int, k: int)
    requires x > 0.0 && j <= k
    ensures Scale(x, j) <= Scale(x, k)
    ensures j < k ==> 2.0 * Scale(x, j) <= Scale(x, k)
    decreases k - j
  {
    ScaleSign(x, j);
    ScaleSign(x, k);
    if j < k {
      ScaleMonoExp(x, j, k - 1);
      ScaleStep(x, k - 1);
    }
  }

  lemma {:induction false} ScaleInt(n: nat, k: nat)
    ensures Scale(n as real, k) == Shl(n, k) as real
  {
    if k > 0 { ScaleInt(n, k - 1); }
  }

  function Abs(x: real): real {
    if x < 0.0 then -x else x
  }

  function Dist(x: real, y: real): real {
    Abs(x - y)
  }

  /** Round half up: away from zero on magnitudes. */
  function RoundHalfUp(y: real): int {
    (y + 0.5).Floor
  }

  /** Round half to even. */
  function RoundHalfEven(y: real): int {
    var f := y.Floor;
    var d := y - f as real;
    if d < 0.5 then f else if d > 0.5 then f + 1 else if f % 2 == 0 then f else f + 1
  }

  /** Either rounding, by the tie rule. */
  function Round(y: real, away: bool): int {
    if away then RoundHalfUp(y) else RoundHalfEven(y)
  }

  /** Rounding lands within a half, no integer is closer, and it never crosses an integer. */
  lemma RoundIsNearest(y: real, away: bool, n: int)
    ensures Dist(y, Round(y, away) as real) <= 0.5
    ensures Dist(y, Round(y, away) as real) <= Dist(y, n as real)
    ensures y == n as real ==> Round(y, away) == n
    ensures y >= n as real ==> Round(y, away) >= n
    ensures y <= n as real ==> Round(y, away) <= n
  {}

  /** At a tie, rounding to even picks the even neighbour and rounding away the upper one. */
  lemma RoundTies(y: real, away: bool)
    requires y - y.Floor as real == 0.5
    ensures away ==> Round(y, away) == y.Floor + 1
    ensures !away ==> Round(y, away) % 2 == 0
  {}
}
