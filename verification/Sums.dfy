/** Finite sums over an index range, and the laws that let them be rearranged. */
module Sums {

  type Vec = int -> real
  type Mat = (int, int) -> real

  function Sum(n: nat, f: Vec): real {
    if n == 0 then 0.0 else Sum(n - 1, f) + f(n - 1)
  }

  lemma {:induction false} SumExt(n: nat, f: Vec, g: Vec)
    requires forall i :: 0 <= i < n ==> f(i) == g(i)
    ensures Sum(n, f) == Sum(n, g)
  {
    if n > 0 { SumExt(n - 1, f, g); }
  }

  lemma {:induction false} SumPlus(n: nat, f: Vec, g: Vec, h: Vec)
    requires forall i :: 0 <= i < n ==> h(i) == f(i) + g(i)
    ensures Sum(n, h) == Sum(n, f) + Sum(n, g)
  {
    if n > 0 { SumPlus(n - 1, f, g, h); }
  }

  lemma {:induction false} SumScale(n: nat, c: real, f: Vec, h: Vec)
    requires forall i :: 0 <= i < n ==> h(i) == c * f(i)
    ensures Sum(n, h) == c * Sum(n, f)
  {
    if n > 0 {
      SumScale(n - 1, c, f, h);
      assert c * (Sum(n - 1, f) + f(n - 1)) == c * Sum(n - 1, f) + c * f(n - 1);
    }
  }

  lemma {:induction false} SumZero(n: nat, h: Vec)
    requires forall i :: 0 <= i < n ==> h(i) == 0.0
    ensures Sum(n, h) == 0.0
  {
    if n > 0 { SumZero(n - 1, h); }
  }

  lemma {:induction false} SumNonNeg(n: nat, h: Vec)
    requires forall i :: 0 <= i < n ==> h(i) >= 0.0
    ensures Sum(n, h) >= 0.0
  {
    if n > 0 { SumNonNeg(n - 1, h); }
  }

  function RowOf(f: Mat, i: int): Vec {
    j => f(i, j)
  }

  function ColOf(f: Mat, j: int): Vec {
    i => f(i, j)
  }

  /** Row sums, and column sums. */
  function Rows(f: Mat, m: nat): Vec {
    i => Sum(m, RowOf(f, i))
  }

  function Cols(f: Mat, n: nat): Vec {
    j => Sum(n, ColOf(f, j))
  }

  /** The sum of all entries, row by row. */
  function Total(f: Mat, n: nat, m: nat): real {
    Sum(n, Rows(f, m))
  }

  /** Summing by rows or by columns is the same. */
  lemma {:induction false} SumSwap(f: Mat, n: nat, m: nat)
    ensures Total(f, n, m) == Sum(m, Cols(f, n))
  {
    if n == 0 {
      SumZero(m, Cols(f, 0));
    } else {
      SumSwap(f, n - 1, m);
      SumPlus(m, Cols(f, n - 1), RowOf(f, n - 1), Cols(f, n));
    }
  }

  lemma TotalExt(f: Mat, g: Mat, n: nat, m: nat)
    requires forall i, j :: 0 <= i < n && 0 <= j < m ==> f(i, j) == g(i, j)
    ensures Total(f, n, m) == Total(g, n, m)
  {
    forall i | 0 <= i < n ensures Rows(f, m)(i) == Rows(g, m)(i) {
      SumExt(m, RowOf(f, i), RowOf(g, i));
    }
    SumExt(n, Rows(f, m), Rows(g, m));
  }

  lemma TotalPlus(f: Mat, g: Mat, h: Mat, n: nat, m: nat)
    requires forall i, j :: 0 <= i < n && 0 <= j < m ==> h(i, j) == f(i, j) + g(i, j)
    ensures Total(h, n, m) == Total(f, n, m) + Total(g, n, m)
  {
    forall i | 0 <= i < n ensures Rows(h, m)(i) == Rows(f, m)(i) + Rows(g, m)(i) {
      SumPlus(m, RowOf(f, i), RowOf(g, i), RowOf(h, i));
    }
    SumPlus(n, Rows(f, m), Rows(g, m), Rows(h, m));
  }

  lemma TotalScale(c: real, f: Mat, h: Mat, n: nat, m: nat)
    requires forall i, j :: 0 <= i < n && 0 <= j < m ==> h(i, j) == c * f(i, j)
    ensures Total(h, n, m) == c * Total(f, n, m)
  {
    forall i | 0 <= i < n ensures Rows(h, m)(i) == c * Rows(f, m)(i) {
      SumScale(m, c, RowOf(f, i), RowOf(h, i));
    }
    SumScale(n, c, Rows(f, m), Rows(h, m));
  }

  lemma TotalNonNeg(f: Mat, n: nat, m: nat)
    requires forall i, j :: 0 <= i < n && 0 <= j < m ==> f(i, j) >= 0.0
    ensures Total(f, n, m) >= 0.0
  {
    forall i | 0 <= i < n ensures Rows(f, m)(i) >= 0.0 {
      SumNonNeg(m, RowOf(f, i));
    }
    SumNonNeg(n, Rows(f, m));
  }
}
