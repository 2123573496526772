/** The hand-written two-layer perceptron: forward pass and backward loops over flat row-major
    buffers, and the adjoint identity that makes the backward pass the gradient. Dimensions are
    arbitrary; arithmetic is over exact reals, and `dlogits` is given. */
module Mlp {
  import opened Sums

  // ── mathematics ───────────────────────────────────────────────────────────

  function Product(f: Mat, g: Mat, i: int, j: int): Vec {
    t => f(i, t) * g(t, j)
  }

  /** A matrix product with inner dimension `k`. */
  function Dot(f: Mat, g: Mat, k: nat): Mat {
    (i, j) => Sum(k, Product(f, g, i, j))
  }

  /** A layer: product plus bias row. */
  function Affine(x: Mat, w: Mat, b: Vec, k: nat): Mat {
    (i, j) => Dot(x, w, k)(i, j) + b(j)
  }

  function Relu(x: real): real {
    if x < 0.0 then 0.0 else x
  }

  function Hidden(pre: Mat): Mat {
    (i, j) => Relu(pre(i, j))
  }

  /** The network of `forward`. */
  function Logits(x: Mat, w1: Mat, b1: Vec, w2: Mat, b2: Vec, input: nat, hidden: nat): Mat {
    Affine(Hidden(Affine(x, w1, b1, input)), w2, b2, hidden)
  }

  function Transpose(f: Mat): Mat {
    (i, j) => f(j, i)
  }

  /** Activation times error summed over the batch: a weight gradient before averaging. */
  function Outer(x: Mat, d: Mat, batch: nat): Mat {
    Dot(Transpose(x), d, batch)
  }

  function Times(f: Mat, g: Mat): Mat {
    (i, j) => f(i, j) * g(i, j)
  }

  function TimesVec(u: Vec, v: Vec): Vec {
    i => u(i) * v(i)
  }

  function Pair(f: Mat, g: Mat, n: nat, m: nat): real {
    Total(Times(f, g), n, m)
  }

  function PairVec(u: Vec, v: Vec, n: nat): real {
    Sum(n, TimesVec(u, v))
  }

  /** One sample's share of every weight gradient, weighted by a direction. */
  function Share(x: Mat, d: Mat, w: Mat, b: int): Mat {
    (i, j) => x(b, i) * d(b, j) * w(i, j)
  }

  lemma Distribute(a: real, b: real, c: real)
    ensures a * (b + c) == a * b + a * c && (b + c) * a == b * a + c * a
  {}

  lemma Regroup(x: real, d: real, w: real)
    ensures x * d * w == d * (x * w) && x * d * w == x * (d * w)
  {}

  /** One sample: an error row paired with a product row, rearranged by columns. */
  lemma ProductAdjoint(x: Mat, d: Mat, w: Mat, b: int, k: nat, m: nat)
    ensures Sum(m, TimesVec(RowOf(d, b), RowOf(Dot(x, w, k), b))) == Total(Share(x, d, w, b), k, m)
  {
    var f := Share(x, d, w, b);
    var left := TimesVec(RowOf(d, b), RowOf(Dot(x, w, k), b));
    forall j | 0 <= j < m ensures left(j) == Cols(f, k)(j) {
      forall t | 0 <= t < k ensures ColOf(f, j)(t) == d(b, j) * Product(x, w, b, j)(t) {
        Regroup(x(b, t), d(b, j), w(t, j));
      }
      SumScale(k, d(b, j), Product(x, w, b, j), ColOf(f, j));
    }
    SumExt(m, left, Cols(f, k));
    SumSwap(f, k, m);
  }

  /** The same row against a whole layer. */
  lemma SampleAdjoint(x: Mat, d: Mat, w: Mat, u: Vec, b: int, k: nat, m: nat)
    ensures Sum(m, RowOf(Times(d, Affine(x, w, u, k)), b)) ==
            Total(Share(x, d, w, b), k, m) + Sum(m, TimesVec(RowOf(d, b), u))
  {
    ProductAdjoint(x, d, w, b, k, m);
    var left := TimesVec(RowOf(d, b), RowOf(Dot(x, w, k), b));
    var whole := RowOf(Times(d, Affine(x, w, u, k)), b);
    forall j | 0 <= j < m ensures whole(j) == left(j) + TimesVec(RowOf(d, b), u)(j) {
      Distribute(d(b, j), Dot(x, w, k)(b, j), u(j));
    }
    SumPlus(m, left, TimesVec(RowOf(d, b), u), whole);
  }

  lemma OuterGrows(x: Mat, d: Mat, w: Mat, b: nat, k: nat, m: nat)
    ensures Pair(Outer(x, d, b + 1), w, k, m) == Pair(Outer(x, d, b), w, k, m) + Total(Share(x, d, w, b), k, m)
  {
    forall i, j | 0 <= i < k && 0 <= j < m
      ensures Times(Outer(x, d, b + 1), w)(i, j) == Times(Outer(x, d, b), w)(i, j) + Share(x, d, w, b)(i, j)
    {
      Distribute(w(i, j), Outer(x, d, b)(i, j), x(b, i) * d(b, j));
    }
    TotalPlus(Times(Outer(x, d, b), w), Share(x, d, w, b), Times(Outer(x, d, b + 1), w), k, m);
  }

  lemma ColumnsGrow(d: Mat, u: Vec, b: nat, m: nat)
    ensures PairVec(Cols(d, b + 1), u, m) == PairVec(Cols(d, b), u, m) + Sum(m, TimesVec(RowOf(d, b), u))
  {
    forall j | 0 <= j < m
      ensures TimesVec(Cols(d, b + 1), u)(j) == TimesVec(Cols(d, b), u)(j) + TimesVec(RowOf(d, b), u)(j)
    {
      Distribute(u(j), Cols(d, b)(j), d(b, j));
    }
    SumPlus(m, TimesVec(Cols(d, b), u), TimesVec(RowOf(d, b), u), TimesVec(Cols(d, b + 1), u));
  }

  /** Pairing the error with the layer's response to (w, u) equals pairing the summed gradients
      with (w, u): the backward loops are the adjoint of the forward ones. */
  lemma {:induction false} LayerAdjoint(x: Mat, d: Mat, w: Mat, u: Vec, batch: nat, k: nat, m: nat)
    ensures Pair(d, Affine(x, w, u, k), batch, m) ==
            Pair(Outer(x, d, batch), w, k, m) + PairVec(Cols(d, batch), u, m)
  {
    if batch == 0 {
      EmptyBatch(x, d, w, u, k, m);
    } else {
      LayerAdjoint(x, d, w, u, batch - 1, k, m);
      SampleAdjoint(x, d, w, u, batch - 1, k, m);
      OuterGrows(x, d, w, batch - 1, k, m);
      ColumnsGrow(d, u, batch - 1, m);
    }
  }

  lemma EmptyBatch(x: Mat, d: Mat, w: Mat, u: Vec, k: nat, m: nat)
    ensures Pair(Outer(x, d, 0), w, k, m) == 0.0 && PairVec(Cols(d, 0), u, m) == 0.0
  {
    TotalScale(0.0, w, Times(Outer(x, d, 0), w), k, m);
    SumZero(m, TimesVec(Cols(d, 0), u));
  }

  /** The error at the hidden layer before the ReLU mask. */
  function BackError(d: Mat, w2: Mat, out: nat): Mat {
    Dot(d, Transpose(w2), out)
  }

  /** The ReLU mask, on the sign of the pre-activation. */
  function Masked(pre: Mat, f: Mat): Mat {
    (b, i) => if pre(b, i) > 0.0 then f(b, i) else 0.0
  }

  lemma RowMovesBack(d: Mat, dh: Mat, w2: Mat, b: int, hidden: nat, out: nat)
    ensures Sum(out, RowOf(Times(d, Dot(dh, w2, hidden)), b)) == Sum(hidden, RowOf(Times(BackError(d, w2, out), dh), b))
  {
    var f := Share(dh, d, w2, b);
    ProductAdjoint(dh, d, w2, b, hidden, out);
    SumExt(out, RowOf(Times(d, Dot(dh, w2, hidden)), b), TimesVec(RowOf(d, b), RowOf(Dot(dh, w2, hidden), b)));
    var right := RowOf(Times(BackError(d, w2, out), dh), b);
    forall i | 0 <= i < hidden ensures Rows(f, out)(i) == right(i) {
      var g := Product(d, Transpose(w2), b, i);
      forall j | 0 <= j < out ensures RowOf(f, i)(j) == dh(b, i) * g(j) {
        Regroup(dh(b, i), d(b, j), w2(i, j));
      }
      SumScale(out, dh(b, i), g, RowOf(f, i));
    }
    SumExt(hidden, Rows(f, out), right);
  }

  /** Moving the error back through the second layer's weights. */
  lemma ErrorMovesBack(d: Mat, dh: Mat, w2: Mat, batch: nat, hidden: nat, out: nat)
    ensures Pair(d, Dot(dh, w2, hidden), batch, out) == Pair(BackError(d, w2, out), dh, batch, hidden)
  {
    var left, right := Times(d, Dot(dh, w2, hidden)), Times(BackError(d, w2, out), dh);
    forall b | 0 <= b < batch ensures Rows(left, out)(b) == Rows(right, hidden)(b) {
      RowMovesBack(d, dh, w2, b, hidden, out);
    }
    SumExt(batch, Rows(left, out), Rows(right, hidden));
  }

  /** Through the masked first layer: the pairing with the logits' response to (v, u) equals the
      pairing of the summed first-layer gradients with (v, u). */
  lemma FirstLayerAdjoint(x: Mat, pre: Mat, d: Mat, w2: Mat, v: Mat, u: Vec, batch: nat, input: nat, hidden: nat,
                          out: nat)
    ensures var dh := Masked(pre, BackError(d, w2, out));
            Pair(d, Dot(Masked(pre, Affine(x, v, u, input)), w2, hidden), batch, out) ==
            Pair(Outer(x, dh, batch), v, input, hidden) + PairVec(Cols(dh, batch), u, hidden)
  {
    var back := BackError(d, w2, out);
    var dh := Masked(pre, back);
    var lin := Affine(x, v, u, input);
    ErrorMovesBack(d, Masked(pre, lin), w2, batch, hidden, out);
    TotalExt(Times(back, Masked(pre, lin)), Times(dh, lin), batch, hidden);
    LayerAdjoint(x, dh, v, u, batch, input, hidden);
  }

  // ── gradients as the source averages them ─────────────────────────────────

  /** The entries of `f` divided by the batch size. */
  function Averaged(f: Mat, batch: nat): Mat
    requires batch > 0
  {
    (i, j) => f(i, j) / batch as real
  }

  function AveragedVec(f: Vec, batch: nat): Vec
    requires batch > 0
  {
    j => f(j) / batch as real
  }

  lemma AveragedPair(f: Mat, w: Mat, batch: nat, n: nat, m: nat)
    requires batch > 0
    ensures Pair(f, w, n, m) == batch as real * Pair(Averaged(f, batch), w, n, m)
  {
    forall i, j | 0 <= i < n && 0 <= j < m
      ensures Times(f, w)(i, j) == batch as real * Times(Averaged(f, batch), w)(i, j)
    {
      Unaverage(f(i, j), batch as real, w(i, j));
    }
    TotalScale(batch as real, Times(Averaged(f, batch), w), Times(f, w), n, m);
  }

  lemma AveragedPairVec(f: Vec, u: Vec, batch: nat, n: nat)
    requires batch > 0
    ensures PairVec(f, u, n) == batch as real * PairVec(AveragedVec(f, batch), u, n)
  {
    forall j | 0 <= j < n ensures TimesVec(f, u)(j) == batch as real * TimesVec(AveragedVec(f, batch), u)(j) {
      Unaverage(f(j), batch as real, u(j));
    }
    SumScale(n, batch as real, TimesVec(AveragedVec(f, batch), u), TimesVec(f, u));
  }

  lemma Unaverage(f: real, b: real, w: real)
    requires b > 0.0
    ensures f * w == b * (f / b * w)
  {
    assert b * (f / b) == f;
    assert b * (f / b * w) == (b * (f / b)) * w;
  }

  /** What the backward loops compute. */
  datatype Gradients = Gradients(dw1: Mat, db1: Vec, dw2: Mat, db2: Vec)

  function Backprop(x: Mat, pre: Mat, h: Mat, d: Mat, w2: Mat, batch: nat, out: nat): Gradients
    requires batch > 0
  {
    var dh := Masked(pre, BackError(d, w2, out));
    Gradients(Averaged(Outer(x, dh, batch), batch), AveragedVec(Cols(dh, batch), batch),
              Averaged(Outer(h, d, batch), batch), AveragedVec(Cols(d, batch), batch))
  }

  /** Second layer, all directions (u2, c2): the averaged gradients represent the response. */
  lemma SecondLayerGradient(x: Mat, pre: Mat, h: Mat, d: Mat, w2: Mat, u2: Mat, c2: Vec, batch: nat, hidden: nat,
                            out: nat)
    requires batch > 0
    ensures var g := Backprop(x, pre, h, d, w2, batch, out);
            Pair(d, Affine(h, u2, c2, hidden), batch, out) ==
            batch as real * (Pair(g.dw2, u2, hidden, out) + PairVec(g.db2, c2, out))
  {
    hide Pair, PairVec, Affine, Outer, BackError, Masked;
    var g := Backprop(x, pre, h, d, w2, batch, out);
    LayerAdjoint(h, d, u2, c2, batch, hidden, out);
    AveragedPair(Outer(h, d, batch), u2, batch, hidden, out);
    AveragedPairVec(Cols(d, batch), c2, batch, out);
    Distribute(batch as real, Pair(g.dw2, u2, hidden, out), PairVec(g.db2, c2, out));
  }

  /** First layer, all directions (v, c1), through the ReLU mask. */
  lemma FirstLayerGradient(x: Mat, pre: Mat, h: Mat, d: Mat, w2: Mat, v: Mat, c1: Vec,
                           batch: nat, input: nat, hidden: nat, out: nat)
    requires batch > 0
    ensures var g := Backprop(x, pre, h, d, w2, batch, out);
            Pair(d, Dot(Masked(pre, Affine(x, v, c1, input)), w2, hidden), batch, out) ==
            batch as real * (Pair(g.dw1, v, input, hidden) + PairVec(g.db1, c1, hidden))
  {
    hide Pair, PairVec, Affine, Outer, BackError, Masked, Dot;
    var g := Backprop(x, pre, h, d, w2, batch, out);
    var dh := Masked(pre, BackError(d, w2, out));
    FirstLayerAdjoint(x, pre, d, w2, v, c1, batch, input, hidden, out);
    AveragedPair(Outer(x, dh, batch), v, batch, input, hidden);
    AveragedPairVec(Cols(dh, batch), c1, batch, hidden);
    Distribute(batch as real, Pair(g.dw1, v, input, hidden), PairVec(g.db1, c1, hidden));
  }

  // ── the responses are what `forward` does ─────────────────────────────────

  function AddMat(f: Mat, g: Mat): Mat {
    (i, j) => f(i, j) + g(i, j)
  }

  function AddVec(u: Vec, v: Vec): Vec {
    i => u(i) + v(i)
  }

  lemma AffineIsAffine(x: Mat, w: Mat, b: Vec, u: Mat, c: Vec, k: nat, i: int, j: int)
    ensures Affine(x, AddMat(w, u), AddVec(b, c), k)(i, j) == Affine(x, w, b, k)(i, j) + Affine(x, u, c, k)(i, j)
  {
    forall t | 0 <= t < k ensures Product(x, AddMat(w, u), i, j)(t) == Product(x, w, i, j)(t) + Product(x, u, i, j)(t) {
      Distribute(x(i, t), w(t, j), u(t, j));
    }
    SumPlus(k, Product(x, w, i, j), Product(x, u, i, j), Product(x, AddMat(w, u), i, j));
    AffineAt(x, w, b, k, i, j);
    AffineAt(x, u, c, k, i, j);
    AffineAt(x, AddMat(w, u), AddVec(b, c), k, i, j);
  }

  lemma AffineAt(x: Mat, w: Mat, b: Vec, k: nat, i: int, j: int)
    ensures Affine(x, w, b, k)(i, j) == Sum(k, Product(x, w, i, j)) + b(j)
  {
    var d := Dot(x, w, k);
    assert Affine(x, w, b, k)(i, j) == d(i, j) + b(j);
    assert d(i, j) == Sum(k, Product(x, w, i, j));
  }

  /** The perturbed first layer crosses no ReLU kink. */
  ghost predicate SameSide(pre: Mat, pre': Mat, batch: nat, hidden: nat) {
    forall b, i :: 0 <= b < batch && 0 <= i < hidden ==>
      (pre(b, i) > 0.0 ==> pre'(b, i) >= 0.0) && (pre(b, i) <= 0.0 ==> pre'(b, i) <= 0.0)
  }

  /** Moving the second layer by (u2, c2): the network's outputs change by exactly the response
      paired in `SecondLayerGradient`. */
  lemma SecondLayerDifference(x: Mat, w1: Mat, b1: Vec, w2: Mat, b2: Vec, u2: Mat, c2: Vec, input: nat, hidden: nat,
                              b: int, j: int)
    ensures Logits(x, w1, b1, AddMat(w2, u2), AddVec(b2, c2), input, hidden)(b, j) ==
            Logits(x, w1, b1, w2, b2, input, hidden)(b, j) +
            Affine(Hidden(Affine(x, w1, b1, input)), u2, c2, hidden)(b, j)
  {
    AffineIsAffine(Hidden(Affine(x, w1, b1, input)), w2, b2, u2, c2, hidden, b, j);
  }

  /** Moving the first layer by (v, c1) without crossing a kink: the outputs change by exactly the
      response paired in `FirstLayerGradient`. */
  lemma FirstLayerDifference(x: Mat, w1: Mat, b1: Vec, w2: Mat, b2: Vec, v: Mat, c1: Vec,
                             batch: nat, input: nat, hidden: nat, b: int, j: int)
    requires 0 <= b < batch
    requires SameSide(Affine(x, w1, b1, input), Affine(x, AddMat(w1, v), AddVec(b1, c1), input), batch, hidden)
    ensures Logits(x, AddMat(w1, v), AddVec(b1, c1), w2, b2, input, hidden)(b, j) ==
            Logits(x, w1, b1, w2, b2, input, hidden)(b, j) +
            Dot(Masked(Affine(x, w1, b1, input), Affine(x, v, c1, input)), w2, hidden)(b, j)
  {
    var pre, pre' := Affine(x, w1, b1, input), Affine(x, AddMat(w1, v), AddVec(b1, c1), input);
    var lin := Affine(x, v, c1, input);
    forall i | 0 <= i < hidden ensures Hidden(pre')(b, i) == Hidden(pre)(b, i) + Masked(pre, lin)(b, i) {
      AffineIsAffine(x, w1, b1, v, c1, input, b, i);
    }
    DotAdds(Hidden(pre), Masked(pre, lin), Hidden(pre'), w2, hidden, b, j);
  }

  lemma DotAdds(f: Mat, g: Mat, h: Mat, w: Mat, k: nat, b: int, j: int)
    requires forall i :: 0 <= i < k ==> h(b, i) == f(b, i) + g(b, i)
    ensures Dot(h, w, k)(b, j) == Dot(f, w, k)(b, j) + Dot(g, w, k)(b, j)
  {
    forall i | 0 <= i < k ensures Product(h, w, b, j)(i) == Product(f, w, b, j)(i) + Product(g, w, b, j)(i) {
      Distribute(w(i, j), f(b, i), g(b, i));
    }
    SumPlus(k, Product(f, w, b, j), Product(g, w, b, j), Product(h, w, b, j));
  }

  function SubMat(f: Mat, g: Mat): Mat {
    (i, j) => f(i, j) - g(i, j)
  }

  /** The backward pass is the gradient of the network in its second layer: for every move
      (u2, c2), pairing the error with the exact change of the logits is batch times pairing the
      averaged gradients with the move. */
  lemma BackpropSecondLayer(x: Mat, w1: Mat, b1: Vec, w2: Mat, b2: Vec, d: Mat, u2: Mat, c2: Vec,
                            batch: nat, input: nat, hidden: nat, out: nat)
    requires batch > 0
    ensures var pre := Affine(x, w1, b1, input);
            var g := Backprop(x, pre, Hidden(pre), d, w2, batch, out);
            var change := SubMat(Logits(x, w1, b1, AddMat(w2, u2), AddVec(b2, c2), input, hidden),
                                 Logits(x, w1, b1, w2, b2, input, hidden));
            Pair(d, change, batch, out) == batch as real * (Pair(g.dw2, u2, hidden, out) + PairVec(g.db2, c2, out))
  {
    hide Dot, Affine, Hidden, Logits, Backprop, PairVec;
    var pre := Affine(x, w1, b1, input);
    var change := SubMat(Logits(x, w1, b1, AddMat(w2, u2), AddVec(b2, c2), input, hidden),
                         Logits(x, w1, b1, w2, b2, input, hidden));
    var response := Affine(Hidden(pre), u2, c2, hidden);
    forall b, j | 0 <= b < batch && 0 <= j < out ensures Times(d, change)(b, j) == Times(d, response)(b, j) {
      SecondLayerDifference(x, w1, b1, w2, b2, u2, c2, input, hidden, b, j);
    }
    TotalExt(Times(d, change), Times(d, response), batch, out);
    SecondLayerGradient(x, pre, Hidden(pre), d, w2, u2, c2, batch, hidden, out);
  }

  /** The same in its first layer, for every move (v, c1) that crosses no ReLU kink. */
  lemma BackpropFirstLayer(x: Mat, w1: Mat, b1: Vec, w2: Mat, b2: Vec, d: Mat, v: Mat, c1: Vec,
                           batch: nat, input: nat, hidden: nat, out: nat)
    requires batch > 0
    requires SameSide(Affine(x, w1, b1, input), Affine(x, AddMat(w1, v), AddVec(b1, c1), input), batch, hidden)
    ensures var pre := Affine(x, w1, b1, input);
            var g := Backprop(x, pre, Hidden(pre), d, w2, batch, out);
            var change := SubMat(Logits(x, AddMat(w1, v), AddVec(b1, c1), w2, b2, input, hidden),
                                 Logits(x, w1, b1, w2, b2, input, hidden));
            Pair(d, change, batch, out) == batch as real * (Pair(g.dw1, v, input, hidden) + PairVec(g.db1, c1, hidden))
  {
    hide Dot, Affine, Hidden, Logits, Backprop, PairVec, Masked, SameSide;
    var pre := Affine(x, w1, b1, input);
    var change := SubMat(Logits(x, AddMat(w1, v), AddVec(b1, c1), w2, b2, input, hidden),
                         Logits(x, w1, b1, w2, b2, input, hidden));
    var response := Dot(Masked(pre, Affine(x, v, c1, input)), w2, hidden);
    forall b, j | 0 <= b < batch && 0 <= j < out ensures Times(d, change)(b, j) == Times(d, response)(b, j) {
      FirstLayerDifference(x, w1, b1, w2, b2, v, c1, batch, input, hidden, b, j);
    }
    TotalExt(Times(d, change), Times(d, response), batch, out);
    FirstLayerGradient(x, pre, Hidden(pre), d, w2, v, c1, batch, input, hidden, out);
  }

  /** A gradient step moves against the gradient: paired with it, the change is never positive. */
  lemma StepDescends(g: Mat, step: Mat, lr: real, n: nat, m: nat)
    requires lr >= 0.0
    requires forall i, j :: 0 <= i < n && 0 <= j < m ==> step(i, j) == -(lr * g(i, j))
    ensures Pair(g, step, n, m) == -lr * Pair(g, g, n, m) && Pair(g, g, n, m) >= 0.0
    ensures Pair(g, step, n, m) <= 0.0
  {
    forall i, j | 0 <= i < n && 0 <= j < m
      ensures Times(g, step)(i, j) == -lr * Times(g, g)(i, j) && Times(g, g)(i, j) >= 0.0
    {
      Square(g(i, j), lr);
    }
    TotalScale(-lr, Times(g, g), Times(g, step), n, m);
    TotalNonNeg(Times(g, g), n, m);
    Negative(lr, Total(Times(g, g), n, m));
  }

  lemma Square(g: real, lr: real)
    ensures g * -(lr * g) == -lr * (g * g) && g * g >= 0.0
  {
    assert lr * g * g == lr * (g * g);
    assert g * -(lr * g) == -(g * (lr * g));
  }

  lemma Negative(lr: real, t: real)
    requires lr >= 0.0 && t >= 0.0
    ensures -lr * t <= 0.0
  {
    assert lr * t >= 0.0;
  }

  // ── flat buffers ──────────────────────────────────────────────────────────

  /** Row-major position of entry (i, j), and the size of a buffer; named so that proofs about
      loops need no multiplication. */
  function Index(i: nat, j: nat, cols: nat): nat {
    i * cols + j
  }

  function Size(rows: nat, cols: nat): nat {
    rows * cols
  }

  lemma IndexLaws(i: nat, j: nat, n: nat, m: nat)
    ensures Index(0, 0, m) == 0 && Size(0, m) == 0
    ensures Index(i, j + 1, m) == Index(i, j, m) + 1
    ensures Index(i, m, m) == Index(i + 1, 0, m) && Index(n, 0, m) == Size(n, m) && Size(n + 1, m) == Size(n, m) + m
    ensures Index(i, j, m) == Index(i, 0, m) + j
    ensures i < n && j < m ==> Index(i, j, m) < Size(n, m)
  {
    assert (i + 1) * m == i * m + m && (n + 1) * m == n * m + m;
    assert i < n ==> (i + 1) * m <= n * m;
  }

  /** A flat buffer read as a matrix with `cols` columns. */
  function Entries(s: seq<real>, cols: nat): Mat {
    (i, j) => if 0 <= i && 0 <= j && Index(i, j, cols) < |s| then s[Index(i, j, cols)] else 0.0
  }

  function Items(s: seq<real>): Vec {
    j => if 0 <= j < |s| then s[j] else 0.0
  }

  function RowSeq(f: Mat, m: nat, i: int): (s: seq<real>)
    ensures |s| == m
  {
    seq(m, j => f(i, j))
  }

  /** A matrix laid out row by row. */
  function Flat(f: Mat, n: nat, m: nat): (s: seq<real>)
    ensures |s| == Size(n, m)
  {
    IndexLaws(0, 0, n, m);
    if n == 0 then [] else (IndexLaws(0, 0, n - 1, m); Flat(f, n - 1, m) + RowSeq(f, m, n - 1))
  }

  function FlatVec(v: Vec, n: nat): (s: seq<real>)
    ensures |s| == n
  {
    seq(n, j => v(j))
  }

  /** Laying out and reading back agree. */
  lemma {:induction false} FlatEntry(f: Mat, n: nat, m: nat, i: nat, j: nat)
    requires i < n && j < m
    ensures Entries(Flat(f, n, m), m)(i, j) == f(i, j)
    decreases n
  {
    hide Index, Size;
    IndexLaws(i, j, n, m);
    IndexLaws(i, j, n - 1, m);
    var s := Flat(f, n - 1, m);
    if i < n - 1 {
      FlatEntry(f, n - 1, m, i, j);
    } else {
      assert Flat(f, n, m)[Index(i, j, m)] == RowSeq(f, m, n - 1)[j];
    }
  }

  lemma FlatAll(f: Mat, n: nat, m: nat)
    ensures forall i, j :: 0 <= i < n && 0 <= j < m ==> Entries(Flat(f, n, m), m)(i, j) == f(i, j)
  {
    hide Flat, Entries;
    forall i, j | 0 <= i < n && 0 <= j < m ensures Entries(Flat(f, n, m), m)(i, j) == f(i, j) {
      FlatEntry(f, n, m, i, j);
    }
  }

  lemma {:induction false} FlatExt(f: Mat, g: Mat, n: nat, m: nat)
    requires forall i, j :: 0 <= i < n && 0 <= j < m ==> f(i, j) == g(i, j)
    ensures Flat(f, n, m) == Flat(g, n, m)
  {
    if n > 0 {
      FlatExt(f, g, n - 1, m);
      assert RowSeq(f, m, n - 1) == RowSeq(g, m, n - 1);
    }
  }

  /** The first `i` rows and `j` entries of the next: what a row-major loop has written. */
  function Progress(f: Mat, m: nat, i: nat, j: nat): (s: seq<real>)
    requires j <= m
    ensures |s| == Index(i, j, m)
  {
    IndexLaws(i, j, i, m);
    Flat(f, i, m) + RowSeq(f, m, i)[..j]
  }

  lemma ProgressLaws(f: Mat, m: nat, i: nat, j: nat)
    requires j <= m
    ensures Progress(f, m, 0, 0) == []
    ensures Progress(f, m, i, 0) == Flat(f, i, m)
    ensures j < m ==> Progress(f, m, i, j + 1) == Progress(f, m, i, j) + [f(i, j)]
    ensures j == m ==> Progress(f, m, i, j) == Flat(f, i + 1, m) == Progress(f, m, i + 1, 0)
    ensures Index(0, 0, m) == 0 && Index(i, 0, m) == Size(i, m)
    ensures Index(i, j + 1, m) == Index(i, j, m) + 1 && Index(i, m, m) == Index(i + 1, 0, m)
  {
    hide Index, Size;
    IndexLaws(i, j, i, m);
    IndexLaws(i, j, 0, m);
  }

  // ── the loops of the source ───────────────────────────────────────────────

  /** `matmul`. */
  method MatMul(a: array<real>, b: array<real>, m: nat, k: nat, n: nat) returns (out: array<real>)
    requires a.Length == Size(m, k) && b.Length == Size(k, n)
    ensures fresh(out) && out[..] == Flat(Dot(Entries(a[..], k), Entries(b[..], n), k), m, n)
  {
    hide Index, Size, Progress, Flat, Sum, RowSeq, Dot, Entries, Product;
    out := new real[Size(m, n)];
    ghost var f, g := Entries(a[..], k), Entries(b[..], n);
    ghost var d := Dot(f, g, k);
    var i, p := 0, 0;
    ProgressLaws(d, n, 0, 0);
    while i < m
      invariant 0 <= i <= m && p == Index(i, 0, n) <= out.Length
      invariant out[..p] == Progress(d, n, i, 0)
      modifies out
    {
      var j := 0;
      while j < n
        invariant 0 <= j <= n && p == Index(i, j, n) <= out.Length
        invariant out[..p] == Progress(d, n, i, j)
        modifies out
      {
        IndexLaws(i, j, m, n);
        ProgressLaws(d, n, i, j);
        ghost var before := out[..p];
        out[p] := RowTimesColumn(a, b, i, j, m, k, n);
        assert out[..p + 1] == before + [out[p]];
        j, p := j + 1, p + 1;
      }
      ProgressLaws(d, n, i, n);
      i := i + 1;
    }
    ProgressLaws(d, n, i, 0);
    assert out[..p] == out[..];
  }

  /** The innermost loop of `matmul`. */
  method RowTimesColumn(a: array<real>, b: array<real>, i: nat, j: nat, m: nat, k: nat, n: nat) returns (acc: real)
    requires a.Length == Size(m, k) && b.Length == Size(k, n) && i < m && j < n
    ensures acc == Dot(Entries(a[..], k), Entries(b[..], n), k)(i, j)
  {
    hide Index, Size;
    ghost var f, g := Entries(a[..], k), Entries(b[..], n);
    acc := 0.0;
    var t := 0;
    while t < k
      invariant 0 <= t <= k && acc == Sum(t, Product(f, g, i, j))
    {
      IndexLaws(i, t, m, k);
      IndexLaws(t, j, k, n);
      acc := acc + a[Index(i, t, k)] * b[Index(t, j, n)];
      t := t + 1;
    }
  }

  function Biased(f: Mat, b: Vec): Mat {
    (i, j) => f(i, j) + b(j)
  }

  /** `add_bias_rows`, in place. */
  method AddBiasRows(x: array<real>, bias: array<real>, rows: nat, cols: nat)
    requires x.Length == Size(rows, cols) && bias.Length == cols && x != bias
    modifies x
    ensures x[..] == Flat(Biased(Entries(old(x[..]), cols), Items(bias[..])), rows, cols)
  {
    hide Index, Size, Progress, Flat, RowSeq;
    ghost var before := x[..];
    ghost var g := Biased(Entries(before, cols), Items(bias[..]));
    var r, p := 0, 0;
    ProgressLaws(g, cols, 0, 0);
    while r < rows
      invariant 0 <= r <= rows && p == Index(r, 0, cols) <= x.Length
      invariant x[..p] == Progress(g, cols, r, 0) && x[p..] == before[p..]
    {
      var c := 0;
      while c < cols
        invariant 0 <= c <= cols && p == Index(r, c, cols) <= x.Length
        invariant x[..p] == Progress(g, cols, r, c) && x[p..] == before[p..]
      {
        IndexLaws(r, c, rows, cols);
        ProgressLaws(g, cols, r, c);
        ghost var prefix := x[..p];
        assert x[p] == x[p..][0] == before[p];
        x[p] := x[p] + bias[c];
        assert x[..p + 1] == prefix + [x[p]];
        assert x[p + 1..] == before[p + 1..];
        c, p := c + 1, p + 1;
      }
      ProgressLaws(g, cols, r, cols);
      r := r + 1;
    }
    ProgressLaws(g, cols, r, 0);
    assert x[..p] == x[..];
  }

  function ReluSeq(s: seq<real>): (r: seq<real>) {
    seq(|s|, i requires 0 <= i < |s| => Relu(s[i]))
  }

  /** `relu_inplace`. */
  method ReluInplace(x: array<real>)
    modifies x
    ensures x[..] == ReluSeq(old(x[..]))
  {
    var i := 0;
    while i < x.Length
      invariant 0 <= i <= x.Length
      invariant forall k :: 0 <= k < i ==> x[k] == Relu(old(x[k]))
      invariant forall k :: i <= k < x.Length ==> x[k] == old(x[k])
    {
      if x[i] < 0.0 { x[i] := 0.0; }
      i := i + 1;
    }
  }

  lemma ReluEntries(s: seq<real>, m: nat)
    ensures forall i, j :: Entries(ReluSeq(s), m)(i, j) == Hidden(Entries(s, m))(i, j)
  {
    hide Index;
    forall i, j ensures Entries(ReluSeq(s), m)(i, j) == Hidden(Entries(s, m))(i, j) {
      var f := Entries(s, m);
      assert Hidden(f)(i, j) == Relu(f(i, j));
    }
  }

  lemma DotExt(f: Mat, f': Mat, g: Mat, k: nat, i: int, j: int)
    requires forall t :: 0 <= t < k ==> f(i, t) == f'(i, t)
    ensures Dot(f, g, k)(i, j) == Dot(f', g, k)(i, j)
  {
    SumExt(k, Product(f, g, i, j), Product(f', g, i, j));
  }

  /** A layer of the network, as the buffer holds it. */
  method Layer(x: array<real>, w: array<real>, b: array<real>, batch: nat, input: nat, out: nat)
      returns (y: array<real>)
    requires x.Length == Size(batch, input) && w.Length == Size(input, out) && b.Length == out
    ensures fresh(y) && y[..] == Flat(Affine(Entries(x[..], input), Entries(w[..], out), Items(b[..]), input), batch,
              out)
  {
    hide Flat, Entries, Dot;
    y := MatMul(x, w, batch, input, out);
    ghost var d := Dot(Entries(x[..], input), Entries(w[..], out), input);
    FlatAll(d, batch, out);
    AddBiasRows(y, b, batch, out);
    FlatExt(Biased(Entries(Flat(d, batch, out), out), Items(b[..])),
            Affine(Entries(x[..], input), Entries(w[..], out), Items(b[..]), input), batch, out);
  }

  /** `forward`. */
  method Forward(x: array<real>, w1: array<real>, b1: array<real>, w2: array<real>, b2: array<real>,
                 batch: nat, input: nat, hidden: nat, out: nat) returns (logits: array<real>)
    requires x.Length == Size(batch, input) && w1.Length == Size(input, hidden) && b1.Length == hidden
    requires w2.Length == Size(hidden, out) && b2.Length == out
    ensures fresh(logits)
    ensures logits[..] == Flat(Logits(Entries(x[..], input), Entries(w1[..], hidden), Items(b1[..]),
                                      Entries(w2[..], out), Items(b2[..]), input, hidden), batch, out)
  {
    hide Flat, Entries, Dot;
    var h := Layer(x, w1, b1, batch, input, hidden);
    ghost var pre := Affine(Entries(x[..], input), Entries(w1[..], hidden), Items(b1[..]), input);
    ReluInplace(h);
    HiddenBuffer(h[..], pre, batch, hidden);
    logits := Layer(h, w2, b2, batch, hidden, out);
    LayerExt(Entries(h[..], hidden), Hidden(pre), Entries(w2[..], out), Items(b2[..]), batch, hidden, out);
  }

  /** The hidden buffer after the in-place ReLU. */
  lemma HiddenBuffer(h: seq<real>, pre: Mat, batch: nat, hidden: nat)
    requires h == ReluSeq(Flat(pre, batch, hidden))
    ensures forall i, j :: 0 <= i < batch && 0 <= j < hidden ==> Entries(h, hidden)(i, j) == Hidden(pre)(i, j)
  {
    hide Flat, Entries, ReluSeq;
    FlatAll(pre, batch, hidden);
    ReluEntries(Flat(pre, batch, hidden), hidden);
  }

  lemma LayerExt(f: Mat, f': Mat, w: Mat, b: Vec, batch: nat, k: nat, out: nat)
    requires forall i, j :: 0 <= i < batch && 0 <= j < k ==> f(i, j) == f'(i, j)
    ensures Flat(Affine(f, w, b, k), batch, out) == Flat(Affine(f', w, b, k), batch, out)
  {
    hide Flat, Dot;
    forall i, j | 0 <= i < batch && 0 <= j < out ensures Affine(f, w, b, k)(i, j) == Affine(f', w, b, k)(i, j) {
      DotExt(f, f', w, k, i, j);
    }
    FlatExt(Affine(f, w, b, k), Affine(f', w, b, k), batch, out);
  }

  /** The triple loops of `dw2` and `dw1`: activations against errors, averaged over the batch. */
  method WeightGradient(x: array<real>, d: array<real>, batch: nat, n: nat, m: nat) returns (dw: array<real>)
    requires x.Length == Size(batch, n) && d.Length == Size(batch, m) && batch > 0
    ensures fresh(dw) && dw[..] == Flat(Averaged(Outer(Entries(x[..], n), Entries(d[..], m), batch), batch), n, m)
  {
    hide Index, Size, Progress, Flat, RowSeq, Sum, Dot, Entries, Product;
    dw := new real[Size(n, m)];
    ghost var f, g := Transpose(Entries(x[..], n)), Entries(d[..], m);
    ghost var a := Averaged(Dot(f, g, batch), batch);
    var i, p := 0, 0;
    ProgressLaws(a, m, 0, 0);
    while i < n
      invariant 0 <= i <= n && p == Index(i, 0, m) <= dw.Length
      invariant dw[..p] == Progress(a, m, i, 0)
      modifies dw
    {
      var j := 0;
      while j < m
        invariant 0 <= j <= m && p == Index(i, j, m) <= dw.Length
        invariant dw[..p] == Progress(a, m, i, j)
        modifies dw
      {
        IndexLaws(i, j, n, m);
        ProgressLaws(a, m, i, j);
        ghost var before := dw[..p];
        var acc := ColumnTimesColumn(x, d, i, j, batch, n, m);
        dw[p] := acc / batch as real;
        assert dw[..p + 1] == before + [dw[p]];
        j, p := j + 1, p + 1;
      }
      ProgressLaws(a, m, i, m);
      i := i + 1;
    }
    ProgressLaws(a, m, i, 0);
    assert dw[..p] == dw[..];
  }

  method ColumnTimesColumn(x: array<real>, d: array<real>, i: nat, j: nat, batch: nat, n: nat, m: nat)
      returns (acc: real)
    requires x.Length == Size(batch, n) && d.Length == Size(batch, m) && i < n && j < m
    ensures acc == Outer(Entries(x[..], n), Entries(d[..], m), batch)(i, j)
  {
    hide Index, Size;
    ghost var f, g := Transpose(Entries(x[..], n)), Entries(d[..], m);
    acc := 0.0;
    var b := 0;
    while b < batch
      invariant 0 <= b <= batch && acc == Sum(b, Product(f, g, i, j))
    {
      IndexLaws(b, i, batch, n);
      IndexLaws(b, j, batch, m);
      acc := acc + x[Index(b, i, n)] * d[Index(b, j, m)];
      b := b + 1;
    }
  }

  /** The loops of `db2` and `db1`. */
  method BiasGradient(d: array<real>, batch: nat, m: nat) returns (db: array<real>)
    requires d.Length == Size(batch, m) && batch > 0
    ensures fresh(db) && db[..] == FlatVec(AveragedVec(Cols(Entries(d[..], m), batch), batch), m)
  {
    hide Sum, Entries;
    db := new real[m];
    ghost var f := Entries(d[..], m);
    var j := 0;
    while j < m
      invariant 0 <= j <= m
      invariant forall q :: 0 <= q < j ==> db[q] == Cols(f, batch)(q) / batch as real
      modifies db
    {
      var acc := ColumnSum(d, j, batch, m);
      db[j] := acc / batch as real;
      j := j + 1;
    }
  }

  method ColumnSum(d: array<real>, j: nat, batch: nat, m: nat) returns (acc: real)
    requires d.Length == Size(batch, m) && j < m
    ensures acc == Cols(Entries(d[..], m), batch)(j)
  {
    hide Index, Size;
    ghost var f := Entries(d[..], m);
    acc := 0.0;
    var b := 0;
    while b < batch
      invariant 0 <= b <= batch && acc == Sum(b, ColOf(f, j))
    {
      IndexLaws(b, j, batch, m);
      acc := acc + d[Index(b, j, m)];
      b := b + 1;
    }
  }

  /** The loop of `dh`: the error moved back, masked by the sign of the pre-activation. */
  method HiddenError(d: array<real>, w2: array<real>, pre: array<real>, batch: nat, hidden: nat, out: nat)
      returns (dh: array<real>)
    requires d.Length == Size(batch, out) && w2.Length == Size(hidden, out) && pre.Length == Size(batch, hidden)
    ensures fresh(dh)
    ensures dh[..] == Flat(Masked(Entries(pre[..], hidden),
              BackError(Entries(d[..], out), Entries(w2[..], out), out)), batch, hidden)
  {
    hide Index, Size, Progress, Flat, RowSeq, Sum, Dot, Product, BackError;
    dh := new real[Size(batch, hidden)];
    ghost var a := Masked(Entries(pre[..], hidden), BackError(Entries(d[..], out), Entries(w2[..], out), out));
    var b, p := 0, 0;
    ProgressLaws(a, hidden, 0, 0);
    while b < batch
      invariant 0 <= b <= batch && p == Index(b, 0, hidden) <= dh.Length
      invariant dh[..p] == Progress(a, hidden, b, 0)
      modifies dh
    {
      var i := 0;
      while i < hidden
        invariant 0 <= i <= hidden && p == Index(b, i, hidden) <= dh.Length
        invariant dh[..p] == Progress(a, hidden, b, i)
        modifies dh
      {
        IndexLaws(b, i, batch, hidden);
        ProgressLaws(a, hidden, b, i);
        ghost var before := dh[..p];
        var acc := RowTimesRow(d, w2, b, i, batch, hidden, out);
        dh[p] := if pre[Index(b, i, hidden)] > 0.0 then acc else 0.0;
        assert dh[..p + 1] == before + [dh[p]];
        i, p := i + 1, p + 1;
      }
      ProgressLaws(a, hidden, b, hidden);
      b := b + 1;
    }
    ProgressLaws(a, hidden, b, 0);
    assert dh[..p] == dh[..];
  }

  method RowTimesRow(d: array<real>, w2: array<real>, b: nat, i: nat, batch: nat, hidden: nat, out: nat)
      returns (acc: real)
    requires d.Length == Size(batch, out) && w2.Length == Size(hidden, out) && b < batch && i < hidden
    ensures acc == BackError(Entries(d[..], out), Entries(w2[..], out), out)(b, i)
  {
    hide Index, Size;
    ghost var f, g := Entries(d[..], out), Transpose(Entries(w2[..], out));
    acc := 0.0;
    var j := 0;
    while j < out
      invariant 0 <= j <= out && acc == Sum(j, Product(f, g, b, i))
    {
      IndexLaws(b, j, batch, out);
      IndexLaws(i, j, hidden, out);
      acc := acc + d[Index(b, j, out)] * w2[Index(i, j, out)];
      j := j + 1;
    }
  }

  function Move(w: real, d: real, lr: real): real {
    w - lr * d
  }

  function Stepped(w: seq<real>, d: seq<real>, lr: real): seq<real>
    requires |w| == |d|
  {
    seq(|w|, k requires 0 <= k < |w| => Move(w[k], d[k], lr))
  }

  /** `*w -= lr * *d`, over the zipped buffers. */
  method Update(w: array<real>, d: array<real>, lr: real)
    requires w.Length == d.Length && w != d
    modifies w
    ensures w[..] == Stepped(old(w[..]), d[..], lr)
  {
    hide Move;
    var k := 0;
    while k < w.Length
      invariant 0 <= k <= w.Length
      invariant forall q :: 0 <= q < k ==> w[q] == Move(old(w[q]), d[q], lr)
      invariant forall q :: k <= q < w.Length ==> w[q] == old(w[q])
    {
      w[k] := Move(w[k], d[k], lr);
      k := k + 1;
    }
  }

  /** The backward pass of one mini-batch over its buffers. */
  method Backward(x: array<real>, pre: array<real>, h: array<real>, d: array<real>, w2: array<real>,
                  batch: nat, input: nat, hidden: nat, out: nat)
    returns (dw1: array<real>, db1: array<real>, dw2: array<real>, db2: array<real>)
    requires batch > 0 && x.Length == Size(batch, input) && pre.Length == Size(batch, hidden) &&
             h.Length == Size(batch, hidden)
    requires d.Length == Size(batch, out) && w2.Length == Size(hidden, out)
    ensures fresh(dw1) && fresh(db1) && fresh(dw2) && fresh(db2)
    ensures dw1 != db1 && dw1 != dw2 && dw1 != db2 && db1 != dw2 && db1 != db2 && dw2 != db2
    ensures var g := Backprop(Entries(x[..], input), Entries(pre[..], hidden), Entries(h[..], hidden),
              Entries(d[..], out),
                              Entries(w2[..], out), batch, out);
            && dw1[..] == Flat(g.dw1, input, hidden) && db1[..] == FlatVec(g.db1, hidden)
            && dw2[..] == Flat(g.dw2, hidden, out) && db2[..] == FlatVec(g.db2, out)
  {
    hide Flat, Entries, Dot, Sum;
    dw2 := WeightGradient(h, d, batch, hidden, out);
    db2 := BiasGradient(d, batch, out);
    var dh := HiddenError(d, w2, pre, batch, hidden, out);
    ghost var error := Masked(Entries(pre[..], hidden), BackError(Entries(d[..], out), Entries(w2[..], out), out));
    FlatAll(error, batch, hidden);
    dw1 := WeightGradient(x, dh, batch, input, hidden);
    db1 := BiasGradient(dh, batch, hidden);
    GradientExt(Entries(x[..], input), Entries(dh[..], hidden), error, batch, input, hidden);
  }

  /** Gradients read only the entries inside the batch. */
  lemma GradientExt(x: Mat, d: Mat, d': Mat, batch: nat, n: nat, m: nat)
    requires batch > 0 && forall b, j :: 0 <= b < batch && 0 <= j < m ==> d(b, j) == d'(b, j)
    ensures Flat(Averaged(Outer(x, d, batch), batch), n, m) == Flat(Averaged(Outer(x, d', batch), batch), n, m)
    ensures FlatVec(AveragedVec(Cols(d, batch), batch), m) == FlatVec(AveragedVec(Cols(d', batch), batch), m)
  {
    hide Flat, Sum;
    forall i, j | 0 <= i < n && 0 <= j < m
      ensures Averaged(Outer(x, d, batch), batch)(i, j) == Averaged(Outer(x, d', batch), batch)(i, j)
    {
      SumExt(batch, Product(Transpose(x), d, i, j), Product(Transpose(x), d', i, j));
    }
    FlatExt(Averaged(Outer(x, d, batch), batch), Averaged(Outer(x, d', batch), batch), n, m);
    forall j | 0 <= j < m ensures Cols(d, batch)(j) == Cols(d', batch)(j) {
      SumExt(batch, ColOf(d, j), ColOf(d', j));
    }
  }

  /** The gradients of one mini-batch, from the weights and the rule for the logits' error. */
  function BatchGradients(x: Mat, w1: Mat, b1: Vec, w2: Mat, b2: Vec, errors: seq<real> -> seq<real>,
                          batch: nat, input: nat, hidden: nat, out: nat): Gradients
    requires batch > 0
  {
    var pre := Flat(Affine(x, w1, b1, input), batch, hidden);
    var d := errors(Flat(Logits(x, w1, b1, w2, b2, input, hidden), batch, out));
    Backprop(x, Entries(pre, hidden), Entries(ReluSeq(pre), hidden), Entries(d, out), w2, batch, out)
  }

  /** Forward, the given error of the logits, and backward, for one mini-batch. */
  method BatchBackward(x: array<real>, w1: array<real>, b1: array<real>, w2: array<real>, b2: array<real>,
                       errors: seq<real> -> seq<real>, batch: nat, input: nat, hidden: nat, out: nat)
    returns (dw1: array<real>, db1: array<real>, dw2: array<real>, db2: array<real>)
    requires batch > 0 && x.Length == Size(batch, input) && w1.Length == Size(input, hidden) && b1.Length == hidden
    requires w2.Length == Size(hidden, out) && b2.Length == out
    requires forall s :: |errors(s)| == |s|
    ensures fresh(dw1) && fresh(db1) && fresh(dw2) && fresh(db2)
    ensures dw1 != db1 && dw1 != dw2 && dw1 != db2 && db1 != dw2 && db1 != db2 && dw2 != db2
    ensures var g := BatchGradients(Entries(x[..], input), Entries(w1[..], hidden), Items(b1[..]), Entries(w2[..], out),
                                    Items(b2[..]), errors, batch, input, hidden, out);
            && dw1[..] == Flat(g.dw1, input, hidden) && db1[..] == FlatVec(g.db1, hidden)
            && dw2[..] == Flat(g.dw2, hidden, out) && db2[..] == FlatVec(g.db2, out)
  {
    hide Flat, FlatVec, Entries, Items, Dot, Sum, Backprop, ReluSeq;
    var h := Layer(x, w1, b1, batch, input, hidden);
    ghost var preMat := Affine(Entries(x[..], input), Entries(w1[..], hidden), Items(b1[..]), input);
    var pre := new real[h.Length](i requires 0 <= i < h.Length reads h => h[i]);
    assert pre[..] == h[..];
    ReluInplace(h);
    HiddenBuffer(h[..], preMat, batch, hidden);
    var logits := Layer(h, w2, b2, batch, hidden, out);
    LayerExt(Entries(h[..], hidden), Hidden(preMat), Entries(w2[..], out), Items(b2[..]), batch, hidden, out);
    var e := errors(logits[..]);
    var d := new real[|e|](i requires 0 <= i < |e| => e[i]);
    assert d[..] == e;
    dw1, db1, dw2, db2 := Backward(x, pre, h, d, w2, batch, input, hidden, out);
  }

  /** One mini-batch of `train`: the weights step against the gradients, in place. */
  method TrainBatch(x: array<real>, w1: array<real>, b1: array<real>, w2: array<real>, b2: array<real>,
                    errors: seq<real> -> seq<real>, lr: real, batch: nat, input: nat, hidden: nat, out: nat)
    requires batch > 0 && x.Length == Size(batch, input) && w1.Length == Size(input, hidden) && b1.Length == hidden
    requires w2.Length == Size(hidden, out) && b2.Length == out
    requires w1 != b1 && w1 != w2 && w1 != b2 && b1 != w2 && b1 != b2 && w2 != b2
    requires x != w1 && x != b1 && x != w2 && x != b2
    requires forall s :: |errors(s)| == |s|
    modifies w1, b1, w2, b2
    ensures var g := BatchGradients(Entries(x[..], input), Entries(old(w1[..]), hidden), Items(old(b1[..])),
                                    Entries(old(w2[..]), out), Items(old(b2[..])), errors, batch, input, hidden, out);
            && w1[..] == Stepped(old(w1[..]), Flat(g.dw1, input, hidden), lr)
            && b1[..] == Stepped(old(b1[..]), FlatVec(g.db1, hidden), lr)
            && w2[..] == Stepped(old(w2[..]), Flat(g.dw2, hidden, out), lr)
            && b2[..] == Stepped(old(b2[..]), FlatVec(g.db2, out), lr)
  {
    hide BatchGradients, Flat, FlatVec, Entries, Items, Stepped;
    var dw1, db1, dw2, db2 := BatchBackward(x, w1, b1, w2, b2, errors, batch, input, hidden, out);
    Update(w1, dw1, lr);
    Update(b1, db1, lr);
    Update(w2, dw2, lr);
    Update(b2, db2, lr);
  }

  // ── what one mini-batch does to the network ───────────────────────────────

  /** A move of every entry against its gradient. */
  function Against(g: Mat, lr: real): Mat {
    (i, j) => -(lr * g(i, j))
  }

  function AgainstVec(g: Vec, lr: real): Vec {
    j => -(lr * g(j))
  }

  /** The buffer after `Update` is the old one plus that move. */
  lemma SteppedMat(w: seq<real>, g: Mat, lr: real, n: nat, m: nat)
    requires |w| == Size(n, m)
    ensures forall i, j :: 0 <= i < n && 0 <= j < m ==>
              Entries(Stepped(w, Flat(g, n, m), lr), m)(i, j) == AddMat(Entries(w, m), Against(g, lr))(i, j)
  {
    hide Flat, Index, Size;
    forall i, j | 0 <= i < n && 0 <= j < m
      ensures Entries(Stepped(w, Flat(g, n, m), lr), m)(i, j) == AddMat(Entries(w, m), Against(g, lr))(i, j)
    {
      FlatEntry(g, n, m, i, j);
      IndexLaws(i, j, n, m);
      var k := Index(i, j, m);
      assert Entries(Flat(g, n, m), m)(i, j) == Flat(g, n, m)[k];
      assert Stepped(w, Flat(g, n, m), lr)[k] == Move(w[k], Flat(g, n, m)[k], lr);
    }
  }

  lemma SteppedVec(w: seq<real>, g: Vec, lr: real, n: nat)
    requires |w| == n
    ensures forall j :: 0 <= j < n ==> Items(Stepped(w, FlatVec(g, n), lr))(j) == AddVec(Items(w), AgainstVec(g, lr))(j)
  {
    forall j | 0 <= j < n ensures Items(Stepped(w, FlatVec(g, n), lr))(j) == AddVec(Items(w), AgainstVec(g, lr))(j) {
      assert Stepped(w, FlatVec(g, n), lr)[j] == Move(w[j], g(j), lr);
    }
  }

  lemma VecDescends(g: Vec, lr: real, n: nat)
    ensures PairVec(g, AgainstVec(g, lr), n) == -lr * PairVec(g, g, n) && PairVec(g, g, n) >= 0.0
  {
    forall j | 0 <= j < n
      ensures TimesVec(g, AgainstVec(g, lr))(j) == -lr * TimesVec(g, g)(j) && TimesVec(g, g)(j) >= 0.0
    {
      Square(g(j), lr);
    }
    SumScale(n, -lr, TimesVec(g, g), TimesVec(g, AgainstVec(g, lr)));
    SumNonNeg(n, TimesVec(g, g));
  }

  /** A layer reads its weights only inside its dimensions. */
  lemma AffineExt(f: Mat, f': Mat, w: Mat, w': Mat, b: Vec, b': Vec, k: nat, i: int, j: int)
    requires forall t :: 0 <= t < k ==> f(i, t) == f'(i, t) && w(t, j) == w'(t, j)
    requires b(j) == b'(j)
    ensures Affine(f, w, b, k)(i, j) == Affine(f', w', b', k)(i, j)
  {
    SumExt(k, Product(f, w, i, j), Product(f', w', i, j));
    AffineAt(f, w, b, k, i, j);
    AffineAt(f', w', b', k, i, j);
  }

  /** The sum of squares of one layer's gradients. */
  function Squares(g: Mat, u: Vec, n: nat, m: nat): real {
    Pair(g, g, n, m) + PairVec(u, u, m)
  }

  function Lowered(batch: nat, lr: real, squares: real): real {
    -(batch as real * (lr * squares))
  }

  lemma LoweredSum(g: Mat, u: Vec, lr: real, batch: nat, n: nat, m: nat)
    requires lr >= 0.0
    ensures batch as real * (Pair(g, Against(g, lr), n, m) + PairVec(u, AgainstVec(u, lr), m)) ==
            Lowered(batch, lr, Squares(g, u, n, m))
    ensures Lowered(batch, lr, Squares(g, u, n, m)) <= 0.0
  {
    hide Pair, PairVec;
    StepDescends(g, Against(g, lr), lr, n, m);
    VecDescends(u, lr, m);
    Collected(Pair(g, g, n, m), PairVec(u, u, m), lr, batch as real);
  }

  lemma Collected(p: real, q: real, lr: real, b: real)
    requires p >= 0.0 && q >= 0.0 && lr >= 0.0 && b >= 0.0
    ensures b * (-lr * p + -lr * q) == -(b * (lr * (p + q)))
    ensures -(b * (lr * (p + q))) <= 0.0
  {
    assert -lr * p + -lr * q == -(lr * (p + q));
    assert lr * (p + q) >= 0.0;
    assert b * (lr * (p + q)) >= 0.0;
  }

  /** What a mini-batch sees: the pre-activations and the error of the logits, as buffers. */
  function PreBuffer(x: Mat, w1: Mat, b1: Vec, batch: nat, input: nat, hidden: nat): seq<real> {
    Flat(Affine(x, w1, b1, input), batch, hidden)
  }

  function ErrorBuffer(x: Mat, w1: Mat, b1: Vec, w2: Mat, b2: Vec, errors: seq<real> -> seq<real>,
                       batch: nat, input: nat, hidden: nat, out: nat): seq<real> {
    errors(Flat(Logits(x, w1, b1, w2, b2, input, hidden), batch, out))
  }

  lemma BatchGradientsAre(x: Mat, w1: Mat, b1: Vec, w2: Mat, b2: Vec, errors: seq<real> -> seq<real>,
                          batch: nat, input: nat, hidden: nat, out: nat)
    requires batch > 0
    ensures var pre, d := PreBuffer(x, w1, b1, batch, input, hidden),
              ErrorBuffer(x, w1, b1, w2, b2, errors, batch, input, hidden, out);
            BatchGradients(x, w1, b1, w2, b2, errors, batch, input, hidden, out) ==
            Backprop(x, Entries(pre, hidden), Entries(ReluSeq(pre), hidden), Entries(d, out), w2, batch, out)
  {
    hide Flat, Entries, Backprop, Affine, Logits, ReluSeq;
  }

  /** The step `TrainBatch` takes in the second layer's buffers moves the logits against their error,
      by batch times lr times the squares of that layer's gradients. */
  lemma SecondLayerStep(x: Mat, w1: Mat, b1: Vec, w2: seq<real>, b2: seq<real>, errors: seq<real> -> seq<real>,
                        lr: real,
                        batch: nat, input: nat, hidden: nat, out: nat)
    requires batch > 0 && lr >= 0.0 && |w2| == Size(hidden, out) && |b2| == out
    ensures var g := BatchGradients(x, w1, b1, Entries(w2, out), Items(b2), errors, batch, input, hidden, out);
            var d := Entries(ErrorBuffer(x, w1, b1, Entries(w2, out), Items(b2), errors, batch, input, hidden, out),
                out);
            var w2', b2' := Entries(Stepped(w2, Flat(g.dw2, hidden, out), lr), out),
                Items(Stepped(b2, FlatVec(g.db2, out), lr));
            var change := SubMat(Logits(x, w1, b1, w2', b2', input, hidden),
                Logits(x, w1, b1, Entries(w2, out), Items(b2), input, hidden));
            Pair(d, change, batch, out) == Lowered(batch, lr, Squares(g.dw2, g.db2, hidden, out)) <= 0.0
  {
    hide Flat, FlatVec, Entries, Items, Stepped, Pair, PairVec, Backprop, BatchGradients, Squares, Lowered, Affine,
         ReluSeq, ErrorBuffer, Hidden, Against, AgainstVec;
    var m2, v2 := Entries(w2, out), Items(b2);
    var pre, err := PreBuffer(x, w1, b1, batch, input, hidden),
        ErrorBuffer(x, w1, b1, m2, v2, errors, batch, input, hidden, out);
    var h := Entries(ReluSeq(pre), hidden);
    var g := BatchGradients(x, w1, b1, m2, v2, errors, batch, input, hidden, out);
    var u, c := Against(g.dw2, lr), AgainstVec(g.db2, lr);
    BatchGradientsAre(x, w1, b1, m2, v2, errors, batch, input, hidden, out);
    SecondLayerGradient(x, Entries(pre, hidden), h, Entries(err, out), m2, u, c, batch, hidden, out);
    SecondChange(x, w1, b1, w2, b2, g, lr, h, Entries(err, out), batch, input, hidden, out);
    LoweredSum(g.dw2, g.db2, lr, batch, hidden, out);
  }

  lemma SecondChange(x: Mat, w1: Mat, b1: Vec, w2: seq<real>, b2: seq<real>, g: Gradients, lr: real, h: Mat, d: Mat,
                     batch: nat, input: nat, hidden: nat, out: nat)
    requires |w2| == Size(hidden, out) && |b2| == out
    requires h == Entries(ReluSeq(PreBuffer(x, w1, b1, batch, input, hidden)), hidden)
    ensures var w2', b2' := Entries(Stepped(w2, Flat(g.dw2, hidden, out), lr), out),
              Items(Stepped(b2, FlatVec(g.db2, out), lr));
            var change := SubMat(Logits(x, w1, b1, w2', b2', input, hidden),
                Logits(x, w1, b1, Entries(w2, out), Items(b2), input, hidden));
            Pair(d, change, batch, out) == Pair(d, Affine(h, Against(g.dw2, lr), AgainstVec(g.db2, lr), hidden),
                batch, out)
  {
    hide Flat, FlatVec, Entries, Items, Stepped, Affine, ReluSeq, Hidden, Against, AgainstVec, AddMat, AddVec, Size;
    var m2, v2 := Entries(w2, out), Items(b2);
    var u, c := Against(g.dw2, lr), AgainstVec(g.db2, lr);
    var w2', b2' := Entries(Stepped(w2, Flat(g.dw2, hidden, out), lr), out),
        Items(Stepped(b2, FlatVec(g.db2, out), lr));
    var exact := Hidden(Affine(x, w1, b1, input));
    SteppedMat(w2, g.dw2, lr, hidden, out);
    SteppedVec(b2, g.db2, lr, out);
    HiddenBuffer(ReluSeq(PreBuffer(x, w1, b1, batch, input, hidden)), Affine(x, w1, b1, input), batch, hidden);
    var change := SubMat(Logits(x, w1, b1, w2', b2', input, hidden), Logits(x, w1, b1, m2, v2, input, hidden));
    forall b, j | 0 <= b < batch && 0 <= j < out
      ensures Times(d, change)(b, j) == Times(d, Affine(h, u, c, hidden))(b, j) {
      AffineExt(exact, exact, w2', AddMat(m2, u), b2', AddVec(v2, c), hidden, b, j);
      SecondLayerDifference(x, w1, b1, m2, v2, u, c, input, hidden, b, j);
      AffineExt(h, exact, u, u, c, c, hidden, b, j);
    }
    TotalExt(Times(d, change), Times(d, Affine(h, u, c, hidden)), batch, out);
  }

  /** And so does the step in the first layer's buffers, while it crosses no ReLU kink. */
  lemma FirstLayerStep(x: Mat, w1: seq<real>, b1: seq<real>, w2: Mat, b2: Vec, errors: seq<real> -> seq<real>, lr: real,
                       batch: nat, input: nat, hidden: nat, out: nat)
    requires batch > 0 && lr >= 0.0 && |w1| == Size(input, hidden) && |b1| == hidden
    requires var g := BatchGradients(x, Entries(w1, hidden), Items(b1), w2, b2, errors, batch, input, hidden, out);
             var w1', b1' := Entries(Stepped(w1, Flat(g.dw1, input, hidden), lr), hidden),
                 Items(Stepped(b1, FlatVec(g.db1, hidden), lr));
             SameSide(Affine(x, Entries(w1, hidden), Items(b1), input), Affine(x, w1', b1', input), batch, hidden)
    ensures var g := BatchGradients(x, Entries(w1, hidden), Items(b1), w2, b2, errors, batch, input, hidden, out);
            var d := Entries(ErrorBuffer(x, Entries(w1, hidden), Items(b1), w2, b2, errors, batch, input, hidden,
                out), out);
            var w1', b1' := Entries(Stepped(w1, Flat(g.dw1, input, hidden), lr), hidden),
                Items(Stepped(b1, FlatVec(g.db1, hidden), lr));
            var change := SubMat(Logits(x, w1', b1', w2, b2, input, hidden),
                Logits(x, Entries(w1, hidden), Items(b1), w2, b2, input, hidden));
            Pair(d, change, batch, out) == Lowered(batch, lr, Squares(g.dw1, g.db1, input, hidden)) <= 0.0
  {
    hide Flat, FlatVec, Entries, Items, Stepped, Pair, PairVec, Backprop, BatchGradients, Squares, Lowered, Affine,
         ReluSeq, ErrorBuffer, Hidden, Against, AgainstVec, SameSide, Logits, Dot, Masked;
    var m1, v1 := Entries(w1, hidden), Items(b1);
    var pre, err := PreBuffer(x, m1, v1, batch, input, hidden),
        ErrorBuffer(x, m1, v1, w2, b2, errors, batch, input, hidden, out);
    var g := BatchGradients(x, m1, v1, w2, b2, errors, batch, input, hidden, out);
    BatchGradientsAre(x, m1, v1, w2, b2, errors, batch, input, hidden, out);
    FirstLayerGradient(x, Entries(pre, hidden), Entries(ReluSeq(pre), hidden), Entries(err, out), w2,
        Against(g.dw1, lr), AgainstVec(g.db1, lr), batch, input, hidden, out);
    FirstChange(x, w1, b1, w2, b2, g, lr, Entries(pre, hidden), Entries(err, out), batch, input, hidden, out);
    LoweredSum(g.dw1, g.db1, lr, batch, input, hidden);
  }

  lemma FirstChange(x: Mat, w1: seq<real>, b1: seq<real>, w2: Mat, b2: Vec, g: Gradients, lr: real, pre: Mat, d: Mat,
                    batch: nat, input: nat, hidden: nat, out: nat)
    requires |w1| == Size(input, hidden) && |b1| == hidden
    requires pre == Entries(PreBuffer(x, Entries(w1, hidden), Items(b1), batch, input, hidden), hidden)
    requires var w1', b1' := Entries(Stepped(w1, Flat(g.dw1, input, hidden), lr), hidden),
               Items(Stepped(b1, FlatVec(g.db1, hidden), lr));
             SameSide(Affine(x, Entries(w1, hidden), Items(b1), input), Affine(x, w1', b1', input), batch, hidden)
    ensures var w1', b1' := Entries(Stepped(w1, Flat(g.dw1, input, hidden), lr), hidden),
              Items(Stepped(b1, FlatVec(g.db1, hidden), lr));
            var change := SubMat(Logits(x, w1', b1', w2, b2, input, hidden),
                Logits(x, Entries(w1, hidden), Items(b1), w2, b2, input, hidden));
            Pair(d, change, batch, out) ==
            Pair(d, Dot(Masked(pre, Affine(x, Against(g.dw1, lr), AgainstVec(g.db1, lr), input)), w2, hidden), batch,
                out)
  {
    hide Flat, FlatVec, Entries, Items, Stepped, Affine, ReluSeq, Hidden, Against, AgainstVec, AddMat, AddVec, Size,
         Dot, Logits, Masked, SameSide;
    var m1, v1 := Entries(w1, hidden), Items(b1);
    var v, c := Against(g.dw1, lr), AgainstVec(g.db1, lr);
    var w1', b1' := Entries(Stepped(w1, Flat(g.dw1, input, hidden), lr), hidden),
        Items(Stepped(b1, FlatVec(g.db1, hidden), lr));
    SteppedMat(w1, g.dw1, lr, input, hidden);
    SteppedVec(b1, g.db1, lr, hidden);
    MovedSide(x, m1, v1, w1', b1', v, c, batch, input, hidden);
    FlatAll(Affine(x, m1, v1, input), batch, hidden);
    var change := SubMat(Logits(x, w1', b1', w2, b2, input, hidden), Logits(x, m1, v1, w2, b2, input, hidden));
    var response := Dot(Masked(pre, Affine(x, v, c, input)), w2, hidden);
    forall b, j | 0 <= b < batch && 0 <= j < out ensures Times(d, change)(b, j) == Times(d, response)(b, j) {
      MovedLogits(x, w1', AddMat(m1, v), b1', AddVec(v1, c), w2, b2, input, hidden, b, j);
      FirstLayerDifference(x, m1, v1, w2, b2, v, c, batch, input, hidden, b, j);
      MaskedExt(pre, Affine(x, m1, v1, input), Affine(x, v, c, input), w2, batch, hidden, b, j);
    }
    TotalExt(Times(d, change), Times(d, response), batch, out);
  }

  /** The stepped first layer, and the exact sum it equals inside its dimensions. */
  lemma MovedSide(x: Mat, w: Mat, b: Vec, w': Mat, b': Vec, v: Mat, c: Vec, batch: nat, input: nat, hidden: nat)
    requires forall i, j :: 0 <= i < input && 0 <= j < hidden ==> w'(i, j) == AddMat(w, v)(i, j)
    requires forall j :: 0 <= j < hidden ==> b'(j) == AddVec(b, c)(j)
    requires SameSide(Affine(x, w, b, input), Affine(x, w', b', input), batch, hidden)
    ensures SameSide(Affine(x, w, b, input), Affine(x, AddMat(w, v), AddVec(b, c), input), batch, hidden)
  {
    hide Affine, AddMat, AddVec;
    forall r, j | 0 <= r < batch && 0 <= j < hidden
      ensures Affine(x, w', b', input)(r, j) == Affine(x, AddMat(w, v), AddVec(b, c), input)(r, j)
    {
      AffineExt(x, x, w', AddMat(w, v), b', AddVec(b, c), input, r, j);
    }
  }

  lemma MovedLogits(x: Mat, w: Mat, w': Mat, b: Vec, b': Vec, w2: Mat, b2: Vec, input: nat, hidden: nat, r: int, j: int)
    requires forall i, t :: 0 <= i < input && 0 <= t < hidden ==> w(i, t) == w'(i, t)
    requires forall t :: 0 <= t < hidden ==> b(t) == b'(t)
    ensures Logits(x, w, b, w2, b2, input, hidden)(r, j) == Logits(x, w', b', w2, b2, input, hidden)(r, j)
  {
    hide Affine;
    var f, f' := Affine(x, w, b, input), Affine(x, w', b', input);
    forall t | 0 <= t < hidden ensures Hidden(f)(r, t) == Hidden(f')(r, t) {
      AffineExt(x, x, w, w', b, b', input, r, t);
    }
    AffineExt(Hidden(f), Hidden(f'), w2, w2, b2, b2, hidden, r, j);
  }

  lemma MaskedExt(pre: Mat, pre': Mat, f: Mat, w: Mat, batch: nat, hidden: nat, b: int, j: int)
    requires forall r, t :: 0 <= r < batch && 0 <= t < hidden ==> pre(r, t) == pre'(r, t)
    requires 0 <= b < batch
    ensures Dot(Masked(pre, f), w, hidden)(b, j) == Dot(Masked(pre', f), w, hidden)(b, j)
  {
    hide Dot;
    forall t | 0 <= t < hidden ensures Masked(pre, f)(b, t) == Masked(pre', f)(b, t) {
    }
    DotExt(Masked(pre, f), Masked(pre', f), w, hidden, b, j);
  }
}
