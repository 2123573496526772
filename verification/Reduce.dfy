/** Shards and the sample-weighted mean: which window of the shared dataset each rank of a round
    computes, and what averaging the buckets that came back means. */
module Reduce {
  import opened Wrappers

  type Id = nat

  /** Window starts are stored as unsigned 32-bit words. */
  const Word: nat := 0x1_0000_0000

  /** One collected bucket. `start` and `term` are history: where its window begins and which
      leadership term of the collecting rank asked for it. No branch reads them. */
  datatype Bucket = Bucket(id: Id, samples: nat, g: seq<real>, start: Option<nat>, term: nat)

  ghost predicate Distinct(ids: seq<Id>) {
    forall i, j :: 0 <= i < j < |ids| ==> ids[i] != ids[j]
  }

  // ── assignment ────────────────────────────────────────────────────────────

  function Size(batches: map<Id, nat>, k: Id): nat {
    if k in batches then batches[k] else 0
  }

  function Offset(ids: seq<Id>, batches: map<Id, nat>, n: nat): nat
    requires n <= |ids|
  {
    if n == 0 then 0 else Offset(ids, batches, n - 1) + Size(batches, ids[n - 1])
  }

  /** The samples one round consumes; the leader's own batch counts even when a stop during the
      backpressure wait has taken the leader out of its own cohort. */
  function RoundSize(id: Id, ids: seq<Id>, batches: map<Id, nat>): nat {
    (if id in ids then 0 else Size(batches, id)) + Offset(ids, batches, |ids|)
  }

  /** The first `n` windows of a round whose first sample is `base`. */
  function Assign(ids: seq<Id>, batches: map<Id, nat>, base: nat, n: nat): (a: map<Id, nat>)
    requires n <= |ids|
  {
    if n == 0 then map[]
    else Assign(ids, batches, base, n - 1)[ids[n - 1] := (base + Offset(ids, batches, n - 1)) % Word]
  }

  lemma {:induction false} AssignAt(ids: seq<Id>, batches: map<Id, nat>, base: nat, n: nat, k: nat)
    requires k < n <= |ids| && Distinct(ids)
    ensures ids[k] in Assign(ids, batches, base, n)
    ensures Assign(ids, batches, base, n)[ids[k]] == (base + Offset(ids, batches, k)) % Word
  {
    if k < n - 1 { AssignAt(ids, batches, base, n - 1, k); }
  }

  lemma {:induction false} AssignKeys(ids: seq<Id>, batches: map<Id, nat>, base: nat, n: nat, k: Id)
    requires n <= |ids|
    ensures k in Assign(ids, batches, base, n) <==> k in ids[..n]
  {
    if n > 0 { AssignKeys(ids, batches, base, n - 1, k); }
  }

  lemma {:induction false} OffsetGrows(ids: seq<Id>, batches: map<Id, nat>, m: nat, n: nat)
    requires m < n <= |ids|
    ensures Offset(ids, batches, m) + Size(batches, ids[m]) <= Offset(ids, batches, n)
  {
    if m < n - 1 { OffsetGrows(ids, batches, m, n - 1); }
  }

  /** `x` lies in the `k`-th window. */
  ghost predicate InWindow(ids: seq<Id>, batches: map<Id, nat>, base: nat, k: nat, x: nat) {
    k < |ids| && base + Offset(ids, batches, k) <= x < base + Offset(ids, batches, k) + Size(batches, ids[k])
  }

  /** The windows are disjoint. */
  lemma WindowsDisjoint(ids: seq<Id>, batches: map<Id, nat>, base: nat, j: nat, k: nat, x: nat)
    requires InWindow(ids, batches, base, j, x) && InWindow(ids, batches, base, k, x)
    ensures j == k
  {
    if j < k { OffsetGrows(ids, batches, j, k); }
    if k < j { OffsetGrows(ids, batches, k, j); }
  }

  lemma {:induction false} WindowsCover(ids: seq<Id>, batches: map<Id, nat>, base: nat, n: nat, x: nat)
    requires n <= |ids| && base <= x < base + Offset(ids, batches, n)
    ensures exists k :: InWindow(ids, batches, base, k, x)
  {
    if x < base + Offset(ids, batches, n - 1) {
      WindowsCover(ids, batches, base, n - 1, x);
    } else {
      assert InWindow(ids, batches, base, n - 1, x);
    }
  }

  /** Sample `x` is computed by exactly one rank of the round. */
  ghost predicate ComputedOnce(ids: seq<Id>, batches: map<Id, nat>, base: nat, x: nat) {
    && (exists k :: InWindow(ids, batches, base, k, x))
    && (forall j, k :: InWindow(ids, batches, base, j, x) && InWindow(ids, batches, base, k, x) ==> j == k)
  }

  /** The first sample of a step. */
  function Base(step: nat, total: nat): (b: nat) {
    step * total
  }

  lemma NextBase(step: nat, total: nat)
    ensures Base(step + 1, total) == Base(step, total) + total
  {
  }

  /** The windows of step `step` tile `[step·total, (step+1)·total)` exactly when the leader is in
      its own cohort; otherwise the last batch of the range is computed by nobody. */
  lemma WindowsTile(id: Id, ids: seq<Id>, batches: map<Id, nat>, step: nat)
    requires id in batches && batches[id] > 0
    ensures var total := RoundSize(id, ids, batches);
            (forall x: nat :: Base(step, total) <= x < Base(step + 1, total) ==>
              ComputedOnce(ids, batches, Base(step, total), x))
            <==> id in ids
    ensures var total := RoundSize(id, ids, batches);
            forall k: nat, x: nat :: InWindow(ids, batches, Base(step, total), k, x) ==>
                   Base(step, total) <= x < Base(step + 1, total)
  {
    hide Base;
    var total := RoundSize(id, ids, batches);
    var base := Base(step, total);
    NextBase(step, total);
    var sum := Offset(ids, batches, |ids|);
    forall x | base <= x < base + sum ensures ComputedOnce(ids, batches, base, x) {
      WindowsCover(ids, batches, base, |ids|, x);
      forall j, k | InWindow(ids, batches, base, j, x) && InWindow(ids, batches, base, k, x) ensures j == k {
        WindowsDisjoint(ids, batches, base, j, k, x);
      }
    }
    forall k, x | InWindow(ids, batches, base, k, x) ensures base <= x < base + sum {
      OffsetGrows(ids, batches, k, |ids|);
    }
    assert id !in ids ==> !ComputedOnce(ids, batches, base, base + sum) && sum < total;
  }

  // ── collection ────────────────────────────────────────────────────────────

  /** Where `id` stands in insertion order; the length when it is not there. */
  function Find(got: seq<Bucket>, id: Id): (i: nat)
    ensures i <= |got|
    ensures i < |got| ==> got[i].id == id
    ensures forall j :: 0 <= j < i ==> got[j].id != id
  {
    if got == [] then 0 else if got[0].id == id then 0 else Find(got[1..], id) + 1
  }

  /** `got.set(e.id, e)`: a second bucket from one rank replaces the first. */
  function Put(got: seq<Bucket>, e: Bucket): seq<Bucket> {
    var i := Find(got, e.id);
    if i < |got| then got[i := e] else got + [e]
  }

  ghost predicate OnePerRank(got: seq<Bucket>) {
    forall i, j :: 0 <= i < j < |got| ==> got[i].id != got[j].id
  }

  function Ranks(got: seq<Bucket>): set<Id> {
    set e | e in got :: e.id
  }

  /** However often and in whatever order buckets arrive, each rank is counted once. */
  lemma PutKeeps(got: seq<Bucket>, e: Bucket)
    requires OnePerRank(got)
    ensures OnePerRank(Put(got, e)) && Ranks(Put(got, e)) == Ranks(got) + {e.id}
    ensures forall b :: b in Put(got, e) <==> b == e || (b in got && b.id != e.id)
  {
    var i := Find(got, e.id);
    var now := Put(got, e);
    assert now[i] == e;
    assert i < |got| ==> got[i].id == e.id;
    forall b ensures b in now <==> b == e || (b in got && b.id != e.id) {
      if b in got && b.id != e.id {
        var j :| 0 <= j < |got| && got[j] == b;
        assert now[j] == b;
      }
      if b in now {
        var j :| 0 <= j < |now| && now[j] == b;
        assert j != i ==> got[j] == b && got[j].id != e.id;
      }
    }
    assert forall k :: k in Ranks(got) && k != e.id ==> k in Ranks(now) by {
      forall k | k in Ranks(got) && k != e.id ensures k in Ranks(now) {
        var b :| b in got && b.id == k;
        assert b in now;
      }
    }
  }

  // ── the sample-weighted mean ──────────────────────────────────────────────

  function Samples(got: seq<Bucket>): nat {
    if got == [] then 0 else Samples(got[..|got| - 1]) + got[|got| - 1].samples
  }

  /** A round always holds the leader's own bucket, so its total is never zero. */
  function Share(samples: nat, total: nat): real {
    if total == 0 then 0.0 else samples as real / total as real
  }

  function At(g: seq<real>, i: nat): real {
    if i < |g| then g[i] else 0.0
  }

  /** `w * e.g[i]`. */
  function Part(e: Bucket, total: nat, i: nat): real {
    Share(e.samples, total) * At(e.g, i)
  }

  function Blend(got: seq<Bucket>, total: nat, i: nat): real {
    if got == [] then 0.0
    else
      var e := got[|got| - 1];
      Blend(got[..|got| - 1], total, i) + Part(e, total, i)
  }

  function Average(got: seq<Bucket>, length: nat): (avg: seq<real>)
    ensures |avg| == length
  {
    seq(length, i requires i >= 0 => Blend(got, Samples(got), i))
  }

  function SumRange(lo: int, n: nat, h: int -> real): real {
    if n == 0 then 0.0 else SumRange(lo, n - 1, h) + h(lo + n - 1)
  }

  /** The sum over those samples of `[lo, lo + n)` that are in `u`, each once. */
  function SumOver(lo: int, n: nat, u: set<int>, h: int -> real): real {
    if n == 0 then 0.0
    else SumOver(lo, n - 1, u, h) + if lo + n - 1 in u then h(lo + n - 1) else 0.0
  }

  /** `[lo, lo + n)`. */
  function Range(lo: int, n: nat): (r: set<int>)
    ensures forall x :: x in r <==> lo <= x < lo + n
    ensures |r| == n
  {
    if n == 0 then {} else Range(lo, n - 1) + {lo + n - 1}
  }

  function Window(e: Bucket): set<int> {
    if e.start.None? then {} else Range(e.start.value, e.samples)
  }

  function Windows(got: seq<Bucket>): set<int> {
    if got == [] then {} else Windows(got[..|got| - 1]) + Window(got[|got| - 1])
  }

  function Mean(sum: real, n: nat): real {
    if n == 0 then 0.0 else sum / n as real
  }

  /** What a rank's bucket is taken to be: the mean of a per-sample quantity over its window. A bucket
      without a window, a leader's own when its round does not count it in, may be anything. */
  ghost predicate MeanOverWindow(e: Bucket, h: int -> real, i: nat) {
    e.samples > 0 && (e.start.Some? ==> At(e.g, i) == Mean(SumRange(e.start.value, e.samples, h), e.samples))
  }

  /** What the buckets without a window put into a sum of samples, and how many samples they claim. */
  function Stray(got: seq<Bucket>, i: nat): real {
    if got == [] then 0.0
    else
      var e := got[|got| - 1];
      Stray(got[..|got| - 1], i) + if e.start.None? then Weighed(At(e.g, i), e.samples) else 0.0
  }

  function StraySamples(got: seq<Bucket>): nat {
    if got == [] then 0
    else
      var e := got[|got| - 1];
      StraySamples(got[..|got| - 1]) + if e.start.None? then e.samples else 0
  }

  lemma {:induction false} NoStray(got: seq<Bucket>, i: nat)
    requires forall e :: e in got ==> e.start.Some?
    ensures Stray(got, i) == 0.0 && StraySamples(got) == 0
  {
    if got != [] {
      assert got[|got| - 1] in got && forall b :: b in got[..|got| - 1] ==> b in got;
      NoStray(got[..|got| - 1], i);
    }
  }

  /** One stray bucket, and what it contributes. */
  lemma {:induction false} OneStray(got: seq<Bucket>, own: Bucket, i: nat)
    requires OnePerRank(got) && own in got && own.start.None? && forall e :: e in got && e.id != own.id ==>
             e.start.Some?
    ensures Stray(got, i) == Weighed(At(own.g, i), own.samples) && StraySamples(got) == own.samples
  {
    hide Weighed;
    var front, e := got[..|got| - 1], got[|got| - 1];
    assert e in got && forall b :: b in front ==> b in got;
    var k :| 0 <= k < |got| && got[k] == own;
    if k == |got| - 1 {
      forall b | b in front ensures b.start.Some? {
        var j :| 0 <= j < |front| && front[j] == b;
        assert got[j].id != own.id;
      }
      NoStray(front, i);
    } else {
      assert front[k] == own;
      OneStray(front, own, i);
    }
  }

  ghost predicate Apart(got: seq<Bucket>) {
    forall i, j :: 0 <= i < j < |got| ==> Window(got[i]) !! Window(got[j])
  }

  lemma {:induction false} SumOverSplit(lo: int, n: nat, u: set<int>, v: set<int>, h: int -> real)
    requires u !! v
    ensures SumOver(lo, n, u + v, h) == SumOver(lo, n, u, h) + SumOver(lo, n, v, h)
  {
    if n > 0 { SumOverSplit(lo, n - 1, u, v, h); }
  }

  lemma {:induction false} SumOverNothing(lo: int, n: nat, u: set<int>, h: int -> real)
    requires forall x :: x in u ==> !(lo <= x < lo + n)
    ensures SumOver(lo, n, u, h) == 0.0
  {
    if n > 0 { SumOverNothing(lo, n - 1, u, h); }
  }

  lemma {:induction false} SumOverWindow(lo: int, n: nat, a: int, k: nat, u: set<int>, h: int -> real)
    requires forall x :: x in u <==> a <= x < a + k
    requires lo <= a && a + k <= lo + n
    ensures SumOver(lo, n, u, h) == SumRange(a, k, h)
    decreases n
  {
    if k == 0 {
      SumOverNothing(lo, n, u, h);
    } else if a + k < lo + n {
      SumOverWindow(lo, n - 1, a, k, u, h);
    } else {
      var rest := u - {a + k - 1};
      SumOverSame(lo, n - 1, u, rest, h);
      SumOverWindow(lo, n - 1, a, k - 1, rest, h);
    }
  }

  lemma {:induction false} SumOverSame(lo: int, n: nat, u: set<int>, v: set<int>, h: int -> real)
    requires forall x :: x in u && lo <= x < lo + n ==> x in v
    requires forall x :: x in v && lo <= x < lo + n ==> x in u
    ensures SumOver(lo, n, u, h) == SumOver(lo, n, v, h)
  {
    if n > 0 { SumOverSame(lo, n - 1, u, v, h); }
  }

  lemma {:induction false} WindowsMember(got: seq<Bucket>, x: int) returns (i: nat)
    requires x in Windows(got)
    ensures i < |got| && x in Window(got[i])
  {
    hide Window;
    i := |got| - 1;
    if x !in Window(got[i]) { i := WindowsMember(got[..i], x); }
  }

  /** Weighted by samples, the buckets of disjoint windows add up to the plain sum over their
      union, and the union holds as many samples as were claimed, strays apart. */
  lemma {:induction false} BlendIsSum(got: seq<Bucket>, total: nat, i: nat, lo: int, n: nat, h: int -> real)
    requires Apart(got) && total > 0
    requires forall e :: e in got ==> MeanOverWindow(e, h, i) && Window(e) <= Range(lo, n)
    ensures Weighed(Blend(got, total, i), total) == SumOver(lo, n, Windows(got), h) + Stray(got, i)
    ensures |Windows(got)| + StraySamples(got) == Samples(got)
  {
    hide MeanOverWindow, Weighed, Range, Window, SumOver, At, Share, Part;
    if got == [] {
      SumOverNothing(lo, n, {}, h);
      WeighedZero(total);
    } else {
      var front, e := got[..|got| - 1], got[|got| - 1];
      assert e in got && forall b :: b in front ==> b in got;
      BlendIsSum(front, total, i, lo, n, h);
      LastApart(got);
      SumOverSplit(lo, n, Windows(front), Window(e), h);
      assert |Windows(front) + Window(e)| == |Windows(front)| + |Window(e)|;
      OneBlend(e, total, i, lo, n, h);
      WeighedSum(Blend(front, total, i), Part(e, total, i), total);
    }
  }

  function Weighed(x: real, total: nat): real {
    x * total as real
  }

  lemma WeighedZero(total: nat)
    ensures Weighed(0.0, total) == 0.0
  {
  }

  lemma WeighedSum(x: real, y: real, total: nat)
    ensures Weighed(x + y, total) == Weighed(x, total) + Weighed(y, total)
  {
  }

  lemma LastApart(got: seq<Bucket>)
    requires Apart(got) && got != []
    ensures Windows(got[..|got| - 1]) !! Window(got[|got| - 1])
  {
    var front, e := got[..|got| - 1], got[|got| - 1];
    forall x | x in Windows(front) ensures x !in Window(e) {
      var i := WindowsMember(front, x);
    }
  }

  lemma OneBlend(e: Bucket, total: nat, i: nat, lo: int, n: nat, h: int -> real)
    requires total > 0 && MeanOverWindow(e, h, i) && Window(e) <= Range(lo, n)
    ensures Weighed(Part(e, total, i), total) ==
            SumOver(lo, n, Window(e), h) + if e.start.None? then Weighed(At(e.g, i), e.samples) else 0.0
    ensures |Window(e)| + (if e.start.None? then e.samples else 0) == e.samples
  {
    hide Part, Weighed, SumRange, SumOver, Mean;
    if e.start.Some? {
      var a, k := e.start.value, e.samples;
      assert a in Window(e) && a + k - 1 in Window(e);
      SumOverWindow(lo, n, a, k, Window(e), h);
      Cancel(e, total, i, SumRange(a, k, h));
    } else {
      SumOverNothing(lo, n, {}, h);
      CancelTotal(e, total, i);
    }
  }

  lemma CancelTotal(e: Bucket, total: nat, i: nat)
    requires total > 0
    ensures Weighed(Part(e, total, i), total) == Weighed(At(e.g, i), e.samples)
  {
    var k, t, x := e.samples as real, total as real, At(e.g, i);
    assert (k / t) * x * t == ((k / t) * t) * x;
    assert (k / t) * t == k;
  }

  lemma Cancel(e: Bucket, total: nat, i: nat, s: real)
    requires e.samples > 0 && total > 0 && At(e.g, i) == Mean(s, e.samples)
    ensures Weighed(Part(e, total, i), total) == s
  {
    var x, y := e.samples as real, total as real;
    assert (x / y) * (s / x) == s / y;
    assert s / y * y == s;
  }

  /** `assign[k]`, undefined when the leader has not counted `k`. */
  function StartOf(assign: map<Id, nat>, k: Id): Option<nat> {
    if k in assign then Some(assign[k]) else None
  }

  /** Buckets answering one round: each from a distinct rank of the cohort, over the window that
      rank was assigned, with the batch it was assigned for. */
  ghost predicate Answers(got: seq<Bucket>, ids: seq<Id>, batches: map<Id, nat>, base: nat) {
    && Distinct(ids) && OnePerRank(got)
    && base + Offset(ids, batches, |ids|) <= Word
    && forall e :: e in got ==> Answer(e, ids, batches, base)
  }

  ghost predicate Answer(e: Bucket, ids: seq<Id>, batches: map<Id, nat>, base: nat) {
    && e.id in ids && e.samples > 0 && e.samples == Size(batches, e.id)
    && e.start == StartOf(Assign(ids, batches, base, |ids|), e.id)
  }

  lemma AnswerWindow(e: Bucket, ids: seq<Id>, batches: map<Id, nat>, base: nat) returns (k: nat)
    requires Distinct(ids) && base + Offset(ids, batches, |ids|) <= Word && Answer(e, ids, batches, base)
    ensures k < |ids| && ids[k] == e.id && e.start.Some?
    ensures forall x :: x in Window(e) ==> x >= 0 && InWindow(ids, batches, base, k, x)
    ensures Window(e) <= Range(base, Offset(ids, batches, |ids|))
  {
    hide Assign, Offset;
    k :| 0 <= k < |ids| && ids[k] == e.id;
    AssignAt(ids, batches, base, |ids|, k);
    OffsetGrows(ids, batches, k, |ids|);
  }

  lemma AnswersApart(got: seq<Bucket>, ids: seq<Id>, batches: map<Id, nat>, base: nat)
    requires Answers(got, ids, batches, base)
    ensures Apart(got)
  {
    hide Answer, Window, InWindow;
    forall i, j | 0 <= i < j < |got| ensures Window(got[i]) !! Window(got[j]) {
      var a := AnswerWindow(got[i], ids, batches, base);
      var b := AnswerWindow(got[j], ids, batches, base);
      forall x | x in Window(got[i]) ensures x !in Window(got[j]) {
        if x in Window(got[j]) { WindowsDisjoint(ids, batches, base, a, b, x); }
      }
    }
  }

  /** Gradient conservation: below 2^32, whichever ranks answered, coordinate `i` of the weighted
      average is the plain mean over the disjoint union of their windows, each sample once. */
  lemma AverageIsPlainMean(got: seq<Bucket>, ids: seq<Id>, batches: map<Id, nat>, base: nat,
                           length: nat, i: nat, h: int -> real)
    requires Answers(got, ids, batches, base) && got != [] && i < length
    requires forall e :: e in got ==> MeanOverWindow(e, h, i)
    ensures |Windows(got)| == Samples(got) > 0
    ensures Windows(got) <= Range(base, Offset(ids, batches, |ids|))
    ensures Average(got, length)[i] ==
            Mean(SumOver(base, Offset(ids, batches, |ids|), Windows(got), h), |Windows(got)|)
  {
    hide MeanOverWindow, Answer, Window, Offset, SumOver, Mean, Weighed, Range, Windows, Apart, Blend;
    var n := Offset(ids, batches, |ids|);
    AnswersApart(got, ids, batches, base);
    forall e | e in got ensures e.start.Some? && Window(e) <= Range(base, n) {
      var k := AnswerWindow(e, ids, batches, base);
    }
    SomeSamples(got, ids, batches, base);
    NoStray(got, i);
    BlendIsSum(got, Samples(got), i, base, n, h);
    forall x | x in Windows(got) ensures x in Range(base, n) { var k := WindowsMember(got, x); }
    Divide(Blend(got, Samples(got), i), Samples(got));
  }

  /** Buckets over disjoint windows, wherever they lie: the weighted average, times the samples, is
      the plain sum over their union and what strays put in; without strays it is the plain mean. */
  lemma ApartAverage(got: seq<Bucket>, length: nat, i: nat, h: int -> real, lo: int, n: nat)
    requires got != [] && Apart(got) && i < length
    requires forall e :: e in got ==> MeanOverWindow(e, h, i) && Window(e) <= Range(lo, n)
    ensures |Windows(got)| + StraySamples(got) == Samples(got) > 0
    ensures Weighed(Average(got, length)[i], Samples(got)) == SumOver(lo, n, Windows(got), h) + Stray(got, i)
    ensures (forall e :: e in got ==> e.start.Some?) ==>
              Average(got, length)[i] == Mean(SumOver(lo, n, Windows(got), h), |Windows(got)|)
  {
    hide Window, SumOver, Mean, Weighed, Range, Windows, Apart, Blend, At, Stray;
    assert got[|got| - 1] in got;
    BlendIsSum(got, Samples(got), i, lo, n, h);
    Divide(Blend(got, Samples(got), i), Samples(got));
    if forall e :: e in got ==> e.start.Some? { NoStray(got, i); }
  }

  /** Exactly when no sample is counted twice: when the windows are apart. */
  lemma {:induction false} CountedOnceIff(got: seq<Bucket>)
    ensures |Windows(got)| + StraySamples(got) <= Samples(got)
    ensures |Windows(got)| + StraySamples(got) == Samples(got) <==> Apart(got)
  {
    hide Range;
    if got != [] {
      var front, e := got[..|got| - 1], got[|got| - 1];
      CountedOnceIff(front);
      UnionSize(Windows(front), Window(e));
      ApartFront(got);
    }
  }

  lemma UnionSize(a: set<int>, b: set<int>)
    ensures |a + b| <= |a| + |b|
    ensures |a + b| == |a| + |b| <==> a !! b
  {
    assert |a + b| + |a * b| == |a| + |b|;
  }

  /** Apart, one bucket at a time. */
  lemma ApartFront(got: seq<Bucket>)
    requires got != []
    ensures Apart(got) <==> Apart(got[..|got| - 1]) && Windows(got[..|got| - 1]) !! Window(got[|got| - 1])
  {
    hide Window;
    var front, e := got[..|got| - 1], got[|got| - 1];
    if Apart(got) { LastApart(got); }
    if Windows(front) !! Window(e) && Apart(front) {
      forall i, j | 0 <= i < j < |got| ensures Window(got[i]) !! Window(got[j]) {
        if j == |got| - 1 {
          WindowInUnion(front, i);
        }
      }
    }
  }

  lemma {:induction false} WindowInUnion(got: seq<Bucket>, i: nat)
    requires i < |got|
    ensures Window(got[i]) <= Windows(got)
  {
    hide Window;
    if i < |got| - 1 { WindowInUnion(got[..|got| - 1], i); }
  }

  lemma SomeSamples(got: seq<Bucket>, ids: seq<Id>, batches: map<Id, nat>, base: nat)
    requires Answers(got, ids, batches, base) && got != []
    ensures Samples(got) > 0
  {
    assert got[|got| - 1] in got;
  }

  lemma Divide(x: real, t: nat)
    requires t > 0
    ensures Mean(Weighed(x, t), t) == x
  {
  }
}
