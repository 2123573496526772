/** Cohort-size-dependent policy: how many buckets a round waits for, and the timing that goes
    with a cohort of that size. Milliseconds are reals. */
module Policy {

  datatype Timing = Timing(beat: real, drop: real, collect: real, takeover: real)

  datatype Policy = Policy(n: nat, quorum: nat, beat: real, drop: real, takeover: real, collect: real)

  const DefaultTiming := Timing(400.0, 1600.0, 2000.0, 3200.0)

  function Max(a: real, b: real): (r: real)
    ensures r >= a && r >= b && (r == a || r == b)
  {
    if a < b then b else a
  }

  function Min(a: real, b: real): (r: real)
    ensures r <= a && r <= b && (r == a || r == b)
  {
    if a < b then a else b
  }

  function MinNat(a: nat, b: nat): (r: nat)
    ensures r <= a && r <= b && (r == a || r == b)
  {
    if a < b then a else b
  }

  /** The nearest integer, halves upward. */
  function Nearest(x: real): (r: int)
    ensures x - 0.5 < r as real <= x + 0.5
  {
    (x + 0.5).Floor
  }

  /** Unanimous up to three ranks, then three fifths rounded up, never fewer than two. */
  function Quorum(n: nat): nat {
    if n <= 3 then n
    else if (3 * n + 4) / 5 < 2 then 2
    else (3 * n + 4) / 5
  }

  /** How far a period is stretched for `n` ranks. */
  function Stretch(n: nat): (r: real)
    ensures r >= 1.0
  {
    Max(1.0, n as real / 4.0)
  }

  function Stretched(beat: real, n: nat): real {
    beat * Stretch(n)
  }

  function BeatFor(n: nat, T: Timing): real {
    Nearest(Stretched(T.beat, n)) as real
  }

  /** How long buckets are waited for before it is bounded. */
  function Patience(n: nat, T: Timing): real {
    T.collect * (1.0 + n as real / 16.0)
  }

  function PolicyFor(n: nat, T: Timing): (p: Policy)
    ensures p.drop >= T.drop && p.takeover >= T.takeover
  {
    var beat := BeatFor(n, T);
    Policy(n, Quorum(n), beat, Max(T.drop, beat * 4.0), Max(T.takeover, beat * 8.0),
           Min(T.collect * 3.0, Nearest(Patience(n, T)) as real))
  }

  /** A quorum is a strict majority of the cohort it was sized for, and can be met. */
  lemma QuorumMajority(n: nat)
    requires n >= 1
    ensures 1 <= Quorum(n) <= n && 2 * Quorum(n) > n
  {
  }

  /** Everyone up to three; from four on the least number, two at least, that is three fifths. */
  lemma QuorumIsLeast(n: nat, q: nat)
    ensures n <= 3 ==> Quorum(n) == n
    ensures n >= 4 ==> (Quorum(n) <= q <==> 5 * q >= 3 * n && q >= 2)
  {
  }

  /** The times that go with a size: the beat is the nearest whole number to the stretched one, with no
      stretch up to four ranks; silence is told from four beats and a lost leader from eight, but never
      sooner than at the smallest size; and the wait for buckets is bounded by three times its own. */
  lemma PolicyTimes(n: nat, T: Timing, d: real) returns (slack: int)
    ensures var p, stretched := PolicyFor(n, T), if n <= 4 then T.beat else T.beat * (n as real / 4.0);
            && p.n == n && p.quorum == Quorum(n)
            && p.beat == p.beat.Floor as real && stretched - 0.5 < p.beat <= stretched + 0.5
            && (p.drop <= d <==> T.drop <= d && 4.0 * p.beat <= d)
            && (p.takeover <= d <==> T.takeover <= d && 8.0 * p.beat <= d)
            && (d <= p.collect <==> d <= 3.0 * T.collect && d <= slack as real)
    ensures T.collect * (1.0 + n as real / 16.0) - 0.5 < slack as real <= T.collect * (1.0 + n as real / 16.0) + 0.5
  {
    hide PolicyFor, BeatFor;
    BeatIs(n, T);
    slack := CollectIs(n, T);
    TimesFromBeat(n, T);
  }

  lemma TimesFromBeat(n: nat, T: Timing)
    ensures var p := PolicyFor(n, T);
            && p.n == n && p.quorum == Quorum(n) && p.beat == BeatFor(n, T)
            && p.drop == Max(T.drop, p.beat * 4.0) && p.takeover == Max(T.takeover, p.beat * 8.0)
  {
    hide BeatFor, Nearest, Quorum;
  }

  lemma CollectIs(n: nat, T: Timing) returns (slack: int)
    ensures PolicyFor(n, T).collect == Min(T.collect * 3.0, slack as real)
    ensures T.collect * (1.0 + n as real / 16.0) - 0.5 < slack as real <= T.collect * (1.0 + n as real / 16.0) + 0.5
  {
    hide BeatFor, Quorum, Nearest;
    slack := Nearest(Patience(n, T));
  }

  lemma BeatIs(n: nat, T: Timing)
    ensures var beat, stretched := BeatFor(n, T), if n <= 4 then T.beat else T.beat * (n as real / 4.0);
            beat == beat.Floor as real && stretched - 0.5 < beat <= stretched + 0.5
  {
    hide Nearest;
    assert Stretch(n) == if n <= 4 then 1.0 else n as real / 4.0;
  }

  /** With the default timing: a lone rank, and a cohort of twenty. */
  lemma DefaultPolicies()
    ensures PolicyFor(1, DefaultTiming) == Policy(1, 1, 400.0, 1600.0, 3200.0, 2125.0)
    ensures PolicyFor(20, DefaultTiming) == Policy(20, 12, 2000.0, 8000.0, 16000.0, 4500.0)
  {
    hide BeatFor, PolicyFor;
    BeatIs(1, DefaultTiming);
    BeatIs(20, DefaultTiming);
    TimesFromBeat(1, DefaultTiming);
    TimesFromBeat(20, DefaultTiming);
    var one := CollectIs(1, DefaultTiming);
    var twenty := CollectIs(20, DefaultTiming);
    assert one == 2125 && twenty == 4500;
  }

  lemma QuorumGrows(m: nat, n: nat)
    requires m <= n
    ensures Quorum(m) <= Quorum(n)
  {
  }

  /** The fewest buckets a round over `cohort` resolves on by quorum, under the policy for `n`. */
  function Needed(cohort: set<nat>, n: nat): nat {
    MinNat(|cohort|, Quorum(n))
  }

  /** Contributors enough for a quorum: the leader of the round, always, and otherwise ranks of its
      cohort, to which the leader need not belong. */
  ghost predicate Meets(s: set<nat>, leader: nat, cohort: set<nat>, n: nat) {
    leader in s && s <= cohort + {leader} && |s| >= Needed(cohort, n)
  }

  lemma {:induction false} Smaller(a: set<nat>, b: set<nat>)
    requires a <= b
    ensures |a| <= |b|
    decreases |a|
  {
    if a != {} {
      var x :| x in a;
      assert a - {x} <= b - {x};
      Smaller(a - {x}, b - {x});
    }
  }

  /** Any size up to that of the whole can be picked. */
  lemma {:induction false} Pick(s: set<nat>, k: nat) returns (p: set<nat>)
    requires k <= |s|
    ensures p <= s && |p| == k
    decreases k
  {
    if k == 0 {
      p := {};
    } else {
      var x :| x in s;
      p := Pick(s - {x}, k - 1);
      p := p + {x};
    }
  }

  /** Exactly when any two quorums over one cohort share a rank, whoever leads the rounds and
      whichever policies they cached: one leader, or more buckets asked for than the ranks other
      than the leaders can keep apart. The guard can be checked before a round is opened. */
  lemma QuorumsMeet(cohort: set<nat>, a: nat, n: nat, b: nat, n': nat)
    requires cohort != {} && n >= 1 && n' >= 1
    ensures (forall s, t :: Meets(s, a, cohort, n) && Meets(t, b, cohort, n') ==> s * t != {})
            <==> a == b || Needed(cohort, n) + Needed(cohort, n') > |cohort - {a, b}| + 2
  {
    hide Quorum, Needed;
    SomeNeeded(cohort, n);
    SomeNeeded(cohort, n');
    if a != b && Needed(cohort, n) + Needed(cohort, n') <= |cohort - {a, b}| + 2 {
      var s, t := KeptApart(cohort, a, Needed(cohort, n), b, Needed(cohort, n'));
      assert Meets(s, a, cohort, n) && Meets(t, b, cohort, n');
    } else {
      forall s, t | Meets(s, a, cohort, n) && Meets(t, b, cohort, n') ensures s * t != {} {
        ApartLeavesRoom(cohort, a, b, s, t);
      }
    }
  }

  lemma SomeNeeded(cohort: set<nat>, n: nat)
    requires cohort != {} && n >= 1
    ensures Needed(cohort, n) >= 1
  {
    QuorumMajority(n);
  }

  /** Contributor sets of given sizes, with nobody in common, when there is room for them. */
  lemma KeptApart(cohort: set<nat>, a: nat, p: nat, b: nat, q: nat) returns (s: set<nat>, t: set<nat>)
    requires a != b && p >= 1 && q >= 1 && p + q <= |cohort - {a, b}| + 2
    ensures a in s && s <= cohort + {a} && |s| == p && b in t && t <= cohort + {b} && |t| == q && s * t == {}
  {
    var rest := cohort - {a, b};
    s := Pick(rest, p - 1);
    assert |rest - s| == |rest| - |s|;
    t := Pick(rest - s, q - 1);
    s := s + {a};
    t := t + {b};
  }

  /** Disjoint contributor sets leave the ranks other than the leaders to be shared out. */
  lemma ApartLeavesRoom(cohort: set<nat>, a: nat, b: nat, s: set<nat>, t: set<nat>)
    requires a in s && b in t && s <= cohort + {a} && t <= cohort + {b}
    ensures s * t == {} ==> a != b && |s| + |t| <= |cohort - {a, b}| + 2
  {
    if s * t == {} {
      var p, q := s - {a}, t - {b};
      assert p * q == {} && |p + q| == |p| + |q|;
      assert b !in s && a !in t;
      Smaller(p + q, cohort - {a, b});
    }
  }

  /** How many of the two leaders are outside the cohort. */
  function Outside(cohort: set<nat>, a: nat, b: nat): nat {
    (if a in cohort then 0 else 1) + (if b in cohort then 0 else 1)
  }

  lemma RestSize(cohort: set<nat>, a: nat, b: nat)
    requires a != b
    ensures |cohort - {a, b}| + 2 == |cohort| + Outside(cohort, a, b)
  {
    var one := cohort - {a};
    assert |one| == |cohort| - if a in cohort then 1 else 0;
    assert cohort - {a, b} == one - {b};
    assert |one - {b}| == |one| - if b in cohort then 1 else 0;
  }

  /** The cohort sizes at which a quorum sized for the cohort suffices, by leaders outside it: all
      of them, all but five, and all but six sizes. */
  predicate SizeSuffices(size: nat, outside: nat) {
    if outside == 0 then true
    else if outside == 1 then size != 5
    else size !in {2, 4, 5, 6, 8, 10}
  }

  lemma SizesSuffice(size: nat, outside: nat)
    requires size >= 2 && outside <= 2
    ensures 2 * Quorum(size) > size + outside <==> SizeSuffices(size, outside)
  {
  }

  /** Policies sized for at least the cohort make every two quorums share a rank, for every cohort
      whose size suffices; always when both leaders are in it. */
  lemma FreshPolicyMeets(cohort: set<nat>, a: nat, n: nat, b: nat, n': nat, s: set<nat>, t: set<nat>)
    requires 2 <= |cohort| <= n && |cohort| <= n' && Meets(s, a, cohort, n) && Meets(t, b, cohort, n')
    requires a == b || SizeSuffices(|cohort|, Outside(cohort, a, b))
    ensures s * t != {}
  {
    hide Quorum, SizeSuffices;
    QuorumMajority(n);
    QuorumMajority(n');
    QuorumMajority(|cohort|);
    QuorumGrows(|cohort|, n);
    QuorumGrows(|cohort|, n');
    if a != b {
      RestSize(cohort, a, b);
      SizesSuffice(|cohort|, Outside(cohort, a, b));
    }
    QuorumsMeet(cohort, a, n, b, n');
  }

  /** And five is no idle exception: rank 1, outside its own cohort of five, and rank 2 can reach the
      quorum that the policy for five asks for with nobody in common. */
  lemma FiveSplits()
    ensures var cohort, s, t := {2, 3, 4, 5, 6}, {1, 3, 4}, {2, 5, 6};
            |cohort| == 5 && Meets(s, 1, cohort, 5) && Meets(t, 2, cohort, 5) && s * t == {}
  {
  }

  /** A policy cached before the cohort grew does not suffice: two halves of six pass for a quorum. */
  lemma StalePolicySplits()
    ensures var cohort, s, t := {1, 2, 3, 4, 5, 6}, {1, 2, 3}, {4, 5, 6};
            |cohort| == 6 && Meets(s, 1, cohort, 3) && Meets(t, 4, cohort, 3) && s * t == {}
  {
  }

  /** A bigger cohort beats no faster, and silence of four beats never evicts, nor eight depose. */
  lemma PolicySlack(m: nat, n: nat, T: Timing)
    requires m <= n && T.beat >= 0.0
    ensures PolicyFor(m, T).beat <= PolicyFor(n, T).beat
    ensures PolicyFor(n, T).drop >= 4.0 * PolicyFor(n, T).beat
    ensures PolicyFor(n, T).takeover >= 8.0 * PolicyFor(n, T).beat
    ensures PolicyFor(m, T).drop <= PolicyFor(n, T).drop
  {
    hide BeatFor, Quorum;
    BeatGrows(m, n, T);
  }

  lemma BeatGrows(m: nat, n: nat, T: Timing)
    requires m <= n && T.beat >= 0.0
    ensures BeatFor(m, T) <= BeatFor(n, T)
  {
    hide Nearest, Stretched;
    StretchGrows(T.beat, m, n);
    NearestGrows(Stretched(T.beat, m), Stretched(T.beat, n));
  }

  lemma StretchGrows(beat: real, m: nat, n: nat)
    requires m <= n && beat >= 0.0
    ensures Stretched(beat, m) <= Stretched(beat, n)
  {
    Increasing(m, n);
    ScaleUp(beat, Stretch(m), Stretch(n));
  }

  lemma Increasing(m: nat, n: nat)
    requires m <= n
    ensures Stretch(m) <= Stretch(n)
  {
  }

  lemma NearestGrows(x: real, y: real)
    requires x <= y
    ensures Nearest(x) <= Nearest(y)
  {
    hide Nearest;
    assert Nearest(x) > Nearest(y) ==> Nearest(x) as real >= Nearest(y) as real + 1.0;
  }

  lemma ScaleUp(c: real, a: real, b: real)
    requires c >= 0.0 && a <= b
    ensures c * a <= c * b
  {
  }
}
