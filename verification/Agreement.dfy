/** Whole-run agreement and bucket soundness: what the cluster invariant means for the ranks. */
module Agreement {
  import opened Wrappers
  import opened Reduce
  import opened Protocol
  import opened RankSafety
  import opened Cluster

  /** Two rounds of one leader, term and step carry the same parameters: what it held then, as the
      wire delivers it. */
  lemma RoundsAgree(mcs: Machines, c: Cluster, m: Msg, n: Msg)
    requires Reachable(mcs, c) && m in c.net && m.Round? && n in c.net && n.Round? && KeyOfRound(m) == KeyOfRound(n)
    ensures Known(mcs, c, KeyOfRound(m)) && m.params == Published(mcs, c, KeyOfRound(m)) && n.params == m.params
  {
    hide Reachable, SoundRank, Canonical, Wire;
    ReachableInv(mcs, c);
    assert SoundMsg(mcs, c, m) && SoundMsg(mcs, c, n);
  }

  /** A rank that adopted a round, and has completed none since, holds exactly what that leader
      published at that step of that term. */
  lemma FollowersHold(mcs: Machines, c: Cluster, a: Id)
    requires Reachable(mcs, c) && a in c.ranks && c.ranks[a].origin.Some?
    ensures var o := c.ranks[a].origin.value;
            var key := Key(o.from, o.term, c.ranks[a].step);
            Known(mcs, c, key) && c.ranks[a].params == Published(mcs, c, key)
  {
    hide Reachable, Canonical, Wire, Working, Gathering, Valid;
    ReachableInv(mcs, c);
    assert SoundRank(mcs, c, a, c.ranks[a]);
  }

  /** Agreement: two ranks following one term of one leader, at one step, are identical. */
  lemma FollowersAgree(mcs: Machines, c: Cluster, a: Id, b: Id)
    requires Reachable(mcs, c) && a in c.ranks && b in c.ranks
    requires c.ranks[a].origin.Some? && c.ranks[a].origin == c.ranks[b].origin && c.ranks[a].step == c.ranks[b].step
    ensures c.ranks[a].params == c.ranks[b].params
  {
    hide Reachable, Wire;
    FollowersHold(mcs, c, a);
    FollowersHold(mcs, c, b);
  }

  /** The term of `id` has seen a round completed: its first page is older than its present step. */
  ghost predicate HasLed(c: Cluster, id: Id, r: Rank) {
    exists first :: first in c.held && first.id == id && first.term == r.term && first.step < r.step
  }

  /** After its first completed round a leader holds what the wire leaves alone. */
  lemma LeaderCanonical(mcs: Machines, c: Cluster, id: Id)
    requires Inv(mcs, c) && id in c.ranks && HasLed(c, id, c.ranks[id])
    ensures id in mcs && Wire(mcs[id], c.ranks[id].params) == c.ranks[id].params
  {
    hide Wire, Following, Working, Gathering, RosterTrue, Valid, SoundMsg;
    assert SoundRank(mcs, c, id, c.ranks[id]);
  }

  /** Whole-run agreement with the leader: a follower at the leader's present term and step holds
      the leader's parameters as the wire delivers them, and, once the leader has completed one
      round of that term, the leader's own, bit for bit. */
  lemma FollowerMatchesLeader(mcs: Machines, c: Cluster, a: Id, l: Id)
    requires Reachable(mcs, c) && a in c.ranks && l in c.ranks
    requires c.ranks[a].origin == Some(Origin(l, c.ranks[l].term)) && c.ranks[a].step == c.ranks[l].step
    ensures l in mcs && c.ranks[a].params == Wire(mcs[l], c.ranks[l].params)
    ensures HasLed(c, l, c.ranks[l]) ==> c.ranks[a].params == c.ranks[l].params
  {
    hide Reachable, Wire, Working, Gathering, Valid, Canonical, SoundMsg, HasLed;
    ReachableInv(mcs, c);
    FollowersHold(mcs, c, a);
    assert SoundRank(mcs, c, l, c.ranks[l]);
    if HasLed(c, l, c.ranks[l]) { LeaderCanonical(mcs, c, l); }
  }

  // ── one precision for all ─────────────────────────────────────────────────

  ghost predicate Uniform(mcs: Machines) {
    forall a, b :: a in mcs && b in mcs ==> mcs[a].precision == mcs[b].precision
  }

  /** Everything any rank ever held, but for its own initial parameters, the wire leaves alone. */
  ghost predicate AllCanonical(mcs: Machines, c: Cluster) {
    forall key :: key in c.held && !(key.term == 0 && key.step == 0) ==>
      key.id in mcs && Wire(mcs[key.id], c.held[key]) == c.held[key]
  }

  lemma SameWire(a: Machine, b: Machine, v: Params)
    requires a.precision == b.precision
    ensures Wire(a, Wire(b, v)) == Wire(b, v)
  {
    WireTwice(b, v);
  }

  lemma AdoptedCanonical(mcs: Machines, c: Cluster, l: Label)
    requires Inv(mcs, c) && Uniform(mcs) && CanStep(mcs, c, l)
    requires Adopted(mcs[l.id], c.ranks[l.id], l.input.event, After(mcs, c, l).ranks[l.id])
    ensures var s := After(mcs, c, l).ranks[l.id]; Wire(mcs[l.id], s.params) == s.params
  {
    hide Step, Enabled, SoundRank, Canonical, Wire, Sound, Below;
    var m := l.input.event.m;
    assert SoundMsg(mcs, c, m);
    SameWire(mcs[l.id], mcs[m.from], c.held[KeyOfRound(m)]);
  }

  lemma AllCanonicalKept(mcs: Machines, c: Cluster, l: Label)
    requires Inv(mcs, c) && Uniform(mcs) && AllCanonical(mcs, c) && CanStep(mcs, c, l)
    ensures AllCanonical(mcs, After(mcs, c, l))
  {
    hide Step, Enabled, Valid, Following, Working, RosterTrue, Gathering, Canonical, SoundMsg, Below, Vouched, Quiet,
         Completed, Adopted, Wire;
    var mc, r, s := mcs[l.id], c.ranks[l.id], After(mcs, c, l).ranks[l.id];
    assert SoundRank(mcs, c, l.id, r);
    ParametersMove(mc, r, l.input);
    if Completed(mc, r, s) { CompletedCanonical(mc, r, s); }
    if Adopted(mc, r, l.input.event, s) { AdoptedCanonical(mcs, c, l); }
  }

  lemma {:induction false} RunCanonical(mcs: Machines, cs: seq<Cluster>, labels: seq<Label>, n: nat)
    requires IsRun(mcs, cs, labels) && Inv(mcs, cs[0]) && Uniform(mcs) && AllCanonical(mcs, cs[0]) && n < |cs|
    ensures AllCanonical(mcs, cs[n])
  {
    hide Inv, CanStep, After, AllCanonical, Uniform;
    if n > 0 {
      RunCanonical(mcs, cs, labels, n - 1);
      RunKeeps(mcs, cs, labels, n - 1);
      assert StepTo(mcs, cs, labels, n - 1);
      AllCanonicalKept(mcs, cs[n - 1], labels[n - 1]);
    }
  }

  /** With one precision for all, a follower is identical to its leader from the moment the leader
      has adopted or completed anything at all: a takeover never publishes what it does not hold. */
  lemma FollowerEqualsLeader(mcs: Machines, c: Cluster, a: Id, l: Id)
    requires Reachable(mcs, c) && Uniform(mcs) && a in c.ranks && l in c.ranks
    requires c.ranks[a].origin == Some(Origin(l, c.ranks[l].term)) && c.ranks[a].step == c.ranks[l].step
    requires c.ranks[l].term > 0 || c.ranks[l].step > 0
    ensures c.ranks[a].params == c.ranks[l].params
  {
    hide Inv, Uniform, IsRun, Initial, Wire, AllCanonical;
    FollowerMatchesLeader(mcs, c, a, l);
    var cs, labels :| LeadsTo(mcs, cs, labels, c);
    RunLength(mcs, cs, labels);
    InitialInv(mcs, cs[0]);
    InitialCanonical(mcs, cs[0]);
    RunCanonical(mcs, cs, labels, |labels|);
    RunKeeps(mcs, cs, labels, |labels|);
    HeldCanonical(mcs, c, l);
  }

  lemma InitialCanonical(mcs: Machines, c: Cluster)
    requires Initial(mcs, c)
    ensures AllCanonical(mcs, c)
  {
  }

  lemma HeldCanonical(mcs: Machines, c: Cluster, l: Id)
    requires Inv(mcs, c) && AllCanonical(mcs, c) && l in c.ranks && (c.ranks[l].term > 0 || c.ranks[l].step > 0)
    ensures l in mcs && Wire(mcs[l], c.ranks[l].params) == c.ranks[l].params
  {
    hide Valid, Following, Working, RosterTrue, Gathering, Canonical, SoundMsg, Wire;
    assert SoundRank(mcs, c, l, c.ranks[l]);
  }

  // ── bucket soundness ──────────────────────────────────────────────────────

  /** A drive with nothing left to wait for: alone with its own gradients, or collected. */
  ghost predicate Finishing(r: Rank) {
    (r.pc.OwnGrads? && |r.pc.drive.cohort| <= 1) || (r.pc.Collecting? && r.pc.drive.settled)
  }

  /** Any event that moves parameters or step without adopting completes a finishing drive: one step
      on, with the average of exactly the buckets that drive holds applied, once, and the result
      put through the wire. */
  lemma AdvanceAppliesAverage(mc: Machine, r: Rank, i: Input)
    requires Enabled(r, i.event)
    ensures var s := Step(mc, r, i).rank;
            s.term == r.term && (s.step != r.step || s.params != r.params) ==>
              && Finishing(r) && s.step == r.step + 1
              && s.params == Wire(mc, mc.apply(r.params, Average(Averaged(mc, r), mc.bucketLen), r.lr))
  {
    hide Step, Enabled, Wire, Average, Averaged, Vouched, Quiet;
    ParametersMove(mc, r, i);
  }

  /** The leader sent `m` with the present step number, and `m` assigned a window to `k`, another rank
      of the present cohort. */
  ghost predicate Reassigned(c: Cluster, id: Id, r: Rank, m: Msg, k: Id)
    requires Driving(r)
  {
    m in c.net && m.Round? && m.from == id && m.step == r.step && k in m.assign && k in r.pc.drive.cohort && k != id
  }

  /** In no earlier term did this leader send a round with the present step number that assigned a
      window to another rank of the present cohort: a test on the rounds it sent itself. */
  ghost predicate NoReuse(c: Cluster, id: Id, r: Rank)
    requires Driving(r)
  {
    forall m, k :: Reassigned(c, id, r, m, k) ==>
      m.term == r.term
  }

  /** A bucket against the parameters of the step being completed. */
  ghost predicate Current(mc: Machine, from: Machine, r: Rank, e: Bucket) {
    e.samples == from.batch && e.start.Some? && e.g == Wire(from, from.grads(Wire(mc, r.params), e.start))
  }

  lemma AveragedFacts(mc: Machine, r: Rank)
    requires Valid(mc, r) && Finishing(r)
    ensures var got := Averaged(mc, r);
            && OnePerRank(got) && OwnBucket(mc, r, r.pc.drive) in got
            && forall e :: e in got && e.id != mc.id ==> e in r.pc.drive.got && e.id in r.pc.drive.cohort
  {
    hide Put, OnePerRank, Ranks, Windowed, CollectionOpen;
    PutKeeps(r.pc.drive.got, OwnBucket(mc, r, r.pc.drive));
  }

  lemma OnlyOne(got: seq<Bucket>, d: Bucket, e: Bucket)
    requires OnePerRank(got) && d in got && e in got && d.id == e.id
    ensures d == e
  {
  }

  /** Whatever is averaged into a step: each rank once, the leader's own bucket always among them,
      and every other one from the opened cohort, computed by its rank over a window it was assigned
      and against what this leader published for this step number, and against the parameters of
      the present term if its own term is the present one or the number was not reused. The
      leader's own is from the cohort too, and has a window, exactly when its round counts it in. */
  lemma BucketSoundness(mcs: Machines, c: Cluster, id: Id)
    requires Reachable(mcs, c) && id in c.ranks && id in mcs && Finishing(c.ranks[id])
    ensures var mc, r := mcs[id], c.ranks[id];
            var got, own := Averaged(mc, r), OwnBucket(mc, r, r.pc.drive);
            && OnePerRank(got) && own in got
            && ((forall e :: e in got ==> e.id in r.pc.drive.cohort) <==> id in r.pc.drive.cohort)
            && (own.start.Some? <==> id in r.pc.drive.cohort)
            && (forall e :: e in got && e.id == id ==> e == own)
            && (forall e :: e in got && e.id != id ==>
                 && e.id in r.pc.drive.cohort && e.id in mcs && SoundBucket(mcs, c, id, r, e)
                 && (e.term == r.term || NoReuse(c, id, r) ==> Current(mc, mcs[e.id], r, e)))
  {
    hide Reachable, SoundMsg, Canonical, Following, Working, RosterTrue, Valid, Average, Wire, Current,
         SoundBucket, Averaged, OwnBucket, OnePerRank, Announced, TrueBatches, NoReuse;
    var mc, r := mcs[id], c.ranks[id];
    ReachableInv(mcs, c);
    assert SoundRank(mcs, c, id, r);
    AveragedFacts(mc, r);
    var own := OwnBucket(mc, r, r.pc.drive);
    OwnId(mc, r);
    OwnWindow(mc, r);
    forall e | e in Averaged(mc, r) && e.id == id ensures e == own { OnlyOne(Averaged(mc, r), own, e); }
    forall e | e in Averaged(mc, r) && e.id != id
      ensures e.id in mcs && SoundBucket(mcs, c, id, r, e)
      ensures e.term == r.term || NoReuse(c, id, r) ==> Current(mc, mcs[e.id], r, e)
    {
      BucketCurrent(mcs, c, id, r, e);
    }
  }

  /** The own bucket has a window exactly when the round counts its leader in. */
  lemma OwnWindow(mc: Machine, r: Rank)
    requires Valid(mc, r) && Driving(r)
    ensures OwnBucket(mc, r, r.pc.drive).start.Some? <==> mc.id in r.pc.drive.cohort
  {
    hide Base, RoundSize, Assign, FromCohort, CollectionOpen;
    var d := r.pc.drive;
    AssignKeys(d.cohort, d.batches, Base(r.step, RoundSize(mc.id, d.cohort, d.batches)), |d.cohort|, mc.id);
    assert d.cohort[..|d.cohort|] == d.cohort;
  }

  lemma OwnId(mc: Machine, r: Rank)
    requires Driving(r)
    ensures OwnBucket(mc, r, r.pc.drive).id == mc.id
  {
  }

  lemma BucketCurrent(mcs: Machines, c: Cluster, id: Id, r: Rank, e: Bucket)
    requires SoundRank(mcs, c, id, r) && Driving(r) && SoundBucket(mcs, c, id, r, e) && e.id != id &&
             e.id in r.pc.drive.cohort
    ensures e.id in mcs && (e.term == r.term || NoReuse(c, id, r) ==> Current(mcs[id], mcs[e.id], r, e))
  {
    hide Valid, Following, Working, RosterTrue, Gathering, Wire;
    var m :| m in c.net && m.Round? && KeyOfRound(m) == Key(id, e.term, r.step) && e.id in m.assign;
    assert Reassigned(c, id, r, m, e.id);
  }

  /** What a collection asks of a bucket. The term is not part of it. */
  predicate Takes(mc: Machine, r: Rank, m: Msg)
    requires Driving(r)
  {
    m.Grad? && !r.disposed && m.from != mc.id && m.to == mc.id && r.pending.Some? && m.step == r.step &&
      m.from in r.pc.drive.cohort
  }

  /** Exactly which buckets a collection lets in. */
  lemma TakenIff(mc: Machine, r: Rank, m: Msg, now: real)
    requires Valid(mc, r) && Driving(r) && m.Grad? && BucketOf(m) !in r.pc.drive.got
    ensures var s := OnMessage(mc, r, m, now).rank;
            Driving(s) && (BucketOf(m) in s.pc.drive.got <==> Takes(mc, r, m))
  {
    hide Heard, Put, OnePerRank, Windowed, OwnBucket, Ranks;
    PutKeeps(r.pc.drive.got, BucketOf(m));
  }

  /** The bucket a rank would send in answer to a round that assigns it a window. */
  function AnswerTo(mcs: Machines, m: Msg, k: Id): Msg
    requires m.Round? && k in m.assign && k in mcs
  {
    GradOf(mcs[k], Work(m.from, m.step, m.assign[k], m.params, m.term))
  }

  lemma AnswerSound(mcs: Machines, c: Cluster, m: Msg, k: Id)
    requires Configured(mcs) && m in c.net && m.Round? && SoundMsg(mcs, c, m) && k in m.assign && k in mcs
    ensures SoundMsg(mcs, c, AnswerTo(mcs, m, k))
  {
    hide Wire;
    var w := Work(m.from, m.step, m.assign[k], m.params, m.term);
    assert Assigned(c, KeyOfRound(m), k, m.assign[k]);
  }

  lemma BucketAnswersRound(mcs: Machines, c: Cluster, m: Msg) returns (round: Msg)
    requires SoundMsg(mcs, c, m) && m.Grad?
    ensures round in c.net && round.Round? && KeyOfRound(round) == Key(m.to, m.term, m.step)
    ensures m.from in round.assign && round.assign[m.from] == m.start
  {
    hide Wire;
    round :| round in c.net && round.Round? && KeyOfRound(round) == Key(m.to, m.term, m.step) &&
      m.from in round.assign && round.assign[m.from] == m.start;
  }

  /** Exactly when every bucket that can be taken is of this term: when the step number was not used
      before. Any other use lets through a bucket that its rank rightly computed for that round. */
  lemma TermsMatchIff(mcs: Machines, c: Cluster, id: Id)
    requires Reachable(mcs, c) && id in c.ranks && id in mcs
    requires Driving(c.ranks[id]) && c.ranks[id].pending.Some? && !c.ranks[id].disposed
    ensures (forall m :: SoundMsg(mcs, c, m) && Takes(mcs[id], c.ranks[id], m) ==> m.term == c.ranks[id].term) <==>
            NoReuse(c, id, c.ranks[id])
  {
    hide Reachable, SoundMsg, Canonical, Following, Working, RosterTrue, Valid, Wire, GradOf;
    var r := c.ranks[id];
    ReachableInv(mcs, c);
    assert SoundRank(mcs, c, id, r);
    if NoReuse(c, id, r) {
      forall m | SoundMsg(mcs, c, m) && Takes(mcs[id], r, m) ensures m.term == r.term {
        var round := BucketAnswersRound(mcs, c, m);
        assert Reassigned(c, id, r, round, m.from);
      }
    } else {
      var m, k :| Reassigned(c, id, r, m, k) && m.term != r.term;
      AnswerSound(mcs, c, m, k);
      AnswerFields(mcs, m, k);
      assert Takes(mcs[id], r, AnswerTo(mcs, m, k));
    }
  }

  lemma AnswerFields(mcs: Machines, m: Msg, k: Id)
    requires Configured(mcs) && m.Round? && k in m.assign && k in mcs
    ensures var g := AnswerTo(mcs, m, k);
            g.Grad? && g.from == k && g.to == m.from && g.step == m.step && g.term == m.term && g.start == m.assign[k]
  {
    hide Wire;
  }

  /** The leader's own bucket is against the published parameters too, once it has completed a
      round of this term; before that it is against its own unrounded ones. */
  lemma OwnBucketCurrent(mcs: Machines, c: Cluster, id: Id)
    requires Reachable(mcs, c) && id in c.ranks && id in mcs && Driving(c.ranks[id])
    ensures var mc, r := mcs[id], c.ranks[id];
            var own := OwnBucket(mc, r, r.pc.drive);
            && own.g == mc.grads(r.params, own.start) && own.samples == mc.batch
            && (HasLed(c, id, r) ==> own.g == mc.grads(Wire(mc, r.params), own.start))
  {
    hide Reachable, Inv, Wire, HasLed;
    ReachableInv(mcs, c);
    if HasLed(c, id, c.ranks[id]) { LeaderCanonical(mcs, c, id); }
  }

  // ── gradient conservation ─────────────────────────────────────────────────

  /** Every round this leader sent with the present step number, in this term or an earlier one,
      gave each other rank of the present cohort the window it has now, or none. */
  ghost predicate SameWindowsSent(c: Cluster, id: Id, r: Rank)
    requires Driving(r)
  {
    forall m, k :: Reassigned(c, id, r, m, k) ==>
      Some(m.assign[k]) == StartOf(r.pc.drive.assign, k)
  }

  /** Exactly when every bucket that can be taken covers the window assigned now. */
  lemma WindowsMatchIff(mcs: Machines, c: Cluster, id: Id)
    requires Reachable(mcs, c) && id in c.ranks && id in mcs
    requires Driving(c.ranks[id]) && c.ranks[id].pending.Some? && !c.ranks[id].disposed
    ensures (forall m :: SoundMsg(mcs, c, m) && Takes(mcs[id], c.ranks[id], m) ==>
            Some(m.start) == StartOf(c.ranks[id].pc.drive.assign, m.from))
            <==> SameWindowsSent(c, id, c.ranks[id])
  {
    hide Reachable, SoundMsg, Canonical, Following, Working, RosterTrue, Valid, Wire, GradOf;
    var r := c.ranks[id];
    ReachableInv(mcs, c);
    assert SoundRank(mcs, c, id, r);
    if SameWindowsSent(c, id, r) {
      forall m | SoundMsg(mcs, c, m) && Takes(mcs[id], r, m)
        ensures Some(m.start) == StartOf(r.pc.drive.assign, m.from) {
        var round := BucketAnswersRound(mcs, c, m);
        assert Reassigned(c, id, r, round, m.from);
      }
    } else {
      var m, k :| Reassigned(c, id, r, m, k) && Some(m.assign[k]) != StartOf(r.pc.drive.assign, k);
      AnswerSound(mcs, c, m, k);
      AnswerFields(mcs, m, k);
      assert Takes(mcs[id], r, AnswerTo(mcs, m, k));
    }
  }

  lemma BucketAnswers(mcs: Machines, c: Cluster, id: Id, r: Rank, e: Bucket)
    requires Configured(mcs) && Driving(r) && Gathering(mcs, c, id, r) && SameWindowsSent(c, id, r)
    requires e in r.pc.drive.got && e.id != id && e.id in r.pc.drive.cohort
    ensures e.id in mcs && e.samples == mcs[e.id].batch && e.start == StartOf(r.pc.drive.assign, e.id)
  {
    hide Wire, Announced, TrueBatches;
    assert SoundBucket(mcs, c, id, r, e);
  }

  lemma PositiveSamples(mcs: Machines, c: Cluster, id: Id)
    requires Reachable(mcs, c) && id in c.ranks && id in mcs && Finishing(c.ranks[id])
    ensures var got := Averaged(mcs[id], c.ranks[id]);
            got != [] && forall e :: e in got ==> e.samples > 0 && (e.id != id ==> e.start.Some?)
  {
    hide Reachable, SoundMsg, Canonical, Following, Working, RosterTrue, Averaged, OnePerRank, Announced, TrueBatches,
         Wire, FromCohort, CollectionOpen;
    var mc, r := mcs[id], c.ranks[id];
    ReachableInv(mcs, c);
    assert SoundRank(mcs, c, id, r);
    AveragedFacts(mc, r);
    var own := OwnBucket(mc, r, r.pc.drive);
    forall e | e in Averaged(mc, r) ensures e.samples > 0 && (e.id != id ==> e.start.Some?) {
      if e.id == id { OnlyOne(Averaged(mc, r), own, e); } else { assert SoundBucket(mcs, c, id, r, e); }
    }
  }

  /** Gradient conservation over every run. Whenever the windows that answered are apart, coordinate
      `i` of the average a step applies, times the samples it counts, is the plain sum of the
      per-sample gradient over their disjoint union. When the round counts its leader in, that is
      the plain mean, and the union holds exactly the samples counted. When it does not, the
      leader's own bucket covers no window, and is added in with the weight of its batch. */
  lemma GradientConserved(mcs: Machines, c: Cluster, id: Id, i: nat, h: int -> real, lo: int, n: nat)
    requires Reachable(mcs, c) && id in c.ranks && id in mcs && Finishing(c.ranks[id]) && i < mcs[id].bucketLen
    requires var got := Averaged(mcs[id], c.ranks[id]);
             Apart(got) && forall e :: e in got ==> MeanOverWindow(e, h, i) && Window(e) <= Range(lo, n)
    ensures var mc, r := mcs[id], c.ranks[id];
            var got, own := Averaged(mc, r), OwnBucket(mc, r, r.pc.drive);
            var sum, avg := SumOver(lo, n, Windows(got), h), Average(got, mc.bucketLen)[i];
            && Samples(got) > 0
            && (id in r.pc.drive.cohort ==> |Windows(got)| == Samples(got) && avg == Mean(sum, |Windows(got)|))
            && (id !in r.pc.drive.cohort ==>
                  && |Windows(got)| + mc.batch == Samples(got)
                  && Weighed(avg, Samples(got)) == sum + Weighed(At(own.g, i), mc.batch))
  {
    hide Reachable, Averaged, MeanOverWindow, Windows, Samples, SumOver, Mean, Range, Apart, Average, Window,
         OwnBucket, OnePerRank, SoundBucket, NoReuse, Current, Weighed, At;
    var mc, r := mcs[id], c.ranks[id];
    var got, own := Averaged(mc, r), OwnBucket(mc, r, r.pc.drive);
    PositiveSamples(mcs, c, id);
    BucketSoundness(mcs, c, id);
    OwnSamples(mcs, c, id);
    ApartAverage(got, mc.bucketLen, i, h, lo, n);
    if id in r.pc.drive.cohort {
      NoStray(got, i);
    } else {
      OneStray(got, own, i);
    }
  }

  lemma OwnSamples(mcs: Machines, c: Cluster, id: Id)
    requires Reachable(mcs, c) && id in c.ranks && id in mcs && Driving(c.ranks[id])
    ensures var own := OwnBucket(mcs[id], c.ranks[id], c.ranks[id].pc.drive);
            own.samples == mcs[id].batch && own.id == id
  {
    hide Reachable, SoundRank, SoundMsg, Canonical;
    ReachableInv(mcs, c);
  }

  /** And they are apart whenever this step number was only ever announced with these windows, below
      2^32 and with the leader in its own cohort; then they all lie inside
      `[step·total, (step+1)·total)`. */
  lemma SameWindowsApart(mcs: Machines, c: Cluster, id: Id)
    requires Reachable(mcs, c) && id in c.ranks && id in mcs && Finishing(c.ranks[id]) &&
             SameWindowsSent(c, id, c.ranks[id])
    requires var r := c.ranks[id];
             var total := RoundSize(id, r.pc.drive.cohort, r.pc.drive.batches);
             id in r.pc.drive.cohort && Base(r.step, total) + total <= Word
    ensures var r := c.ranks[id];
            var got, total := Averaged(mcs[id], r), RoundSize(id, r.pc.drive.cohort, r.pc.drive.batches);
            Apart(got) && forall e :: e in got ==> Window(e) <= Range(Base(r.step, total), total)
  {
    hide Reachable, Wire, Canonical, SoundMsg, Following, Working, RosterTrue, Averaged, SameWindowsSent, Range, Base,
         Offset, Apart, Answer, Window;
    var mc, r := mcs[id], c.ranks[id];
    var d, got := r.pc.drive, Averaged(mc, r);
    var total := RoundSize(id, d.cohort, d.batches);
    ReachableInv(mcs, c);
    assert SoundRank(mcs, c, id, r);
    AllAnswer(mcs, c, id, r);
    AnswersApart(got, d.cohort, d.batches, Base(r.step, total));
    forall e | e in got ensures Window(e) <= Range(Base(r.step, total), total) {
      var k := AnswerWindow(e, d.cohort, d.batches, Base(r.step, total));
    }
  }

  lemma AllAnswer(mcs: Machines, c: Cluster, id: Id, r: Rank)
    requires Configured(mcs) && id in mcs && SoundRank(mcs, c, id, r) && Finishing(r) && SameWindowsSent(c, id, r) &&
             id in r.pc.drive.cohort
    requires var d := r.pc.drive;
             Base(r.step, RoundSize(id, d.cohort, d.batches)) + Offset(d.cohort, d.batches, |d.cohort|) <= Word
    ensures var d := r.pc.drive;
            && Averaged(mcs[id], r) != []
            && Answers(Averaged(mcs[id], r), d.cohort, d.batches, Base(r.step, RoundSize(id, d.cohort, d.batches)))
  {
    hide SameWindowsSent, Averaged, Following, Working, RosterTrue, OnePerRank, Assign, Base, Offset, RoundSize,
         FromCohort, CollectionOpen, SoundBucket, Announced, Wire;
    var mc, d := mcs[id], r.pc.drive;
    AveragedFacts(mc, r);
    var own := OwnBucket(mc, r, d);
    forall e | e in Averaged(mc, r) ensures Answer(e, d.cohort, d.batches,
             Base(r.step, RoundSize(id, d.cohort, d.batches))) {
      if e.id == id {
        OnlyOne(Averaged(mc, r), own, e);
      } else {
        BucketAnswers(mcs, c, id, r, e);
      }
    }
  }
}
