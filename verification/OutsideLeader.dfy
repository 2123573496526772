/** A leader outside its own cohort. Stopped while it waits for the transport, it opens the round all
    the same, over the others only, and still averages its own bucket. What follows for the round's
    contributors, windows and quorum is shown on a reachable cluster and on two valid ranks. */
module OutsideLeader {
  import opened Wrappers
  import opened Reduce
  import opened Policy
  import opened Protocol
  import opened RankSafety
  import opened Cluster
  import opened Agreement
  import opened StepReuse
  import Quantize

  // ── a reachable cluster ───────────────────────────────────────────────────

  /** Rank 1 at step 1, knowing ranks 2 and 3. */
  function Knowing(running: bool, pc: Pc, pending: Option<Pending>): Rank {
    Leader(Three(), pc, pending).(running := running)
  }

  lemma KnowingCohort(running: bool, pc: Pc, pending: Option<Pending>)
    ensures var r := Knowing(running, pc, pending);
            Calm(r) && Cohort(Unit(1), r) == (if running then {1, 2, 3} else {2, 3}) &&
              (running ==> Leads(Unit(1), r, 0.0))
  {
    hide PolicyFor;
    assert Cohort(Unit(1), Knowing(running, pc, pending)) == if running then {1, 2, 3} else {2, 3};
  }

  lemma HearsThird()
    ensures Step(Unit(1), Leader(Two(), Yielding, None), At0(Deliver(Beat(3, 1, true, true)))) ==
            Outcome(Knowing(true, Yielding, None), [])
  {
    hide PolicyFor;
    assert Two()[3 := Ready] == Three();
  }

  /** The loop condition holds, but the transport pushes back. */
  lemma WaitsForTransport()
    ensures Step(Unit(1), Knowing(true, Yielding, None), Input(YieldResume, 0.0, true)) ==
            Outcome(Knowing(true, Pressure(0), None), [])
  {
    hide PolicyFor, Cohort, Leads, Asked, Live, Calm;
    KnowingCohort(true, Yielding, None);
    CalmLive(Knowing(true, Yielding, None));
  }

  lemma StopsWaiting()
    ensures Step(Unit(1), Knowing(true, Pressure(0), None), At0(Stop)) ==
            Outcome(Knowing(false, Pressure(0), None), [Beat(1, 1, true, false)])
  {
    hide PolicyFor, Cohort, Leads, Asked, Live, Calm, Wire;
    KnowingCohort(true, Pressure(0), None);
    CalmLive(Knowing(true, Pressure(0), None));
    KnowingCohort(false, Pressure(0), None);
    CalmLive(Knowing(false, Pressure(0), None));
  }

  function OthersDrive(got: seq<Bucket>, settled: bool): Drive {
    Drive([2, 3], map[1 := 1, 2 := 1, 3 := 1], map[2 := 3, 3 := 4], got, settled)
  }

  const OthersPending := Some(Pending(1, {2, 3}, 1, false))

  lemma OthersPlan(r: Rank)
    requires Cohort(Unit(1), r) == {2, 3} && r.step == 1 && r.members == Three()
    ensures NewDrive(Unit(1), r) == OthersDrive([], false)
  {
    hide Cohort, Sorted;
    SortedIs({2, 3}, [2, 3]);
    var b := Batches(Unit(1), r.members, {2, 3});
    assert b == map[1 := 1, 2 := 1, 3 := 1];
    assert Offset([2, 3], b, 0) == 0 && Offset([2, 3], b, 1) == 1 && Offset([2, 3], b, 2) == 2;
    assert Assign([2, 3], b, 3, 0) == map[];
    assert Assign([2, 3], b, 3, 1) == map[2 := 3];
    assert Assign([2, 3], b, 3, 2) == map[2 := 3, 3 := 4];
  }

  /** The wait ends, and nothing looks at `running` again. */
  lemma OpensWithout()
    ensures Step(Unit(1), Knowing(false, Pressure(0), None), At0(PressureResume)) ==
            Outcome(Knowing(false, OwnGrads(OthersDrive([], false)), OthersPending),
                [Round(1, 1, 0.05, map[2 := 3, 3 := 4], Ones, 0)])
  {
    hide PolicyFor, Cohort, Asked, Live, NewDrive, Calm, Wire;
    var r := Knowing(false, Pressure(0), None);
    KnowingCohort(false, Pressure(0), None);
    CalmLive(r);
    OthersPlan(r);
    UnitWire(1, Ones);
  }

  /** The leader's bucket, over no window. */
  function Windowless(): Bucket {
    Bucket(1, 1, Ones, None, 0)
  }

  function OutsideDone(): Rank {
    Knowing(false, Collecting(OthersDrive([Windowless()], true)), OthersPending)
  }

  lemma CollectsWithout()
    ensures Step(Unit(1), Knowing(false, OwnGrads(OthersDrive([], false)), OthersPending), At0(OwnGradsDone)) ==
            Outcome(OutsideDone(), [])
  {
    hide PolicyFor, FinishRound;
    assert Put([], Windowless()) == [Windowless()];
  }

  /** Ranks 2 and 3 join behind rank 1, which hears of both. */
  lemma Gathered() returns (c: Cluster, ranks: map<Id, Rank>)
    ensures Snapshot(c, ranks, {}) && 1 in ranks && ranks[1] == Knowing(true, Yielding, None)
  {
    hide Snapshot, Step, PolicyFor, Unit;
    c := Beginning();
    ranks := AllFresh();
    c := RunAlone(c, ranks, {}, 1, Ones);
    ranks := ranks[1 := Solo(1, Ones, 1, Yielding)];
    Narrow(c, ranks, {} + {Hello(1, 1, false, true), SoloRound(1, Ones, 0)}, Heard1());
    c := JoinsBehind(c, ranks, Heard1(), 2);
    ranks := ranks[2 := Follower(2, true)];
    var first := Heard1() + {Beat(2, 1, true, true)};
    c := JoinsBehind(c, ranks, first, 3);
    ranks := ranks[3 := Follower(3, true)];
    var both := first + {Beat(3, 1, true, true)};
    LeaderHearsTwo();
    c := Then(c, ranks, both, 1, Deliver(Beat(2, 1, true, true)), Outcome(Leader(Two(), Yielding, None), []), both);
    ranks := ranks[1 := Leader(Two(), Yielding, None)];
    HearsThird();
    c := Then(c, ranks, both, 1, Deliver(Beat(3, 1, true, true)), Outcome(Knowing(true, Yielding, None), []), {});
    ranks := ranks[1 := Knowing(true, Yielding, None)];
  }

  /** In a reachable cluster a stopped leader is about to apply an average that holds a bucket from
      outside the cohort of its round and over no window: its own. */
  lemma OutsiderAveraged()
    ensures exists c :: Reachable(Mcs, c) && 1 in c.ranks && Valid(Unit(1), c.ranks[1]) && Finishing(c.ranks[1])
              && 1 !in c.ranks[1].pc.drive.cohort && OwnBucket(Unit(1), c.ranks[1], c.ranks[1].pc.drive).start.None?
              && OwnBucket(Unit(1), c.ranks[1], c.ranks[1].pc.drive) in Averaged(Unit(1), c.ranks[1])
  {
    hide Snapshot, Step, PolicyFor, Unit, Reachable, Valid, OwnBucket;
    var c, ranks := Gathered();
    WaitsForTransport();
    c := Advance(c, ranks, {}, 1, Input(YieldResume, 0.0, true), Outcome(Knowing(true, Pressure(0), None), []));
    ranks := ranks[1 := Knowing(true, Pressure(0), None)];
    Narrow(c, ranks, {} + Sent([]), {});
    StopsWaiting();
    c := Then(c, ranks, {}, 1, Stop, Outcome(Knowing(false, Pressure(0), None), [Beat(1, 1, true, false)]), {});
    ranks := ranks[1 := Knowing(false, Pressure(0), None)];
    var driving := Knowing(false, OwnGrads(OthersDrive([], false)), OthersPending);
    OpensWithout();
    c := Then(c, ranks, {}, 1, PressureResume, Outcome(driving, [Round(1, 1, 0.05, map[2 := 3, 3 := 4], Ones, 0)]), {});
    ranks := ranks[1 := driving];
    CollectsWithout();
    c := Then(c, ranks, {}, 1, OwnGradsDone, Outcome(OutsideDone(), []), {});
    ranks := ranks[1 := OutsideDone()];
    SnapshotRank(c, ranks, {}, 1);
    ReachableValid(c, 1);
    OutsideFacts();
  }

  lemma ReachableValid(c: Cluster, id: Id)
    requires Reachable(Mcs, c) && id in c.ranks && id in Mcs
    ensures Valid(Mcs[id], c.ranks[id])
  {
    hide Reachable, SoundMsg, Canonical, Valid;
    ReachableInv(Mcs, c);
    assert SoundRank(Mcs, c, id, c.ranks[id]);
  }

  lemma OutsideFacts()
    ensures var r := OutsideDone();
            && Finishing(r) && 1 !in r.pc.drive.cohort && 1 in Mcs && Mcs[1] == Unit(1)
            && OwnBucket(Unit(1), r, r.pc.drive) == Windowless() && Averaged(Unit(1), r) == [Windowless()]
  {
    hide PolicyFor;
  }

  // ── two quorums with nobody in common ─────────────────────────────────────

  const Five: set<Id> := {2, 3, 4, 5, 6}

  function FiveBatches(id: Id): map<Id, nat> {
    map[id := 1, 2 := 1, 3 := 1, 4 := 1, 5 := 1, 6 := 1]
  }

  function FiveAssign(id: Id): map<Id, nat> {
    Assign([2, 3, 4, 5, 6], FiveBatches(id), Base(0, RoundSize(id, [2, 3, 4, 5, 6], FiveBatches(id))), 5)
  }

  /** A round over ranks 2 to 6 under the policy for five, led by `id`, that holds its leader's bucket
      and those of two others. */
  function FiveDrive(id: Id, own: Bucket, p: Id, q: Id): Drive {
    Drive([2, 3, 4, 5, 6], FiveBatches(id), FiveAssign(id),
        [own, Bucket(p, 1, Ones, None, 0), Bucket(q, 1, Ones, None, 0)], true)
  }

  function LeadsFive(id: Id, p: Id, q: Id): Rank {
    var own := Bucket(id, 1, Ones, StartOf(FiveAssign(id), id), 0);
    Fresh(id, Ones).(ready := true, pc := Collecting(FiveDrive(id, own, p, q)),
        pending := Some(Pending(0, Five, 3, true)),
                     policy := PolicyFor(5, DefaultTiming))
  }

  lemma FiveCount()
    ensures |Five| == 5 && Needed(Five, 5) == 3 && SizedFor(Five, 3, 5)
  {
    assert Five == {2, 3, 4, 5, 6};
  }

  /** The three buckets come from three ranks. */
  lemma FiveRanks(a: Bucket, b: Bucket, c: Bucket)
    requires a.id != b.id && a.id != c.id && b.id != c.id
    ensures OnePerRank([a, b, c]) && Ranks([a, b, c]) == {a.id, b.id, c.id} && |{a.id, b.id, c.id}| == 3
  {
    var got := [a, b, c];
    assert got[0] in got && got[1] in got && got[2] in got;
    assert forall e :: e in got ==> e == a || e == b || e == c;
  }

  lemma FiveWindowed(id: Id, own: Bucket, p: Id, q: Id, r: Rank)
    requires r.step == 0
    ensures Windowed(Unit(id), r, FiveDrive(id, own, p, q))
  {
    hide Assign, Base, RoundSize;
  }

  lemma FiveCollecting(id: Id, p: Id, q: Id)
    ensures var r := LeadsFive(id, p, q);
            && r.pc.Collecting? && r.pending == Some(Pending(0, Five, 3, true)) && r.step == 0 && r.members == map[]
            && r.policy == PolicyFor(5, DefaultTiming) && OwnBucket(Unit(id), r, r.pc.drive) == r.pc.drive.got[0]
            && r.pc.drive == FiveDrive(id, r.pc.drive.got[0], p, q)
            && r.pc.drive.got == [r.pc.drive.got[0], Bucket(p, 1, Ones, None, 0), Bucket(q, 1, Ones, None, 0)]
  {
    hide PolicyFor, FiveAssign;
  }

  lemma FiveFromCohort(id: Id, own: Bucket, p: Id, q: Id)
    requires own.id == id && p in Five && q in Five && p != q && id != p && id != q
    ensures FromCohort(Unit(id), FiveDrive(id, own, p, q))
  {
    hide OnePerRank;
    var d := FiveDrive(id, own, p, q);
    FiveRanks(d.got[0], d.got[1], d.got[2]);
    forall e | e in d.got ensures e.id == id || e.id in d.cohort {
      assert e == d.got[0] || e == d.got[1] || e == d.got[2];
    }
  }

  lemma FiveValid(id: Id, p: Id, q: Id)
    requires p in Five && q in Five && p != q && id != p && id != q
    ensures Valid(Unit(id), LeadsFive(id, p, q))
  {
    hide LeadsFive, PolicyFor, Needed, Windowed, OwnBucket, FromCohort, Ranks;
    var r := LeadsFive(id, p, q);
    FiveCollecting(id, p, q);
    var d := r.pc.drive;
    OwnsId(Unit(id), r, d);
    FiveFromCohort(id, d.got[0], p, q);
    FiveWindowed(id, d.got[0], p, q, r);
    FiveCount();
    PolicyNumber(5);
    assert QuorumSized(Five, 3);
    assert forall k :: k in Five <==> k in d.cohort;
  }

  lemma FiveReached(id: Id, p: Id, q: Id)
    requires p in Five && q in Five && p != q && id != p && id != q
    ensures LeadsFive(id, p, q).pc.Collecting? && QuorumReached(Unit(id), LeadsFive(id, p, q), 5)
    ensures Ranks(LeadsFive(id, p, q).pc.drive.got) == {id, p, q}
  {
    hide LeadsFive, PolicyFor, Needed, Valid, OwnBucket, OnePerRank, Ranks, FiveDrive;
    var r := LeadsFive(id, p, q);
    FiveCollecting(id, p, q);
    FiveValid(id, p, q);
    OwnsId(Unit(id), r, r.pc.drive);
    var got := r.pc.drive.got;
    FiveRanks(got[0], got[1], got[2]);
    FiveCount();
  }

  lemma PolicyNumber(n: nat)
    ensures PolicyFor(n, DefaultTiming).n == n
  {
  }

  /** The cohort size that does not suffice does fail on ranks: rank 1, outside the cohort, and rank
      2 both reach their quorum over the same five ranks, and share no contributor. */
  lemma FiveSplitsRanks()
    ensures exists r, s :: QuorumReached(Unit(1), r, 5) && QuorumReached(Unit(2), s, 5)
              && r.pending.value.want == s.pending.value.want && |r.pending.value.want| == 5
              && Ranks(r.pc.drive.got) * Ranks(s.pc.drive.got) == {}
  {
    hide QuorumReached, LeadsFive;
    FiveReached(1, 3, 4);
    FiveReached(2, 5, 6);
    FiveCount();
    assert {1, 3, 4} * {2, 5, 6} == {};
    FiveWant(1, 3, 4);
    FiveWant(2, 5, 6);
  }

  lemma FiveWant(id: Id, p: Id, q: Id)
    ensures LeadsFive(id, p, q).pending == Some(Pending(0, Five, 3, true)) && LeadsFive(id, p, q).pc.Collecting?
  {
    hide PolicyFor, Assign;
  }
}
