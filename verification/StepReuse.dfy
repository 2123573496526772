/** Two reachable clusters in which a step number is used twice by one leader: once by an earlier
    term, whose bucket is then averaged into the present one, and once by an attempt that failed,
    whose windows then overlap those of the next. Both are built event by event from ranks that have
    done nothing yet. */
module StepReuse {
  import opened Wrappers
  import opened Reduce
  import opened Policy
  import opened Protocol
  import opened RankSafety
  import opened Cluster
  import opened Agreement
  import Quantize

  // ── four ranks ────────────────────────────────────────────────────────────

  /** A batch of one, full precision, a gradient that is the parameters themselves, and an update
      that changes nothing: a bucket shows what it was computed against. */
  function Unit(id: Id): Machine {
    Machine(id, 1, 1, Quantize.P32, DefaultTiming, (p: Params, s: Option<nat>) => p,
        (p: Params, g: seq<real>, lr: real) => p)
  }

  const Mcs: Machines := map[0 := Unit(0), 1 := Unit(1), 2 := Unit(2), 3 := Unit(3)]

  const Ones: Params := [1.0]
  const Zeros: Params := [0.0]

  function Fresh(id: Id, p: Params): Rank {
    Init(Unit(id), p)
  }

  /** Everything happens at one instant, and the transport never pushes back. */
  function At0(e: Event): Input {
    Input(e, 0.0, false)
  }

  lemma UnitWire(id: Id, v: Params)
    ensures Wire(Unit(id), v) == v
  {
    Quantize.FullPrecision(v);
  }

  /** Nobody is forgotten at the instant everybody was heard. */
  ghost predicate Calm(r: Rank) {
    (forall k :: k in r.members ==> r.members[k].seen == 0.0) && r.policy == PolicyFor(1, DefaultTiming)
  }

  lemma CalmLive(r: Rank)
    requires Calm(r)
    ensures Live(r, 0.0) == r && Asked(r, 0.0) == r && r.policy.quorum == 1
  {
    hide BeatFor;
    assert Live(r, 0.0).members == r.members;
  }

  // ── runs ──────────────────────────────────────────────────────────────────

  /** What a point of a run is known to be: its four ranks, and some of what was sent. */
  ghost predicate Snapshot(c: Cluster, ranks: map<Id, Rank>, sent: set<Msg>) {
    Reachable(Mcs, c) && c.ranks == ranks && sent <= c.net && ranks.Keys == {0, 1, 2, 3}
  }

  /** One event more is still a run. */
  lemma Extends(mcs: Machines, c: Cluster, l: Label)
    requires Reachable(mcs, c) && CanStep(mcs, c, l)
    ensures Reachable(mcs, After(mcs, c, l))
  {
    hide CanStep, After, Initial, Configured;
    var cs, labels :| LeadsTo(mcs, cs, labels, c);
    var d := After(mcs, c, l);
    var cs', labels' := cs + [d], labels + [l];
    forall k | 0 <= k < |labels'| ensures StepTo(mcs, cs', labels', k) {
      if k < |labels| { assert StepTo(mcs, cs, labels, k); }
    }
    assert LeadsTo(mcs, cs', labels', d);
  }

  lemma Advance(c: Cluster, ranks: map<Id, Rank>, sent: set<Msg>, id: Id, i: Input, o: Outcome) returns (d: Cluster)
    requires Snapshot(c, ranks, sent) && id in ranks && Enabled(ranks[id], i.event)
    requires i.event.Deliver? ==> i.event.m in sent
    requires Step(Unit(id), ranks[id], i) == o
    ensures Snapshot(d, ranks[id := o.rank], sent + Sent(o.sent))
  {
    hide Step, Reachable, Enabled, Unit;
    var l := Label(id, i);
    d := After(Mcs, c, l);
    Extends(Mcs, c, l);
  }

  // ── the steps of one rank, with their outcomes ────────────────────────────

  function Joining(id: Id, p: Params, tries: nat): Rank {
    Fresh(id, p).(running := true, joining := Some(tries))
  }

  function SoloDrive(id: Id, step: nat): Drive {
    Drive([id], map[id := 1], map[id := step], [], false)
  }

  function Solo(id: Id, p: Params, step: nat, pc: Pc): Rank {
    Fresh(id, p).(running := true, ready := true, step := step, pc := pc)
  }

  function SoloRound(id: Id, p: Params, step: nat): Msg {
    Round(id, step, 0.05, map[id := step], p, 0)
  }

  lemma Starts(id: Id, p: Params)
    ensures Step(Unit(id), Fresh(id, p), At0(Start(None))) == Outcome(Joining(id, p, 0), [Hello(id, 1, false, true)])
  {
    hide PolicyFor;
    assert Live(Joining(id, p, 0), 0.0).members == map[];
  }

  lemma Waits(id: Id, p: Params)
    ensures Step(Unit(id), Joining(id, p, 0), At0(JoinTick)) == Outcome(Joining(id, p, 1), [Hello(id, 1, false, true)])
  {
    hide PolicyFor, Loop;
    assert Live(Joining(id, p, 0), 0.0).members == map[];
  }

  lemma HeadLeast(ids: seq<Id>, k: Id)
    requires Ascending(ids) && k in ids
    ensures ids[0] <= k && (k in ids[1..] <==> k != ids[0])
  {
    var j :| 0 <= j < |ids| && ids[j] == k;
    if j > 0 { assert ids[1..][j - 1] == k; }
  }

  /** Two ascending lists of the same elements are one. */
  lemma {:induction false} AscendingSame(a: seq<Id>, b: seq<Id>)
    requires Ascending(a) && Ascending(b) && forall k :: k in a <==> k in b
    ensures a == b
  {
    if a != [] {
      assert a[0] in b;
      HeadLeast(b, a[0]);
      assert b[0] in a;
      HeadLeast(a, b[0]);
      forall k ensures k in a[1..] <==> k in b[1..] {
        if k in a { HeadLeast(a, k); HeadLeast(b, k); }
      }
      AscendingSame(a[1..], b[1..]);
    }
    assert b != [] ==> b[0] in a;
  }

  lemma SortedIs(s: set<Id>, ids: seq<Id>)
    requires Ascending(ids) && forall k :: k in ids <==> k in s
    ensures Sorted(s) == ids
  {
    AscendingSame(Sorted(s), ids);
  }

  lemma SoloPlan(r: Rank, id: Id)
    requires Cohort(Unit(id), r) == {id} && r.step < Word
    ensures NewDrive(Unit(id), r) == SoloDrive(id, r.step)
  {
    hide Cohort, Sorted;
    SortedIs({id}, [id]);
    var b := Batches(Unit(id), r.members, {id});
    assert b == map[id := 1];
    assert Offset([id], b, 1) == 1 by { assert Offset([id], b, 0) == 0; }
    assert Assign([id], b, r.step, 0) == map[];
    assert Assign([id], b, r.step, 1) == map[id := r.step];
  }

  lemma SoloCohort(id: Id, p: Params, step: nat, pc: Pc)
    ensures Cohort(Unit(id), Solo(id, p, step, pc)) == {id} && Calm(Solo(id, p, step, pc))
    ensures Leads(Unit(id), Solo(id, p, step, pc), 0.0)
  {
    hide PolicyFor;
    assert Cohort(Unit(id), Solo(id, p, step, pc)) == {id};
  }

  /** Alone, a rank opens a round over itself. */
  lemma SoloOpens(id: Id, p: Params, step: nat, pc: Pc)
    requires step < Word
    ensures OpenRound(Unit(id), Solo(id, p, step, pc), 0.0) ==
            Outcome(Solo(id, p, step, OwnGrads(SoloDrive(id, step))), [SoloRound(id, p, step)])
  {
    hide PolicyFor, NewDrive, Cohort, Live, Asked, Wire, MinNat, Leads, Calm;
    var r := Solo(id, p, step, pc);
    SoloCohort(id, p, step, pc);
    CalmLive(r);
    SoloPlan(r, id);
    UnitWire(id, p);
  }

  lemma Bootstraps(id: Id, p: Params)
    ensures Step(Unit(id), Joining(id, p, 1), At0(JoinTick)) ==
            Outcome(Solo(id, p, 0, OwnGrads(SoloDrive(id, 0))), [SoloRound(id, p, 0)])
  {
    hide PolicyFor, OpenRound, Leads, Asked, Live, Calm;
    var j, r := Joining(id, p, 1), Solo(id, p, 0, Idle);
    JoiningCalm(id, p, 1);
    CalmLive(j);
    SoloCohort(id, p, 0, Idle);
    CalmLive(r);
    SoloOpens(id, p, 0, Idle);
  }

  lemma JoiningCalm(id: Id, p: Params, tries: nat)
    ensures Calm(Joining(id, p, tries))
  {
    hide PolicyFor;
  }

  lemma SoloCompletes(id: Id, p: Params)
    ensures Step(Unit(id), Solo(id, p, 0, OwnGrads(SoloDrive(id, 0))), At0(OwnGradsDone)) ==
            Outcome(Solo(id, p, 1, Yielding), [])
  {
    hide PolicyFor, Put, Live, Asked, Average, Wire, Calm, Leads;
    SoloCohort(id, p, 1, Yielding);
    CalmLive(Solo(id, p, 1, Yielding));
    UnitWire(id, p);
  }

  lemma SoloContinues(id: Id, p: Params)
    ensures Step(Unit(id), Solo(id, p, 1, Yielding), At0(YieldResume)) ==
            Outcome(Solo(id, p, 1, OwnGrads(SoloDrive(id, 1))), [SoloRound(id, p, 1)])
  {
    hide PolicyFor, OpenRound, Leads, Asked, Live, Calm;
    SoloCohort(id, p, 1, Yielding);
    CalmLive(Solo(id, p, 1, Yielding));
    SoloOpens(id, p, 1, Yielding);
  }

  // ── a follower of rank 1 ──────────────────────────────────────────────────

  function Follower(id: Id, greeted: bool): Rank {
    Fresh(id, Zeros).(running := true, ready := true, params := Ones, roundsFrom := Some(1), term := 1,
        origin := Some(Origin(1, 0)),
                      members := map[1 := Member(0.0, if greeted then Some(1) else None, false, greeted)])
  }

  lemma FollowerCalm(id: Id, greeted: bool)
    requires id > 1
    ensures Calm(Follower(id, greeted)) && Cohort(Unit(id), Follower(id, greeted)) == {id}
  {
    hide PolicyFor;
    assert Cohort(Unit(id), Follower(id, greeted)) == {id};
  }

  /** A joiner that has just heard of rank 1. */
  function Heeding(id: Id): Rank {
    Joining(id, Zeros, 0).(members := map[1 := Member(0.0, None, false, false)])
  }

  lemma HeedingCalm(id: Id)
    ensures Calm(Heeding(id)) && Cohort(Unit(id), Heeding(id)) == {}
  {
    hide PolicyFor;
    assert Cohort(Unit(id), Heeding(id)) == {};
  }

  lemma FollowerAdopts(id: Id)
    requires id > 1
    ensures Step(Unit(id), Joining(id, Zeros, 0), At0(Deliver(SoloRound(1, Ones, 0)))) ==
            Outcome(Follower(id, false), [])
  {
    hide PolicyFor, Cohort, Live, Asked, Calm;
    var h := Heeding(id);
    assert Joining(id, Zeros, 0).members[1 := Member(0.0, None, false, false)] == h.members;
    HeedingCalm(id);
    CalmLive(h);
    FollowerCalm(id, false);
    CalmLive(Follower(id, false));
  }

  lemma FollowerGreets(id: Id)
    requires id > 1
    ensures Step(Unit(id), Follower(id, false), At0(Deliver(Hello(1, 1, false, true)))) ==
            Outcome(Follower(id, true), [Beat(id, 1, true, true)])
  {
    hide PolicyFor;
    assert Follower(id, false).members[1 := Member(0.0, Some(1), false, true)] == Follower(id, true).members;
  }

  function PairRound(p: Params, term: nat): Msg {
    Round(1, 1, 0.05, map[1 := 2, 2 := 3], p, term)
  }

  /** Rank 2's bucket for rank 1's first round over the two of them. */
  function Late(): Msg {
    Grad(2, 1, 1, 1, Ones, 3, 0)
  }

  function Working2(): Rank {
    Follower(2, true).(step := 1, term := 2, contributing := Some(Work(1, 1, 3, Ones, 0)))
  }

  lemma FollowerWorks()
    ensures Step(Unit(2), Follower(2, true), At0(Deliver(PairRound(Ones, 0)))) == Outcome(Working2(), [])
  {
    hide PolicyFor, Cohort, Live, Asked, Calm;
    var r := Follower(2, true);
    assert r.members[1 := Member(0.0, Some(1), false, true)] == r.members;
    FollowerCalm(2, true);
    CalmLive(r);
    Working2Calm();
    CalmLive(Working2().(contributing := None));
  }

  lemma Working2Calm()
    ensures Calm(Working2().(contributing := None))
  {
    hide PolicyFor;
  }

  lemma FollowerAnswers()
    ensures Step(Unit(2), Working2(), At0(ContribDone)) == Outcome(Working2().(contributing := None), [Late()])
  {
    hide PolicyFor, Wire;
    UnitWire(2, Ones);
  }

  // ── rank 1, the leader ────────────────────────────────────────────────────

  const Ready := Member(0.0, Some(1), true, true)

  /** Rank 1 in its first term at step 1, with some peers known to be ready and running. */
  function Leader(peers: map<Id, Member>, pc: Pc, pending: Option<Pending>): Rank {
    Solo(1, Ones, 1, pc).(members := peers, pending := pending)
  }

  function Two(): map<Id, Member> {
    map[2 := Ready]
  }

  function Three(): map<Id, Member> {
    map[2 := Ready, 3 := Ready]
  }

  function PairDrive(got: seq<Bucket>, settled: bool): Drive {
    Drive([1, 2], map[1 := 1, 2 := 1], map[1 := 2, 2 := 3], got, settled)
  }

  function TripleDrive(got: seq<Bucket>, settled: bool): Drive {
    Drive([1, 2, 3], map[1 := 1, 2 := 1, 3 := 1], map[1 := 3, 2 := 4, 3 := 5], got, settled)
  }

  const PairPending := Some(Pending(1, {1, 2}, 1, false))
  const TriplePending := Some(Pending(1, {1, 2, 3}, 1, false))

  lemma PairPlan(r: Rank)
    requires Cohort(Unit(1), r) == {1, 2} && r.step == 1 && (2 in r.members ==> r.members[2].batch == Some(1))
    ensures NewDrive(Unit(1), r) == PairDrive([], false)
  {
    hide Cohort, Sorted;
    SortedIs({1, 2}, [1, 2]);
    var b := Batches(Unit(1), r.members, {1, 2});
    assert b == map[1 := 1, 2 := 1];
    assert Offset([1, 2], b, 0) == 0 && Offset([1, 2], b, 1) == 1 && Offset([1, 2], b, 2) == 2;
    assert Assign([1, 2], b, 2, 0) == map[];
    assert Assign([1, 2], b, 2, 1) == map[1 := 2];
    assert Assign([1, 2], b, 2, 2) == map[1 := 2, 2 := 3];
  }

  lemma TriplePlan(r: Rank)
    requires Cohort(Unit(1), r) == {1, 2, 3} && r.step == 1 && r.members == Three()
    ensures NewDrive(Unit(1), r) == TripleDrive([], false)
  {
    hide Cohort, Sorted;
    SortedIs({1, 2, 3}, [1, 2, 3]);
    var b := Batches(Unit(1), r.members, {1, 2, 3});
    assert b == map[1 := 1, 2 := 1, 3 := 1];
    assert Offset([1, 2, 3], b, 0) == 0 && Offset([1, 2, 3], b, 1) == 1 && Offset([1, 2, 3], b, 2) == 2 &&
           Offset([1, 2, 3], b, 3) == 3;
    assert Assign([1, 2, 3], b, 3, 0) == map[];
    assert Assign([1, 2, 3], b, 3, 1) == map[1 := 3];
    assert Assign([1, 2, 3], b, 3, 2) == map[1 := 3, 2 := 4];
    assert Assign([1, 2, 3], b, 3, 3) == map[1 := 3, 2 := 4, 3 := 5];
  }

  lemma LeaderCohort(pc: Pc, pending: Option<Pending>)
    ensures var r := Leader(Two(), pc, pending); Calm(r) && Cohort(Unit(1), r) == {1, 2} && Leads(Unit(1), r, 0.0)
    ensures var r := Leader(Three(), pc, pending); Calm(r) && Cohort(Unit(1), r) == {1, 2, 3} && Leads(Unit(1), r, 0.0)
  {
    hide PolicyFor;
    assert Cohort(Unit(1), Leader(Two(), pc, pending)) == {1, 2};
    assert Cohort(Unit(1), Leader(Three(), pc, pending)) == {1, 2, 3};
  }

  lemma LeaderHearsTwo()
    ensures Step(Unit(1), Solo(1, Ones, 1, Yielding), At0(Deliver(Beat(2, 1, true, true)))) ==
            Outcome(Leader(Two(), Yielding, None), [])
  {
    hide PolicyFor;
    assert map[][2 := Ready] == Two();
  }

  lemma LeaderOpens()
    ensures Step(Unit(1), Leader(Two(), Yielding, None), At0(YieldResume)) ==
            Outcome(Leader(Two(), OwnGrads(PairDrive([], false)), PairPending), [PairRound(Ones, 0)])
  {
    hide PolicyFor, Cohort, Leads, Asked, Live, NewDrive, Calm, Wire;
    var r := Leader(Two(), Yielding, None);
    LeaderCohort(Yielding, None);
    CalmLive(r);
    PairPlan(r);
    UnitWire(1, Ones);
  }

  // the first run: on to step 2, then back to step 1 in another term

  function OwnFirst(): Bucket {
    Bucket(1, 1, Ones, Some(2), 0)
  }

  lemma LeaderCollects()
    ensures Step(Unit(1), Leader(Two(), OwnGrads(PairDrive([], false)), PairPending), At0(OwnGradsDone)) ==
            Outcome(Leader(Two(), Collecting(PairDrive([OwnFirst()], true)), PairPending), [])
  {
    hide PolicyFor, FinishRound;
    assert Put([], OwnFirst()) == [OwnFirst()];
  }

  function AtTwo(running: bool, pc: Pc): Rank {
    Leader(Two(), pc, None).(step := 2, running := running)
  }

  lemma AtTwoCalm(running: bool, pc: Pc)
    ensures Calm(AtTwo(running, pc))
  {
    hide PolicyFor;
  }

  lemma LeaderMovesOn()
    ensures Step(Unit(1), Leader(Two(), Collecting(PairDrive([OwnFirst()], true)), PairPending), At0(CollectResume)) ==
            Outcome(AtTwo(true, Yielding), [])
  {
    hide PolicyFor, Live, Asked, Average, Wire, Calm;
    AtTwoCalm(true, Yielding);
    CalmLive(AtTwo(true, Yielding));
    UnitWire(1, Ones);
  }

  lemma LeaderStops()
    ensures Step(Unit(1), AtTwo(true, Yielding), At0(Stop)) ==
            Outcome(AtTwo(false, Yielding), [Beat(1, 1, true, false)])
  {
    hide PolicyFor, Live, Asked, Leads, Calm, Wire;
    AtTwoCalm(true, Yielding);
    CalmLive(AtTwo(true, Yielding));
    AtTwoCalm(false, Yielding);
    CalmLive(AtTwo(false, Yielding));
  }

  lemma LeaderExits()
    ensures Step(Unit(1), AtTwo(false, Yielding), At0(YieldResume)) ==
            Outcome(AtTwo(false, Idle), [Round(1, 2, 0.05, map[], Ones, 0)])
  {
    hide PolicyFor, Live, Asked, Calm, Wire, LeaderOf;
    AtTwoCalm(false, Yielding);
    CalmLive(AtTwo(false, Yielding));
    AtTwoCalm(false, Idle);
    CalmLive(AtTwo(false, Idle));
    UnitWire(1, Ones);
  }

  const Stranger := Member(0.0, None, false, false)

  /** Rank 1 in its second term, back at step 1 with rank 0's parameters. */
  function Returned(running: bool, pc: Pc, pending: Option<Pending>): Rank {
    Leader(map[2 := Ready, 0 := Stranger], pc, pending).(running := running, roundsFrom := Some(0), params := Zeros,
                                                         term := 1, origin := Some(Origin(0, 0)))
  }

  lemma ReturnedCohort(running: bool, pc: Pc, pending: Option<Pending>)
    ensures var r := Returned(running, pc, pending); Calm(r) && Cohort(Unit(1), r) == if running then {1, 2} else {2}
    ensures running ==> Leads(Unit(1), Returned(running, pc, pending), 0.0)
  {
    hide PolicyFor;
    assert Cohort(Unit(1), Returned(running, pc, pending)) == if running then {1, 2} else {2};
  }

  /** Rank 1, idle at step 2, as it has just heard of rank 0. */
  function Listening(): Rank {
    AtTwo(false, Idle).(members := map[2 := Ready, 0 := Stranger])
  }

  lemma ListeningCohort()
    ensures Calm(Listening()) && Cohort(Unit(1), Listening()) == {2}
  {
    hide PolicyFor;
    assert Cohort(Unit(1), Listening()) == {2};
  }

  lemma LeaderAdopts()
    ensures Step(Unit(1), AtTwo(false, Idle), At0(Deliver(SoloRound(0, Zeros, 1)))) ==
            Outcome(Returned(false, Idle, None), [])
  {
    hide PolicyFor, Cohort, Live, Asked, Calm;
    assert AtTwo(false, Idle).members[0 := Stranger] == Listening().members;
    ListeningCohort();
    CalmLive(Listening());
    ReturnedCohort(false, Idle, None);
    CalmLive(Returned(false, Idle, None));
  }

  lemma LeaderReturns()
    ensures Step(Unit(1), Returned(false, Idle, None), At0(Start(None))) ==
            Outcome(Returned(true, OwnGrads(PairDrive([], false)), PairPending),
                [Hello(1, 1, true, true), PairRound(Zeros, 1)])
  {
    hide PolicyFor, Cohort, Leads, Asked, Live, NewDrive, Calm, Wire;
    var r := Returned(true, Idle, None);
    ReturnedCohort(true, Idle, None);
    CalmLive(r);
    PairPlan(r);
    UnitWire(1, Zeros);
    ReturnedCohort(true, OwnGrads(PairDrive([], false)), PairPending);
    CalmLive(Returned(true, OwnGrads(PairDrive([], false)), PairPending));
  }

  /** Rank 2's late bucket as it is collected. */
  function Stale(): Bucket {
    Bucket(2, 1, Ones, Some(3), 0)
  }

  lemma LeaderTakesLate()
    ensures Step(Unit(1), Returned(true, OwnGrads(PairDrive([], false)), PairPending), At0(Deliver(Late()))) ==
            Outcome(Returned(true, OwnGrads(PairDrive([Stale()], true)), PairPending), [])
  {
    hide PolicyFor;
    assert map[2 := Ready, 0 := Stranger][2 := Ready] == map[2 := Ready, 0 := Stranger];
    assert Put([], Stale()) == [Stale()];
  }

  function OwnReturned(): Bucket {
    Bucket(1, 1, Zeros, Some(2), 1)
  }

  lemma LeaderCollectsLate()
    ensures Step(Unit(1), Returned(true, OwnGrads(PairDrive([Stale()], true)), PairPending), At0(OwnGradsDone)) ==
            Outcome(Returned(true, Collecting(PairDrive([Stale(), OwnReturned()], true)), PairPending), [])
  {
    hide PolicyFor, FinishRound;
    assert Put([Stale()], OwnReturned()) == [Stale(), OwnReturned()];
  }

  // the second run: a fault, and the same step over a larger cohort

  lemma LeaderHearsThree()
    ensures Step(Unit(1), Leader(Two(), OwnGrads(PairDrive([], false)), PairPending),
              At0(Deliver(Beat(3, 1, true, true)))) ==
            Outcome(Leader(Three(), OwnGrads(PairDrive([], false)), PairPending), [])
  {
    hide PolicyFor;
    assert Two()[3 := Ready] == Three();
  }

  lemma LeaderFaults()
    ensures Step(Unit(1), Leader(Three(), OwnGrads(PairDrive([], false)), PairPending), At0(OwnGradsFault)) ==
            Outcome(Leader(Three(), Backoff, None), [])
  {
    hide PolicyFor, Live, Asked, Calm, Cohort, Leads;
    LeaderCohort(Backoff, None);
    CalmLive(Leader(Three(), Backoff, None));
  }

  lemma LeaderBacksOff()
    ensures Step(Unit(1), Leader(Three(), Backoff, None), At0(BackoffResume)) ==
            Outcome(Leader(Three(), Yielding, None), [])
  {
    hide PolicyFor;
  }

  function TripleRound(): Msg {
    Round(1, 1, 0.05, map[1 := 3, 2 := 4, 3 := 5], Ones, 0)
  }

  lemma LeaderRetries()
    ensures Step(Unit(1), Leader(Three(), Yielding, None), At0(YieldResume)) ==
            Outcome(Leader(Three(), OwnGrads(TripleDrive([], false)), TriplePending), [TripleRound()])
  {
    hide PolicyFor, Cohort, Leads, Asked, Live, NewDrive, Calm, Wire;
    var r := Leader(Three(), Yielding, None);
    LeaderCohort(Yielding, None);
    CalmLive(r);
    TriplePlan(r);
    UnitWire(1, Ones);
  }

  lemma RetryTakesLate()
    ensures Step(Unit(1), Leader(Three(), OwnGrads(TripleDrive([], false)), TriplePending), At0(Deliver(Late()))) ==
            Outcome(Leader(Three(), OwnGrads(TripleDrive([Stale()], true)), TriplePending), [])
  {
    hide PolicyFor;
    assert Three()[2 := Ready] == Three();
    assert Put([], Stale()) == [Stale()];
  }

  function OwnRetried(): Bucket {
    Bucket(1, 1, Ones, Some(3), 0)
  }

  lemma RetryCollects()
    ensures Step(Unit(1), Leader(Three(), OwnGrads(TripleDrive([Stale()], true)), TriplePending), At0(OwnGradsDone)) ==
            Outcome(Leader(Three(), Collecting(TripleDrive([Stale(), OwnRetried()], true)), TriplePending), [])
  {
    hide PolicyFor, FinishRound;
    assert Put([Stale()], OwnRetried()) == [Stale(), OwnRetried()];
  }

  // ── the runs ──────────────────────────────────────────────────────────────

  function AllFresh(): map<Id, Rank> {
    map[0 := Fresh(0, Zeros), 1 := Fresh(1, Ones), 2 := Fresh(2, Zeros), 3 := Fresh(3, Zeros)]
  }

  function FirstPages(): map<Key, Params> {
    map[Key(0, 0, 0) := Zeros, Key(1, 0, 0) := Ones, Key(2, 0, 0) := Zeros, Key(3, 0, 0) := Zeros]
  }

  lemma FreshFields(id: Id, p: Params)
    ensures Fresh(id, p).params == p && Init(Unit(id), p) == Fresh(id, p)
  {
    hide PolicyFor;
  }

  lemma UnitsConfigured()
    ensures Configured(Mcs) && Mcs.Keys == {0, 1, 2, 3}
  {
  }

  lemma FreshAt(k: Id)
    requires k in AllFresh()
    ensures k in Mcs && AllFresh()[k] == Init(Mcs[k], AllFresh()[k].params)
    ensures Key(k, 0, 0) in FirstPages() && FirstPages()[Key(k, 0, 0)] == AllFresh()[k].params
  {
    hide Init, Fresh;
    FreshFields(0, Zeros);
    FreshFields(1, Ones);
    FreshFields(2, Zeros);
    FreshFields(3, Zeros);
  }

  lemma FreshKeys()
    ensures AllFresh().Keys == {0, 1, 2, 3}
    ensures forall key :: key in FirstPages() ==> key.id in AllFresh() && key.term == 0 && key.step == 0
  {
    hide Fresh;
  }

  lemma FreshIsInitial(c: Cluster)
    requires c == Cluster(AllFresh(), {}, FirstPages())
    ensures Initial(Mcs, c) && Configured(Mcs) && c.ranks.Keys == {0, 1, 2, 3}
  {
    hide Init, AllFresh, FirstPages, Configured, Mcs;
    UnitsConfigured();
    FreshKeys();
    forall k | k in c.ranks
      ensures k in Mcs && c.ranks[k] == Init(Mcs[k], c.ranks[k].params)
      ensures Key(k, 0, 0) in c.held && c.held[Key(k, 0, 0)] == c.ranks[k].params
    {
      FreshAt(k);
    }
  }

  lemma Beginning() returns (c: Cluster)
    ensures Snapshot(c, AllFresh(), {})
  {
    hide Initial, Configured, AllFresh, FirstPages, StepTo;
    c := Cluster(AllFresh(), {}, FirstPages());
    FreshIsInitial(c);
    assert LeadsTo(Mcs, [c], [], c);
  }

  lemma Narrow(c: Cluster, ranks: map<Id, Rank>, sent: set<Msg>, fewer: set<Msg>)
    requires Snapshot(c, ranks, sent) && fewer <= sent
    ensures Snapshot(c, ranks, fewer)
  {
    hide Reachable;
  }

  /** One event, keeping in view only what the run still needs of what was sent. */
  lemma Then(c: Cluster, ranks: map<Id, Rank>, sent: set<Msg>, id: Id, e: Event, o: Outcome, sent': set<Msg>)
      returns (d: Cluster)
    requires Snapshot(c, ranks, sent) && id in ranks && Enabled(ranks[id], e) && (e.Deliver? ==> e.m in sent)
    requires Step(Unit(id), ranks[id], At0(e)) == o && forall m :: m in sent' ==> m in sent || m in o.sent
    ensures Snapshot(d, ranks[id := o.rank], sent')
  {
    hide Snapshot, Step, Enabled, Unit;
    d := Advance(c, ranks, sent, id, At0(e), o);
    Narrow(d, ranks[id := o.rank], sent + Sent(o.sent), sent');
  }

  lemma RunAlone(c: Cluster, ranks: map<Id, Rank>, sent: set<Msg>, id: Id, p: Params) returns (d: Cluster)
    requires Snapshot(c, ranks, sent) && id in ranks && ranks[id] == Fresh(id, p)
    ensures Snapshot(d, ranks[id := Solo(id, p, 1, Yielding)], sent + {Hello(id, 1, false, true), SoloRound(id, p, 0)})
  {
    hide Snapshot, Step, PolicyFor, Unit;
    var greeted := sent + {Hello(id, 1, false, true)};
    var known := greeted + {SoloRound(id, p, 0)};
    Starts(id, p);
    d := Then(c, ranks, sent, id, Start(None), Outcome(Joining(id, p, 0), [Hello(id, 1, false, true)]), greeted);
    var r := ranks[id := Joining(id, p, 0)];
    Waits(id, p);
    d := Then(d, r, greeted, id, JoinTick, Outcome(Joining(id, p, 1), [Hello(id, 1, false, true)]), greeted);
    r := r[id := Joining(id, p, 1)];
    Bootstraps(id, p);
    d := Then(d, r, greeted, id, JoinTick, Outcome(Solo(id, p, 0, OwnGrads(SoloDrive(id, 0))), [SoloRound(id, p, 0)]),
        known);
    r := r[id := Solo(id, p, 0, OwnGrads(SoloDrive(id, 0)))];
    SoloCompletes(id, p);
    d := Then(d, r, known, id, OwnGradsDone, Outcome(Solo(id, p, 1, Yielding), []), known);
    assert r[id := Solo(id, p, 1, Yielding)] == ranks[id := Solo(id, p, 1, Yielding)];
    Narrow(d, ranks[id := Solo(id, p, 1, Yielding)], known, sent + {Hello(id, 1, false, true), SoloRound(id, p, 0)});
  }

  /** A rank joins behind rank 1 and says that it is ready. */
  lemma JoinsBehind(c: Cluster, ranks: map<Id, Rank>, sent: set<Msg>, id: Id) returns (d: Cluster)
    requires Snapshot(c, ranks, sent) && id in ranks && id > 1 && ranks[id] == Fresh(id, Zeros)
    requires SoloRound(1, Ones, 0) in sent && Hello(1, 1, false, true) in sent
    ensures Snapshot(d, ranks[id := Follower(id, true)], sent + {Beat(id, 1, true, true)})
  {
    hide Snapshot, Step, PolicyFor, Unit;
    Starts(id, Zeros);
    d := Then(c, ranks, sent, id, Start(None), Outcome(Joining(id, Zeros, 0), [Hello(id, 1, false, true)]), sent);
    var r := ranks[id := Joining(id, Zeros, 0)];
    FollowerAdopts(id);
    d := Then(d, r, sent, id, Deliver(SoloRound(1, Ones, 0)), Outcome(Follower(id, false), []), sent);
    r := r[id := Follower(id, false)];
    FollowerGreets(id);
    d := Then(d, r, sent, id, Deliver(Hello(1, 1, false, true)),
        Outcome(Follower(id, true), [Beat(id, 1, true, true)]), sent + {Beat(id, 1, true, true)});
    assert r[id := Follower(id, true)] == ranks[id := Follower(id, true)];
  }

  /** What both runs need of the messages sent so far. */
  function Heard1(): set<Msg> {
    {Hello(1, 1, false, true), SoloRound(1, Ones, 0)}
  }

  function Shared(leader: Rank): map<Id, Rank> {
    map[0 := Fresh(0, Zeros), 1 := leader, 2 := Working2().(contributing := None), 3 := Fresh(3, Zeros)]
  }

  /** Rank 1 opens step 1 over itself and rank 2, and rank 2's bucket is on its way. */
  lemma FirstRound() returns (c: Cluster)
    ensures Snapshot(c, Shared(Leader(Two(), OwnGrads(PairDrive([], false)), PairPending)), Heard1() + {Late()})
  {
    hide Snapshot, Step, PolicyFor, Unit;
    c := Beginning();
    var ranks := AllFresh();
    c := RunAlone(c, ranks, {}, 1, Ones);
    ranks := ranks[1 := Solo(1, Ones, 1, Yielding)];
    Narrow(c, ranks, {} + {Hello(1, 1, false, true), SoloRound(1, Ones, 0)}, Heard1());
    c := JoinsBehind(c, ranks, Heard1(), 2);
    ranks := ranks[2 := Follower(2, true)];
    LeaderHearsTwo();
    c := Then(c, ranks, Heard1() + {Beat(2, 1, true, true)}, 1, Deliver(Beat(2, 1, true, true)),
        Outcome(Leader(Two(), Yielding, None), []), Heard1());
    ranks := ranks[1 := Leader(Two(), Yielding, None)];
    var driving := Leader(Two(), OwnGrads(PairDrive([], false)), PairPending);
    LeaderOpens();
    c := Then(c, ranks, Heard1(), 1, YieldResume, Outcome(driving, [PairRound(Ones, 0)]),
        Heard1() + {PairRound(Ones, 0)});
    ranks := ranks[1 := driving];
    FollowerWorks();
    c := Then(c, ranks, Heard1() + {PairRound(Ones, 0)}, 2, Deliver(PairRound(Ones, 0)), Outcome(Working2(), []),
        Heard1());
    ranks := ranks[2 := Working2()];
    FollowerAnswers();
    c := Then(c, ranks, Heard1(), 2, ContribDone, Outcome(Working2().(contributing := None), [Late()]),
        Heard1() + {Late()});
    assert ranks[2 := Working2().(contributing := None)] == Shared(driving);
  }

  /** Rank 1 goes on alone to step 2, stops, and adopts step 1 of rank 0, which has started by itself. */
  lemma SecondTerm() returns (c: Cluster, ranks: map<Id, Rank>)
    ensures Snapshot(c, ranks, {Late()}) && 1 in ranks && ranks[1] == Returned(false, Idle, None)
  {
    hide Snapshot, Step, PolicyFor, Unit;
    c := FirstRound();
    var sent := Heard1() + {Late()};
    ranks := Shared(Leader(Two(), OwnGrads(PairDrive([], false)), PairPending));
    var collected := Leader(Two(), Collecting(PairDrive([OwnFirst()], true)), PairPending);
    LeaderCollects();
    c := Then(c, ranks, sent, 1, OwnGradsDone, Outcome(collected, []), {Late()});
    ranks := ranks[1 := collected];
    LeaderMovesOn();
    c := Then(c, ranks, {Late()}, 1, CollectResume, Outcome(AtTwo(true, Yielding), []), {Late()});
    ranks := ranks[1 := AtTwo(true, Yielding)];
    LeaderStops();
    c := Then(c, ranks, {Late()}, 1, Stop, Outcome(AtTwo(false, Yielding), [Beat(1, 1, true, false)]), {Late()});
    ranks := ranks[1 := AtTwo(false, Yielding)];
    LeaderExits();
    c := Then(c, ranks, {Late()}, 1, YieldResume, Outcome(AtTwo(false, Idle), [Round(1, 2, 0.05, map[], Ones, 0)]),
        {Late()});
    ranks := ranks[1 := AtTwo(false, Idle)];
    c, ranks := Usurped(c, ranks);
  }

  /** Rank 0 starts by itself and opens step 1; rank 1, idle, adopts it. */
  lemma Usurped(c: Cluster, ranks: map<Id, Rank>) returns (d: Cluster, ranks': map<Id, Rank>)
    requires Snapshot(c, ranks, {Late()}) && 0 in ranks && 1 in ranks && ranks[0] == Fresh(0, Zeros) &&
             ranks[1] == AtTwo(false, Idle)
    ensures Snapshot(d, ranks', {Late()}) && 1 in ranks' && ranks'[1] == Returned(false, Idle, None)
  {
    hide Snapshot, Step, PolicyFor, Unit;
    var alone := {Late()} + {Hello(0, 1, false, true), SoloRound(0, Zeros, 0)};
    d := RunAlone(c, ranks, {Late()}, 0, Zeros);
    ranks' := ranks[0 := Solo(0, Zeros, 1, Yielding)];
    var driving := Solo(0, Zeros, 1, OwnGrads(SoloDrive(0, 1)));
    SoloContinues(0, Zeros);
    d := Then(d, ranks', alone, 0, YieldResume, Outcome(driving, [SoloRound(0, Zeros, 1)]),
        {Late(), SoloRound(0, Zeros, 1)});
    ranks' := ranks'[0 := driving];
    LeaderAdopts();
    d := Then(d, ranks', {Late(), SoloRound(0, Zeros, 1)}, 1, Deliver(SoloRound(0, Zeros, 1)),
        Outcome(Returned(false, Idle, None), []), {Late()});
    ranks' := ranks'[1 := Returned(false, Idle, None)];
  }

  /** The step number alone lets the past in. In a reachable cluster a leader is about to apply an
      average that holds a bucket of an earlier term of its own, computed against parameters that
      this step was never opened with. */
  lemma StaleTermAveraged()
    ensures exists c, e ::
              && Reachable(Mcs, c) && 1 in c.ranks && Finishing(c.ranks[1]) && e in Averaged(Unit(1), c.ranks[1])
              && e.id == 2 && e.term < c.ranks[1].term && !Current(Unit(1), Unit(2), c.ranks[1], e)
  {
    hide Snapshot, Step, PolicyFor, Unit, Current, Reachable;
    var c, ranks := SecondTerm();
    var going := Returned(true, OwnGrads(PairDrive([], false)), PairPending);
    var taken := Returned(true, OwnGrads(PairDrive([Stale()], true)), PairPending);
    var done := Returned(true, Collecting(PairDrive([Stale(), OwnReturned()], true)), PairPending);
    LeaderReturns();
    c := Then(c, ranks, {Late()}, 1, Start(None), Outcome(going, [Hello(1, 1, true, true), PairRound(Zeros, 1)]),
        {Late()});
    ranks := ranks[1 := going];
    LeaderTakesLate();
    c := Then(c, ranks, {Late()}, 1, Deliver(Late()), Outcome(taken, []), {});
    ranks := ranks[1 := taken];
    LeaderCollectsLate();
    c := Then(c, ranks, {}, 1, OwnGradsDone, Outcome(done, []), {});
    ranks := ranks[1 := done];
    SnapshotRank(c, ranks, {}, 1);
    StaleIsNotCurrent(done);
    assert Stale() in Averaged(Unit(1), done);
  }

  lemma SnapshotRank(c: Cluster, ranks: map<Id, Rank>, sent: set<Msg>, id: Id)
    requires Snapshot(c, ranks, sent) && id in ranks
    ensures Reachable(Mcs, c) && id in c.ranks && c.ranks[id] == ranks[id]
  {
    hide Reachable;
  }

  lemma StaleIsNotCurrent(r: Rank)
    requires r.params == Zeros
    ensures !Current(Unit(1), Unit(2), r, Stale())
  {
    hide Wire;
    UnitWire(1, Zeros);
    UnitWire(2, Zeros);
    assert Ones[0] != Zeros[0];
  }

  /** Nor does a retry keep windows apart. In a reachable cluster a leader that reopened a step after
      a fault, with one rank more, is about to apply an average whose two buckets, of one term, both
      cover sample 3. */
  lemma RetryOverlaps()
    ensures exists c :: Reachable(Mcs, c) && 1 in c.ranks && Finishing(c.ranks[1])
              && (forall e :: e in Averaged(Unit(1), c.ranks[1]) ==> e.term == c.ranks[1].term && 3 in Window(e))
              && !Apart(Averaged(Unit(1), c.ranks[1])) &&
                 |Windows(Averaged(Unit(1), c.ranks[1]))| < Samples(Averaged(Unit(1), c.ranks[1]))
  {
    hide Snapshot, Step, PolicyFor, Unit, Reachable;
    var c := FirstRound();
    var sent := Heard1() + {Late()};
    var ranks := Shared(Leader(Two(), OwnGrads(PairDrive([], false)), PairPending));
    c := JoinsBehind(c, ranks, sent, 3);
    ranks := ranks[3 := Follower(3, true)];
    var wider := Leader(Three(), OwnGrads(PairDrive([], false)), PairPending);
    LeaderHearsThree();
    c := Then(c, ranks, sent + {Beat(3, 1, true, true)}, 1, Deliver(Beat(3, 1, true, true)), Outcome(wider, []),
        {Late()});
    ranks := ranks[1 := wider];
    LeaderFaults();
    c := Then(c, ranks, {Late()}, 1, OwnGradsFault, Outcome(Leader(Three(), Backoff, None), []), {Late()});
    ranks := ranks[1 := Leader(Three(), Backoff, None)];
    LeaderBacksOff();
    c := Then(c, ranks, {Late()}, 1, BackoffResume, Outcome(Leader(Three(), Yielding, None), []), {Late()});
    ranks := ranks[1 := Leader(Three(), Yielding, None)];
    c, ranks := Retried(c, ranks);
    SnapshotRank(c, ranks, {}, 1);
    OverlapAt(ranks[1]);
  }

  function RetryDone(): Rank {
    Leader(Three(), Collecting(TripleDrive([Stale(), OwnRetried()], true)), TriplePending)
  }

  lemma Retried(c: Cluster, ranks: map<Id, Rank>) returns (d: Cluster, ranks': map<Id, Rank>)
    requires Snapshot(c, ranks, {Late()}) && 1 in ranks && ranks[1] == Leader(Three(), Yielding, None)
    ensures Snapshot(d, ranks', {}) && 1 in ranks' && ranks'[1] == RetryDone()
  {
    hide Snapshot, Step, PolicyFor, Unit;
    var going := Leader(Three(), OwnGrads(TripleDrive([], false)), TriplePending);
    var taken := Leader(Three(), OwnGrads(TripleDrive([Stale()], true)), TriplePending);
    LeaderRetries();
    d := Then(c, ranks, {Late()}, 1, YieldResume, Outcome(going, [TripleRound()]), {Late()});
    ranks' := ranks[1 := going];
    RetryTakesLate();
    d := Then(d, ranks', {Late()}, 1, Deliver(Late()), Outcome(taken, []), {});
    ranks' := ranks'[1 := taken];
    RetryCollects();
    d := Then(d, ranks', {}, 1, OwnGradsDone, Outcome(RetryDone(), []), {});
    ranks' := ranks'[1 := RetryDone()];
  }

  lemma OverlapAt(r: Rank)
    requires r == RetryDone()
    ensures Finishing(r) && Averaged(Unit(1), r) == [Stale(), OwnRetried()]
    ensures var got := Averaged(Unit(1), r);
            && (forall e :: e in got ==> e.term == r.term && 3 in Window(e)) && !Apart(got) &&
               |Windows(got)| < Samples(got)
  {
    hide PolicyFor;
    var got := [Stale(), OwnRetried()];
    assert 3 in Window(got[0]) && 3 in Window(got[1]);
    CountedOnceIff(got);
  }
}
