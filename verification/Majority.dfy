/** What a heartbeat buys: until a newcomer is heard, every round waits for more than half of its
    cohort. */
module Majority {
  import opened Wrappers
  import opened Reduce
  import opened Policy
  import opened Protocol
  import opened RankSafety
  import opened Effects
  import opened SplitBrain

  /** The policy in force is for at least this rank and everyone it has on its roster. */
  ghost predicate Covered(r: Rank) {
    r.policy.n >= |r.members| + 1
  }

  /** No message of this event is the first of its sender. */
  ghost predicate Familiar(mc: Machine, r: Rank, e: Event) {
    e.Deliver? && Heeds(mc, r, e.m) ==> e.m.from in r.members
  }

  lemma PrunedSize(r: Rank, policy: Policy, now: real)
    ensures |Pruned(r, policy, now)| <= |RecentPeers(r, now)| <= |r.members|
  {
    assert Pruned(r, policy, now).Keys == StillRecent(r, policy, now);
    Smaller(StillRecent(r, policy, now), RecentPeers(r, now));
    Smaller(RecentPeers(r, now), r.members.Keys);
    assert |r.members| == |r.members.Keys| && |Pruned(r, policy, now)| == |Pruned(r, policy, now).Keys|;
  }

  /** A heartbeat makes it so, and nothing but a newcomer undoes it. */
  lemma CoverKept(mc: Machine, r: Rank, i: Input)
    requires Enabled(r, i.event) && (i.event == Tick || (Covered(r) && Familiar(mc, r, i.event)))
    ensures Covered(Step(mc, r, i).rank)
  {
    hide Step, Pruned, RecentPeers, StillRecent, AdoptsRound, Bootstraps, Alone, Yields;
    SettingsMove(mc, r, i);
    RosterIs(mc, r, i);
    PrunedSize(r, Step(mc, r, i).rank.policy, i.now);
    if i.event.Deliver? && Heeds(mc, r, i.event.m) {
      var h := r.(members := r.members[i.event.m.from := Told(r, i.event.m, i.now)]);
      assert h.members.Keys == r.members.Keys;
      assert |h.members| == |h.members.Keys| == |r.members.Keys| == |r.members|;
      PrunedSize(h, r.policy, i.now);
    }
  }

  lemma CohortFits(r: Rank, id: Id, peers: set<Id>, cohort: seq<Id>)
    requires peers <= r.members.Keys && Ascending(cohort) && forall k :: k in cohort ==> k == id || k in peers
    ensures |cohort| == |Elements(cohort)| <= |peers| + 1
  {
    SortedDistinct(cohort);
    CohortSize(cohort, Elements(cohort));
    Smaller(Elements(cohort), peers + {id});
  }

  /** A round opened under such a policy, or by the heartbeat itself, waits for a majority. */
  lemma OpensForMajority(mc: Machine, r: Rank, i: Input)
    requires Valid(mc, r) && Enabled(r, i.event) && !Driving(r) && Driving(Step(mc, r, i).rank)
    requires i.event == Tick || Covered(r)
    ensures var s := Step(mc, r, i).rank;
            s.pending.Some? ==>
              && (forall k :: k in s.pending.value.want <==> k in s.pc.drive.cohort)
              && |s.pc.drive.cohort| < 2 * s.pending.value.quorum
  {
    hide Step, RecentPeers, StillRecent, DriveValid, WindowsOf, BatchesOver, Announcement, AdoptsRound, Bootstraps,
         Alone, Quorum, Ascending;
    var s := Step(mc, r, i).rank;
    OpensOver(mc, r, i);
    SettingsMove(mc, r, i);
    var peers, n := StillRecent(r, s.policy, i.now), |s.pc.drive.cohort|;
    CohortFits(r, mc.id, peers, s.pc.drive.cohort);
    Smaller(peers, RecentPeers(r, i.now));
    Smaller(peers, r.members.Keys);
    assert |r.members| == |r.members.Keys|;
    if s.pending.Some? {
      QuorumMajority(n);
      QuorumGrows(n, s.policy.n);
      PolicyQuorum(s.policy.n, mc.timing);
      QuorumMajority(s.policy.n);
    }
  }

  ghost predicate NoNewcomer(mc: Machine, r: Rank, inputs: seq<Input>)
    requires Trace(mc, r, inputs)
    decreases |inputs|
  {
    inputs == [] || (Familiar(mc, r, inputs[0].event) && NoNewcomer(mc, Step(mc, r, inputs[0]).rank, inputs[1..]))
  }

  lemma {:induction false} RunCovered(mc: Machine, r: Rank, inputs: seq<Input>)
    requires Valid(mc, r) && Covered(r) && Trace(mc, r, inputs) && NoNewcomer(mc, r, inputs)
    ensures Covered(End(mc, r, inputs)) && Valid(mc, End(mc, r, inputs))
    decreases |inputs|
  {
    hide Step, Valid, Covered, Familiar;
    if inputs != [] {
      ValidKept(mc, r, inputs[0]);
      CoverKept(mc, r, inputs[0]);
      RunCovered(mc, Step(mc, r, inputs[0]).rank, inputs[1..]);
    }
  }

  /** After a heartbeat, over any run in which nobody new is heard, whatever else is lost, late or
      stopped: a round that is opened waits for more than half of its cohort. */
  lemma MajorityAfterHeartbeat(mc: Machine, r: Rank, beat: Input, inputs: seq<Input>, i: Input)
    requires Valid(mc, r) && beat.event == Tick && !r.disposed
    requires var q := Step(mc, r, beat).rank;
             && Trace(mc, q, inputs) && NoNewcomer(mc, q, inputs)
             && var e := End(mc, q, inputs); Enabled(e, i.event) && !Driving(e) && Driving(Step(mc, e, i).rank)
    ensures var s := Step(mc, End(mc, Step(mc, r, beat).rank, inputs), i).rank;
            s.pending.Some? ==>
              && (forall k :: k in s.pending.value.want <==> k in s.pc.drive.cohort)
              && |s.pc.drive.cohort| < 2 * s.pending.value.quorum
  {
    hide Step, Valid, Covered, Familiar, NoNewcomer, Trace, End;
    ValidKept(mc, r, beat);
    CoverKept(mc, r, beat);
    var q := Step(mc, r, beat).rank;
    RunCovered(mc, q, inputs);
    OpensForMajority(mc, End(mc, q, inputs), i);
  }
}
