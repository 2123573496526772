/** How rival leaders disappear: who stands down, who may open a round, and whom an idle rank
    follows. */
module SplitBrain {
  import opened Wrappers
  import opened Reduce
  import opened Policy
  import opened Protocol
  import opened RankSafety
  import opened Cluster
  import opened Effects

  // ── standing down ─────────────────────────────────────────────────────────

  /** A round from a lower id ends a rival's claim at once: its collection is released and
      resolved, it defers for a takeover window, and it keeps its own parameters meanwhile. */
  lemma RivalStandsDown(mc: Machine, r: Rank, m: Msg, now: real)
    requires Valid(mc, r) && Looping(r) && m.Round? && m.from < mc.id && !r.disposed
    ensures var o := OnMessage(mc, r, m, now);
            && o.rank.pending.None? && o.rank.deferUntil == now + mc.timing.takeover
            && Unmoved(r, o.rank) && o.sent == [HelloOf(mc, r)]
            && (Driving(o.rank) && |o.rank.pc.drive.cohort| > 1 ==> o.rank.pc.drive.settled)
  {
    hide Follows, Alive, Heard, FromCohort, Windowed, CollectionOpen, Ranks, OwnBucket;
    var h := r.(members := r.members[m.from := Heard(r, m, now)]).(lastOpen := now);
    KeepDrive(mc, r, h);
    ReleaseValid(mc, h);
  }

  /** The lower id does not yield to the higher one. */
  lemma LowerStands(mc: Machine, r: Rank, m: Msg, now: real)
    requires Looping(r) && m.Round? && m.from >= mc.id
    ensures var o := OnMessage(mc, r, m, now);
            o.sent == [] && o.rank == r.(members := o.rank.members, lastOpen := o.rank.lastOpen)
  {
    hide Heard;
  }

  /** Exactly when a round is adopted: the rank is not leading, no rank it knows to be alive, ready
      and running is below the sender, itself included, and it is not a late duplicate. */
  lemma AdoptsOnlyLowest(mc: Machine, r: Rank, m: Msg, now: real)
    requires m.Round?
    ensures OnMessage(mc, r, m, now).rank.term == r.term + 1 <==>
            && !r.disposed && m.from != mc.id && !Looping(r) && r.pending.None?
            && (r.running && r.ready ==> m.from <= mc.id)
            && (forall k | k in r.members && r.members[k].ready && r.members[k].running ::
                 now - r.members[k].seen <= r.policy.drop ==> m.from <= k)
            && !(r.roundsFrom == Some(m.from) && m.step < r.step)
  {
    hide OnMessage;
    MessageSettings(mc, r, m, now);
  }

  // ── suppression ───────────────────────────────────────────────────────────

  /** Some lower id is ready and running, and has been heard within the shortest drop time. */
  ghost predicate HearsLower(mc: Machine, r: Rank, now: real) {
    exists k :: k in r.members && k < mc.id && r.members[k].ready && r.members[k].running &&
      now - r.members[k].seen <= mc.timing.drop
  }

  /** A rank that must not lead at `now`: it defers, or it hears a lower one. */
  ghost predicate Suppressed(mc: Machine, r: Rank, now: real) {
    now < r.deferUntil || HearsLower(mc, r, now)
  }

  ghost predicate Slack(mc: Machine, r: Rank) {
    r.policy.drop >= mc.timing.drop
  }

  lemma PrunedStillHears(mc: Machine, r: Rank, now: real)
    requires Slack(mc, r)
    ensures Suppressed(mc, r, now) ==> Suppressed(mc, Live(r, now), now) && Suppressed(mc, Asked(r, now), now)
  {
    if HearsLower(mc, r, now) {
      var k :| k in r.members && k < mc.id && r.members[k].ready && r.members[k].running &&
        now - r.members[k].seen <= mc.timing.drop;
      assert Alive(r, k, now);
      assert k in Live(r, now).members && k in Asked(r, now).members;
    }
  }

  lemma SuppressedCannotLead(mc: Machine, r: Rank, now: real)
    requires Slack(mc, r)
    ensures Suppressed(mc, r, now) ==> !Leads(mc, Asked(r, now), now) && !Leads(mc, r, now)
  {
    PrunedStillHears(mc, r, now);
    HearingIsNotLeading(mc, r, now);
    HearingIsNotLeading(mc, Asked(r, now), now);
  }

  lemma HearingIsNotLeading(mc: Machine, r: Rank, now: real)
    ensures Suppressed(mc, r, now) ==> !Leads(mc, r, now)
  {
    if HearsLower(mc, r, now) {
      var k :| k in r.members && k < mc.id && r.members[k].ready && r.members[k].running &&
        now - r.members[k].seen <= mc.timing.drop;
      assert k in Cohort(mc, r);
    }
  }

  /** How many of its own resumptions separate a loop from its end, when it may not lead. */
  function Weight(pc: Pc): nat {
    match pc
    case Idle => 0
    case Yielding => 1
    case Backoff => 2
    case Collecting(d) => if d.settled then 3 else 4
    case OwnGrads(_) => 5
    case Pressure(w) => if w < 20 then 26 - w else 6
  }

  /** A resumption of the rank's own loop. */
  predicate Own(e: Event) {
    e.PressureResume? || e.OwnGradsDone? || e.OwnGradsFault? || e.CollectTimer? || e.CollectResume? ||
      e.BackoffResume? || e.YieldResume?
  }

  lemma LoopSuppressed(mc: Machine, r: Rank, now: real, pressure: bool)
    requires Slack(mc, r) && Suppressed(mc, r, now)
    ensures Loop(mc, r, now, pressure).rank.pc == r.pc
    ensures LoopHead(mc, r, now, pressure).rank.pc == Idle
  {
    hide Leads, Suppressed, Alive, RoundOf, OpenRound;
    SuppressedCannotLead(mc, r, now);
  }

  lemma ReleaseWeight(r: Rank)
    ensures Weight(Release(r).pc) <= Weight(r.pc) && (Release(r).pc.Idle? <==> r.pc.Idle?)
    ensures Driving(Release(r)) ==> Driving(r)
  {
  }

  lemma MessageWeight(mc: Machine, r: Rank, m: Msg, now: real)
    ensures var s := OnMessage(mc, r, m, now).rank;
            Weight(s.pc) <= Weight(r.pc) && (Driving(s) ==> Driving(r))
  {
    hide Follows, Alive, Heard, Release, Put;
    ReleaseWeight(r.(members := r.members[m.from := Heard(r, m, now)], lastOpen := now));
  }

  lemma CollectWeight(mc: Machine, r: Rank, now: real)
    requires r.pc.OwnGrads?
    ensures Weight(Collect(mc, r, r.pc.drive, now).pc) < Weight(r.pc)
  {
    hide Put, OwnBucket, Collect, FinishRound;
    if |r.pc.drive.cohort| <= 1 {
      CollectAlone(mc, r, now);
      FinishYields(mc, r, Averaged(mc, r), now);
    } else {
      CollectShape(mc, r, now);
    }
  }

  lemma FinishYields(mc: Machine, r: Rank, got: seq<Bucket>, now: real)
    ensures FinishRound(mc, r, got, now).pc.Yielding?
  {
  }

  lemma OpenWeight(mc: Machine, r: Rank, now: real)
    ensures OpenRound(mc, r, now).rank.pc.OwnGrads?
  {
    hide NewDrive;
  }

  lemma CallsSuppressed(mc: Machine, r: Rank, i: Input)
    requires Valid(mc, r) && Enabled(r, i.event) && Suppressed(mc, r, i.now)
    requires i.event.Start? || i.event.JoinTick? || i.event.Tick?
    ensures Step(mc, r, i).rank.pc == r.pc
  {
    hide Loop, Suppressed, DriveValid, Alive, NobodyReady, Lowest, TakesOver, PolicyFor;
    match i.event
    case Start(nextLr) =>
      SameSuppression(mc, r, Started(r, nextLr), i.now);
      LoopSuppressed(mc, Started(r, nextLr), i.now, i.pressure);
    case JoinTick =>
      PrunedStillHears(mc, r, i.now);
      SameSuppression(mc, Live(r, i.now), Promoted(Live(r, i.now)), i.now);
      LoopSuppressed(mc, Promoted(Live(r, i.now)), i.now, i.pressure);
    case Tick =>
      PrunedStillHears(mc, r, i.now);
      var p := Retune(mc, r, i.now);
      SameSuppression(mc, Live(r, i.now), p, i.now);
      PrunedStillHears(mc, p, i.now);
      SameSuppression(mc, Asked(p, i.now), Asked(p, i.now).(lastOpen := i.now), i.now);
      LoopSuppressed(mc, Asked(p, i.now).(lastOpen := i.now), i.now, i.pressure);
    case _ =>
  }

  lemma SameSuppression(mc: Machine, r: Rank, s: Rank, now: real)
    requires s.members == r.members && s.deferUntil == r.deferUntil
    ensures Suppressed(mc, s, now) == Suppressed(mc, r, now)
  {
  }

  lemma FaultBacksOff(r: Rank, now: real)
    ensures FailRound(r, now).pc.Backoff?
  {
  }

  lemma StopPc(mc: Machine, r: Rank, now: real)
    ensures DoStop(mc, r, now).rank.pc == r.pc
  {
    hide Alive, Leads, RoundOf;
  }

  /** A suppressed rank only ever gets closer to idle, and each of its own resumptions brings it
      strictly closer. */
  lemma SuppressedFalls(mc: Machine, r: Rank, i: Input)
    requires Valid(mc, r) && Enabled(r, i.event) && Suppressed(mc, r, i.now)
    ensures Weight(Step(mc, r, i).rank.pc) <= Weight(r.pc)
    ensures Own(i.event) ==> Weight(Step(mc, r, i).rank.pc) < Weight(r.pc)
  {
    hide Suppressed, DriveValid, OpenRound, LoopHead, OnMessage, Collect, Release, FinishRound, Live, DoTick, DoStart,
         DoJoinTick, Leads, RoundOf;
    match i.event
    case CollectResume => FinishYields(mc, r.(pending := None), r.pc.drive.got, i.now);
    case OwnGradsFault => FaultBacksOff(r, i.now);
    case Stop => StopPc(mc, r, i.now);
    case ContribFault => LiveFields(r.(contributing := None), i.now);
    case Deliver(m) => MessageWeight(mc, r, m, i.now);
    case Start(_) => CallsSuppressed(mc, r, i);
    case JoinTick => CallsSuppressed(mc, r, i);
    case Tick => CallsSuppressed(mc, r, i);
    case OwnGradsDone => CollectWeight(mc, r, i.now);
    case Dispose => ReleaseWeight(r);
    case PressureResume => OpenWeight(mc, r, i.now);
    case YieldResume => LoopSuppressed(mc, r, i.now, i.pressure);
    case _ =>
  }

  ghost predicate Opens(mc: Machine, r: Rank, i: Input)
    requires Enabled(r, i.event)
  {
    !Driving(r) && Driving(Step(mc, r, i).rank)
  }

  /** Exactly when a suppressed rank still opens a round: the leader check came before the wait for
      the transport, and nothing looks again when that wait ends. */
  lemma SuppressedOpens(mc: Machine, r: Rank, i: Input)
    requires Valid(mc, r) && Enabled(r, i.event) && Suppressed(mc, r, i.now)
    ensures Opens(mc, r, i) <==> i.event == PressureResume && (r.pc.waited + 1 >= 20 || !i.pressure)
  {
    hide Suppressed, DriveValid, OpenRound, LoopHead, OnMessage, Release, Alive, DoTick, DoStart, DoJoinTick, Leads,
         Average, Wire;
    match i.event
    case Deliver(m) => MessageWeight(mc, r, m, i.now);
    case Start(_) => CallsSuppressed(mc, r, i);
    case JoinTick => CallsSuppressed(mc, r, i);
    case Tick => CallsSuppressed(mc, r, i);
    case Dispose => ReleaseWeight(r);
    case PressureResume => OpenWeight(mc, r, i.now);
    case YieldResume => LoopSuppressed(mc, r, i.now, i.pressure);
    case _ =>
  }

  /** The input that shows it: a rival told to stand down during its transport wait defers, and
      then announces a full round of its own stale parameters all the same. */
  lemma DeferringRivalOpens(mc: Machine, r: Rank, m: Msg, now: real)
    requires Valid(mc, r) && r.pc.Pressure? && !r.disposed && m.Round? && m.from < mc.id && mc.timing.takeover > 0.0
    ensures var s := Step(mc, r, Input(Deliver(m), now, false)).rank;
            && s.pc == r.pc && now < s.deferUntil && Suppressed(mc, s, now)
            && var o := Step(mc, s, Input(PressureResume, now, false));
               o.rank.pc.OwnGrads? && |o.sent| == 1 && o.sent[0].Round? && o.sent[0].params == Wire(mc, r.params)
  {
    hide NewDrive, Alive, Heard, Wire, MinNat;
  }

  // ── staying heard ─────────────────────────────────────────────────────────

  /** `low` is known to be ready and running. */
  ghost predicate Knows(r: Rank, low: Id) {
    low in r.members && r.members[low].ready && r.members[low].running
  }

  /** The last word of `low` is recent enough at `now`. */
  ghost predicate Timely(mc: Machine, r: Rank, low: Id, now: real) {
    low in r.members && now - r.members[low].seen <= mc.timing.drop
  }

  /** `low` itself says that it stopped, or is not ready. */
  predicate Retracts(e: Event, low: Id) {
    e.Deliver? && e.m.from == low && (e.m.Hello? || e.m.Beat?) && !(e.m.ready && e.m.running)
  }

  lemma StillKnown(mc: Machine, r: Rank, i: Input, low: Id)
    requires mc.timing.drop >= 0.0 && Valid(mc, r) && Enabled(r, i.event) && Knows(r, low) &&
             Timely(mc, r, low, i.now) && !Retracts(i.event, low)
    ensures Knows(Step(mc, r, i).rank, low)
  {
    hide Step, DriveValid, PolicyFor, AdoptsRound, Bootstraps, Alone, Yields, NextWork, Prunes;
    SettingsMove(mc, r, i);
    RosterIs(mc, r, i);
    assert low in StillRecent(r, Step(mc, r, i).rank.policy, i.now);
    if i.event.Deliver? {
      var h := r.(members := r.members[i.event.m.from := Told(r, i.event.m, i.now)]);
      assert low in StillRecent(h, r.policy, i.now);
    }
  }

  lemma HearingSuppresses(mc: Machine, r: Rank, low: Id, now: real)
    requires Knows(r, low) && Timely(mc, r, low, now) && low < mc.id
    ensures Suppressed(mc, r, now)
  {
  }

  /** A word from `low` makes it known, and counts from now. */
  lemma WordIsHeard(mc: Machine, r: Rank, m: Msg, now: real)
    requires (m.Hello? || m.Beat?) && m.ready && m.running && m.from != mc.id && !r.disposed
    ensures var s := OnMessage(mc, r, m, now).rank; Knows(s, m.from) && s.members[m.from].seen == now
  {
  }

  /** Only standing down moves the deferral: a round from below while this rank leads, and then to a
      takeover window from now. */
  lemma DeferralMoves(mc: Machine, r: Rank, i: Input)
    requires Enabled(r, i.event)
    ensures Step(mc, r, i).rank.deferUntil ==
            if i.event.Deliver? && i.event.m.Round? && !r.disposed && (Looping(r) || r.pending.Some?) &&
              i.event.m.from < mc.id then i.now + mc.timing.takeover else r.deferUntil
  {
    hide Step;
    SettingsMove(mc, r, i);
  }

  // ── a single rank, over a run ─────────────────────────────────────────────

  ghost predicate Trace(mc: Machine, r: Rank, inputs: seq<Input>)
    decreases |inputs|
  {
    inputs == [] || (Enabled(r, inputs[0].event) && Trace(mc, Step(mc, r, inputs[0]).rank, inputs[1..]))
  }

  ghost function End(mc: Machine, r: Rank, inputs: seq<Input>): Rank
    requires Trace(mc, r, inputs)
    decreases |inputs|
  {
    if inputs == [] then r else End(mc, Step(mc, r, inputs[0]).rank, inputs[1..])
  }

  function Resumptions(inputs: seq<Input>): nat {
    if inputs == [] then 0 else (if Own(inputs[0].event) then 1 else 0) + Resumptions(inputs[1..])
  }

  /** How often the run opens a round. */
  ghost function Openings(mc: Machine, r: Rank, inputs: seq<Input>): nat
    requires Trace(mc, r, inputs)
    decreases |inputs|
  {
    if inputs == [] then 0
    else (if Opens(mc, r, inputs[0]) then 1 else 0) + Openings(mc, Step(mc, r, inputs[0]).rank, inputs[1..])
  }

  /** After it stood down, and as long as the clock stays inside the takeover window, a rival opens
      at most the one round whose transport wait it was already in, and every resumption of its loop
      brings it closer to idle: after at most `Weight` of them it is idle for the rest of the run. */
  lemma {:induction false} DeferringRivalFalls(mc: Machine, r: Rank, inputs: seq<Input>, from: real)
    requires Valid(mc, r) && Trace(mc, r, inputs) && r.deferUntil >= from + mc.timing.takeover
    requires forall k :: 0 <= k < |inputs| ==> from <= inputs[k].now < from + mc.timing.takeover
    ensures var s := End(mc, r, inputs);
            && Weight(s.pc) + Resumptions(inputs) <= Weight(r.pc)
            && Openings(mc, r, inputs) <= (if r.pc.Pressure? then 1 else 0)
            && s.deferUntil >= from + mc.timing.takeover
    decreases |inputs|
  {
    hide Valid, Step, Enabled;
    if inputs != [] {
      var i, s := inputs[0], Step(mc, r, inputs[0]).rank;
      SuppressedFalls(mc, r, i);
      SuppressedOpens(mc, r, i);
      DeferralMoves(mc, r, i);
      ValidKept(mc, r, i);
      NoNewWait(mc, r, i);
      DeferringRivalFalls(mc, s, inputs[1..], from);
    }
  }

  /** A suppressed rank does not enter the transport wait, and leaves it for good when it opens. */
  lemma NoNewWait(mc: Machine, r: Rank, i: Input)
    requires Valid(mc, r) && Enabled(r, i.event) && Suppressed(mc, r, i.now)
    ensures var s := Step(mc, r, i).rank; s.pc.Pressure? ==> r.pc.Pressure? && !Opens(mc, r, i)
  {
    hide Suppressed, DriveValid, OpenRound, LoopHead, OnMessage, Collect, Release, FinishRound, DoTick, DoStart,
         DoJoinTick, Leads, RoundOf, Alive;
    match i.event
    case Deliver(m) => MessageWait(mc, r, m, i.now);
    case Start(_) => CallsSuppressed(mc, r, i);
    case JoinTick => CallsSuppressed(mc, r, i);
    case Tick => CallsSuppressed(mc, r, i);
    case OwnGradsDone => CollectWeight(mc, r, i.now);
    case Dispose => ReleaseWait(r);
    case CollectResume => FinishYields(mc, r.(pending := None), r.pc.drive.got, i.now);
    case PressureResume => OpenWeight(mc, r, i.now);
    case YieldResume => LoopSuppressed(mc, r, i.now, i.pressure);
    case _ =>
  }

  lemma ReleaseWait(r: Rank)
    ensures Release(r).pc.Pressure? ==> r.pc.Pressure?
  {
  }

  lemma MessageWait(mc: Machine, r: Rank, m: Msg, now: real)
    ensures OnMessage(mc, r, m, now).rank.pc.Pressure? ==> r.pc.Pressure?
  {
    hide Follows, Alive, Heard, Put;
  }

  // ── the whole cluster ─────────────────────────────────────────────────────

  /** Ranks other than `low` that drive, or are about to. */
  ghost function Rivals(c: Cluster, low: Id): set<Id> {
    set id | id in c.ranks && id != low && Looping(c.ranks[id])
  }

  ghost predicate AllKnow(c: Cluster, low: Id) {
    forall id :: id in c.ranks && id != low ==> id > low && Knows(c.ranks[id], low)
  }

  /** `low` keeps being heard: no rank acts on a word older than the drop time, and none hears
      `low` retract. Nothing is asked of loss, delay or order otherwise. */
  ghost predicate HeardRun(mcs: Machines, cs: seq<Cluster>, labels: seq<Label>, low: Id)
    requires IsRun(mcs, cs, labels)
  {
    forall k {:trigger HeardAt(mcs, cs, labels, low, k)} :: 0 <= k < |labels| ==> HeardAt(mcs, cs, labels, low, k)
  }

  ghost predicate HeardAt(mcs: Machines, cs: seq<Cluster>, labels: seq<Label>, low: Id, k: nat)
    requires IsRun(mcs, cs, labels) && k < |labels|
  {
    assert StepTo(mcs, cs, labels, k);
    labels[k].id != low ==> HeardStep(mcs, cs[k], low, labels[k])
  }

  ghost predicate HeardStep(mcs: Machines, c: Cluster, low: Id, l: Label)
    requires CanStep(mcs, c, l)
  {
    Timely(mcs[l.id], c.ranks[l.id], low, l.input.now) && !Retracts(l.input.event, low)
  }

  /** How often rank `id`'s loop resumes in the first `n` labels. */
  function OwnSteps(labels: seq<Label>, id: Id, n: nat): nat
    requires n <= |labels|
  {
    if n == 0 then 0
    else OwnSteps(labels, id, n - 1) + if labels[n - 1].id == id && Own(labels[n - 1].input.event) then 1 else 0
  }

  ghost function WeightOf(c: Cluster, id: Id): nat
    requires id in c.ranks
  {
    Weight(c.ranks[id].pc)
  }

  ghost predicate Timed(mcs: Machines) {
    forall id :: id in mcs ==> mcs[id].timing.drop >= 0.0
  }

  lemma HeardOnce(mcs: Machines, c: Cluster, low: Id, l: Label, id: Id)
    requires Inv(mcs, c) && Timed(mcs) && AllKnow(c, low) && CanStep(mcs, c, l) && id in c.ranks && id != low
    requires l.id != low ==> HeardStep(mcs, c, low, l)
    ensures var d := After(mcs, c, l);
            && id in d.ranks && Knows(d.ranks[id], low)
            && WeightOf(d, id) + (if l.id == id && Own(l.input.event) then 1 else 0) <= WeightOf(c, id)
  {
    hide Step, Enabled, Valid, Knows, Timely, Weight, Following, Working, RosterTrue, Gathering, Canonical, SoundMsg,
         Below;
    if l.id == id {
      var mc, r := mcs[id], c.ranks[id];
      assert SoundRank(mcs, c, id, r);
      StillKnown(mc, r, l.input, low);
      HearingSuppresses(mc, r, low, l.input.now);
      SuppressedFalls(mc, r, l.input);
    }
  }

  /** Along a run in which `low` is heard, everyone goes on knowing it. */
  lemma {:induction false} RunKnows(mcs: Machines, cs: seq<Cluster>, labels: seq<Label>, low: Id, n: nat)
    requires IsRun(mcs, cs, labels) && Inv(mcs, cs[0]) && Timed(mcs) && AllKnow(cs[0], low) &&
             HeardRun(mcs, cs, labels, low) && n < |cs|
    ensures Inv(mcs, cs[n]) && AllKnow(cs[n], low) && cs[n].ranks.Keys == cs[0].ranks.Keys
  {
    hide Inv, CanStep, HeardStep, Knows, Timed, After;
    if n > 0 {
      RunKnows(mcs, cs, labels, low, n - 1);
      RunKeeps(mcs, cs, labels, n);
      assert StepTo(mcs, cs, labels, n - 1) && HeardAt(mcs, cs, labels, low, n - 1);
      SameRanks(mcs, cs[n - 1], labels[n - 1]);
      forall k | k in cs[n].ranks && k != low ensures k > low && Knows(cs[n].ranks[k], low) {
        HeardOnce(mcs, cs[n - 1], low, labels[n - 1], k);
      }
    }
  }

  /** One id's share of a run in which `low` is heard. */
  lemma {:induction false} RivalFalls(mcs: Machines, cs: seq<Cluster>, labels: seq<Label>, low: Id, id: Id, n: nat)
    requires IsRun(mcs, cs, labels) && Inv(mcs, cs[0]) && Timed(mcs) && AllKnow(cs[0], low) &&
             HeardRun(mcs, cs, labels, low) && n < |cs|
    requires id in cs[0].ranks && id != low
    ensures id in cs[n].ranks && WeightOf(cs[n], id) + OwnSteps(labels, id, n) <= WeightOf(cs[0], id)
  {
    hide Inv, CanStep, HeardStep, AllKnow, WeightOf, Timed, After;
    if n > 0 {
      RivalFalls(mcs, cs, labels, low, id, n - 1);
      RunKnows(mcs, cs, labels, low, n - 1);
      assert StepTo(mcs, cs, labels, n - 1) && HeardAt(mcs, cs, labels, low, n - 1);
      HeardOnce(mcs, cs[n - 1], low, labels[n - 1], id);
    }
  }

  lemma SameRanks(mcs: Machines, c: Cluster, l: Label)
    requires CanStep(mcs, c, l)
    ensures After(mcs, c, l).ranks.Keys == c.ranks.Keys
  {
    hide Step;
  }

  /** Split brain resolves: while the lowest id is heard, rivals only ever drop out, and once each
      has had the few resumptions its loop still owed, none is left. */
  lemma RivalsFallToZero(mcs: Machines, cs: seq<Cluster>, labels: seq<Label>, low: Id)
    requires IsRun(mcs, cs, labels) && Reachable(mcs, cs[0]) && Timed(mcs) && AllKnow(cs[0], low) &&
             HeardRun(mcs, cs, labels, low)
    ensures var c, d := cs[0], cs[|labels|];
            && Rivals(d, low) <= Rivals(c, low)
            && (forall id :: id in Rivals(d, low) ==> id in c.ranks && OwnSteps(labels, id, |labels|) < WeightOf(c, id))
            && ((forall id :: id in Rivals(c, low) ==> OwnSteps(labels, id, |labels|) >= WeightOf(c, id)) ==>
               Rivals(d, low) == {})
  {
    hide Inv, AllKnow, HeardRun, IsRun, Reachable, Timed;
    RunLength(mcs, cs, labels);
    ReachableInv(mcs, cs[0]);
    RunKnows(mcs, cs, labels, low, |labels|);
    forall id | id in Rivals(cs[|labels|], low)
      ensures id in Rivals(cs[0], low) && OwnSteps(labels, id, |labels|) < WeightOf(cs[0], id)
    {
      RivalFalls(mcs, cs, labels, low, id, |labels|);
    }
  }
}
