/** What each event does to each field of a rank, spelled out on the roster, the clock and the message
    alone: who writes what, and when. */
module Effects {
  import opened Wrappers
  import opened Reduce
  import opened Policy
  import opened Protocol
  import opened RankSafety
  import opened Election

  /** The peers heard within the drop time of the policy in force. */
  function RecentPeers(r: Rank, now: real): (peers: set<Id>)
    ensures peers <= r.members.Keys
  {
    set k | k in r.members && now - r.members[k].seen <= r.policy.drop
  }

  /** Those of them the next policy does not give up either. */
  function StillRecent(r: Rank, policy: Policy, now: real): (peers: set<Id>)
    ensures peers <= RecentPeers(r, now)
  {
    set k | k in RecentPeers(r, now) && now - r.members[k].seen <= policy.drop
  }

  /** The fields that are settings: neither the roster, nor the loop, nor the model. */
  datatype Settings = Settings(running: bool, ready: bool, lr: real, joining: Option<nat>, disposed: bool,
    contributing: Option<Work>, roundsFrom: Option<Id>, deferUntil: real, policy: Policy)

  function SettingsOf(r: Rank): Settings {
    Settings(r.running, r.ready, r.lr, r.joining, r.disposed, r.contributing, r.roundsFrom, r.deferUntil, r.policy)
  }

  /** No recent peer holds parameters. */
  predicate Alone(r: Rank, now: real) {
    forall k :: k in RecentPeers(r, now) ==> !r.members[k].ready
  }

  /** A joiner starts from its own parameters: at the second look at least at which nobody recent
      holds any, as the lowest of those there are. */
  predicate Bootstraps(mc: Machine, r: Rank, now: real) {
    && r.joining.Some? && r.joining.value >= 1 && !r.ready && !r.disposed
    && Alone(r, now) && forall k :: k in RecentPeers(r, now) ==> mc.id <= k
  }

  predicate Heeds(mc: Machine, r: Rank, m: Msg) {
    !r.disposed && m.from != mc.id && (m.Grad? ==> m.to == mc.id)
  }

  /** A round that is followed: from the lowest rank there is, and no late duplicate. */
  predicate AdoptsRound(mc: Machine, r: Rank, m: Msg, now: real) {
    && m.Round? && Heeds(mc, r, m) && !Looping(r) && r.pending.None?
    && (r.running && r.ready ==> m.from <= mc.id)
    && (forall k :: k in RecentPeers(r, now) && r.members[k].ready && r.members[k].running ==> m.from <= k)
    && !(r.roundsFrom == Some(m.from) && m.step < r.step)
  }

  /** A round from a lower rank while this one leads. */
  predicate Yields(mc: Machine, r: Rank, m: Msg) {
    m.Round? && Heeds(mc, r, m) && (Looping(r) || r.pending.Some?) && m.from < mc.id
  }

  lemma LiveIs(r: Rank, now: real)
    ensures Live(r, now).members.Keys == RecentPeers(r, now)
    ensures forall k :: k in RecentPeers(r, now) ==> Live(r, now).members[k] == r.members[k]
    ensures SettingsOf(Live(r, now)) == SettingsOf(r)
  {
  }

  /** Nothing keeps a call or a message from coming at any time; a timer or a resumption comes only to a
      rank that has set it or waits for it. */
  lemma HappensWhen(r: Rank, e: Event)
    ensures e.Start? || e.Stop? || e.SetLr? || e.Dispose? || e.Deliver? ==> Enabled(r, e)
    ensures e == Tick ==> (Enabled(r, e) <==> !r.disposed)
    ensures e == JoinTick ==> (Enabled(r, e) <==> r.joining.Some?)
    ensures e == ContribDone || e == ContribFault ==> (Enabled(r, e) <==> r.contributing.Some?)
    ensures e == OwnGradsDone || e == OwnGradsFault ==> (Enabled(r, e) <==> r.pc.OwnGrads?)
    ensures e == CollectResume ==> (Enabled(r, e) <==> r.pc.Collecting? && r.pc.drive.settled)
    ensures e == PressureResume ==> (Enabled(r, e) <==> r.pc.Pressure?)
    ensures e == BackoffResume ==> (Enabled(r, e) <==> r.pc.Backoff?)
    ensures e == YieldResume ==> (Enabled(r, e) <==> r.pc.Yielding?)
  {
  }

  // ── settings ──────────────────────────────────────────────────────────────

  lemma LoopSettings(mc: Machine, r: Rank, now: real, pressure: bool)
    ensures SettingsOf(Loop(mc, r, now, pressure).rank) == SettingsOf(r)
    ensures SettingsOf(LoopHead(mc, r, now, pressure).rank) == SettingsOf(r)
    ensures SettingsOf(OpenRound(mc, r, now).rank) == SettingsOf(r)
  {
    hide Leads, NewDrive, RoundOf, Alive, MinNat;
  }

  lemma FinishSettings(mc: Machine, r: Rank, got: seq<Bucket>, now: real)
    ensures SettingsOf(FinishRound(mc, r, got, now)) == SettingsOf(r)
    ensures SettingsOf(Release(r)) == SettingsOf(r) && SettingsOf(FailRound(r, now)) == SettingsOf(r)
    ensures r.pc.OwnGrads? ==> SettingsOf(Collect(mc, r, r.pc.drive, now)) == SettingsOf(r)
  {
    hide Put, OwnBucket, Average, Wire, Alive;
  }

  lemma StartSettings(mc: Machine, r: Rank, nextLr: Option<real>, now: real, pressure: bool)
    ensures SettingsOf(DoStart(mc, r, nextLr, now, pressure).rank) ==
            SettingsOf(r).(running := true, lr := if nextLr.Some? then nextLr.value else r.lr,
                           joining := if r.ready then r.joining else Some(0))
  {
    hide Loop, Alive;
    LoopSettings(mc, Started(r, nextLr), now, pressure);
  }

  lemma TickSettings(mc: Machine, r: Rank, now: real, pressure: bool)
    ensures SettingsOf(DoTick(mc, r, now, pressure).rank) ==
            SettingsOf(r).(policy := PolicyFor(1 + |RecentPeers(r, now)|, mc.timing))
  {
    hide Loop, Live, Retune, PolicyFor, TakesOver, RecentPeers, SettingsOf;
    var p := Retune(mc, r, now);
    var a := Asked(p, now);
    RetuneIs(mc, r, now);
    LiveIs(p, now);
    SameSettings(a, now);
    LoopSettings(mc, a.(lastOpen := now), now, pressure);
    LiveIs(a, now);
    LiveIs(Loop(mc, a.(lastOpen := now), now, pressure).rank, now);
  }

  lemma SameSettings(r: Rank, now: real)
    ensures SettingsOf(r.(lastOpen := now)) == SettingsOf(r)
  {
  }

  lemma RetuneIs(mc: Machine, r: Rank, now: real)
    ensures SettingsOf(Retune(mc, r, now)) ==
            SettingsOf(r).(policy := PolicyFor(1 + |RecentPeers(r, now)|, mc.timing))
  {
    hide Live, PolicyFor;
    LiveIs(r, now);
    assert |Live(r, now).members| == |Live(r, now).members.Keys|;
  }

  lemma AloneIs(mc: Machine, r: Rank, now: real)
    ensures NobodyReady(Live(r, now).members) == Alone(r, now)
    ensures Lowest(mc, Live(r, now).members) <==> forall k :: k in RecentPeers(r, now) ==> mc.id <= k
  {
    hide Live;
    LiveIs(r, now);
    assert forall k :: k in Live(r, now).members <==> k in RecentPeers(r, now);
  }

  lemma JoinSettings(mc: Machine, r: Rank, now: real, pressure: bool)
    requires r.joining.Some?
    ensures SettingsOf(DoJoinTick(mc, r, now, pressure).rank) ==
            if r.disposed || r.ready then SettingsOf(r).(joining := None)
            else if Bootstraps(mc, r, now) then SettingsOf(r).(ready := true, joining := None)
            else SettingsOf(r).(joining := Some(r.joining.value + if Alone(r, now) then 1 else 0))
  {
    hide Loop, Live, NobodyReady, Lowest, Alone;
    AloneIs(mc, r, now);
    LiveIs(r, now);
    LoopSettings(mc, Promoted(Live(r, now)), now, pressure);
  }

  /** Who follows, on the roster before the message is taken in: the sender's own entry, which the
      message refreshes, never speaks against the sender. */
  lemma FollowsIs(mc: Machine, r: Rank, m: Msg, now: real)
    requires m.Round? && Heeds(mc, r, m)
    ensures var h := r.(members := r.members[m.from := Heard(r, m, now)], lastOpen := now);
            !Looping(r) && r.pending.None? ==> (Follows(mc, Live(h, now), m) <==> AdoptsRound(mc, r, m, now))
  {
    var h := r.(members := r.members[m.from := Heard(r, m, now)], lastOpen := now);
    var l := Live(h, now);
    LiveIs(h, now);
    FollowsNobodyLower(mc, l, m);
    assert forall k :: k != m.from ==> (k in RecentPeers(h, now) <==> k in RecentPeers(r, now));
    assert forall k :: k in RecentPeers(r, now) && k != m.from ==> l.members[k] == r.members[k];
  }

  lemma FollowsNobodyLower(mc: Machine, r: Rank, m: Msg)
    requires m.Round?
    ensures Follows(mc, r, m) <==>
            && (r.running && r.ready ==> m.from <= mc.id)
            && (forall k :: k in r.members && r.members[k].ready && r.members[k].running ==> m.from <= k)
            && !(r.roundsFrom == Some(m.from) && m.step < r.step)
  {
    var c := Cohort(mc, r);
    assert r.running && r.ready ==> mc.id in c;
    assert forall k :: k in r.members && r.members[k].ready && r.members[k].running ==> k in c;
  }

  /** What a round does to the settings: a leader yields to a lower rank, anyone else follows the
      rightful leader, and computes a bucket if the round asks for one and none is under way. */
  lemma MessageSettings(mc: Machine, r: Rank, m: Msg, now: real)
    ensures SettingsOf(OnMessage(mc, r, m, now).rank) ==
            if Yields(mc, r, m) then SettingsOf(r).(deferUntil := now + mc.timing.takeover)
            else if AdoptsRound(mc, r, m, now) then
              SettingsOf(r).(ready := true, joining := None, roundsFrom := Some(m.from),
                             contributing := NextWork(mc, r, m))
            else SettingsOf(r)
    ensures OnMessage(mc, r, m, now).rank.term == r.term + 1 <==> AdoptsRound(mc, r, m, now)
  {
    hide Follows, Heard, Live, Put, AdoptsRound, OnRound;
    if Heeds(mc, r, m) && m.Round? {
      var h := r.(members := r.members[m.from := Heard(r, m, now)], lastOpen := now);
      FollowsIs(mc, r, m, now);
      RoundSettings(mc, h, m, now);
      NotAdopted(mc, r, m, now);
    } else {
      NotAdopted(mc, r, m, now);
    }
  }

  function NextWork(mc: Machine, r: Rank, m: Msg): Option<Work>
    requires m.Round?
  {
    if r.running && r.contributing.None? && mc.id in m.assign
    then Some(Work(m.from, m.step, m.assign[mc.id], m.params, m.term)) else r.contributing
  }

  lemma NotAdopted(mc: Machine, r: Rank, m: Msg, now: real)
    ensures !(Heeds(mc, r, m) && m.Round?) || Looping(r) || r.pending.Some? ==> !AdoptsRound(mc, r, m, now)
  {
  }

  lemma RoundSettings(mc: Machine, r: Rank, m: Msg, now: real)
    requires m.Round?
    ensures var s := OnRound(mc, r, m, now).rank;
            if Looping(r) || r.pending.Some? then
              s.term == r.term &&
              SettingsOf(s) ==
              if m.from < mc.id then SettingsOf(r).(deferUntil := now + mc.timing.takeover) else SettingsOf(r)
            else if Follows(mc, Live(r, now), m) then
              s.term == r.term + 1 &&
              SettingsOf(s) == SettingsOf(r).(ready := true, joining := None, roundsFrom := Some(m.from),
                                              contributing := NextWork(mc, r, m))
            else s.term == r.term && SettingsOf(s) == SettingsOf(r)
  {
    hide Follows, Alive;
  }

  /** Every setting, under every event: who changes it, and to what. */
  lemma SettingsMove(mc: Machine, r: Rank, i: Input)
    requires Enabled(r, i.event)
    ensures var now, was := i.now, SettingsOf(r);
            SettingsOf(Step(mc, r, i).rank) ==
            match i.event
            case Start(nextLr) => was.(running := true, lr := if nextLr.Some? then nextLr.value else r.lr,
                                       joining := if r.ready then r.joining else Some(0))
            case Stop => was.(running := false)
            case SetLr(lr) => was.(lr := lr)
            case Dispose => was.(disposed := true, running := false, joining := None)
            case Tick => was.(policy := PolicyFor(1 + |RecentPeers(r, now)|, mc.timing))
            case JoinTick =>
              if r.disposed || r.ready then was.(joining := None)
              else if Bootstraps(mc, r, now) then was.(ready := true, joining := None)
              else was.(joining := Some(r.joining.value + if Alone(r, now) then 1 else 0))
            case Deliver(m) =>
              if Yields(mc, r, m) then was.(deferUntil := now + mc.timing.takeover)
              else if AdoptsRound(mc, r, m, now) then
                was.(ready := true, joining := None, roundsFrom := Some(m.from), contributing := NextWork(mc, r, m))
              else was
            case ContribDone => was.(contributing := None)
            case ContribFault => was.(contributing := None)
            case _ => was
  {
    hide OpenRound, LoopHead, OnMessage, FinishRound, Collect, DoStart, DoTick, DoJoinTick, Release, RecentPeers, Live,
         AdoptsRound, Bootstraps, Alone, GradOf, Leads, RoundOf, PolicyFor;
    match i.event
    case Start(nextLr) => StartSettings(mc, r, nextLr, i.now, i.pressure);
    case Stop => StopSettings(mc, r, i.now);
    case Tick => TickSettings(mc, r, i.now, i.pressure);
    case JoinTick => JoinSettings(mc, r, i.now, i.pressure);
    case Deliver(m) => MessageSettings(mc, r, m, i.now);
    case PressureResume => LoopSettings(mc, r, i.now, i.pressure);
    case YieldResume => LoopSettings(mc, r, i.now, i.pressure);
    case OwnGradsDone => FinishSettings(mc, r, [], i.now);
    case OwnGradsFault => FinishSettings(mc, r, [], i.now);
    case CollectResume => FinishSettings(mc, r.(pending := None), r.pc.drive.got, i.now);
    case Dispose => FinishSettings(mc, r, [], i.now);
    case ContribFault => LiveIs(r.(contributing := None), i.now);
    case _ =>
  }

  lemma StopSettings(mc: Machine, r: Rank, now: real)
    ensures SettingsOf(DoStop(mc, r, now).rank) == SettingsOf(r).(running := false)
  {
    hide Leads, Alive, RoundOf;
  }

  /** The first start of a new rank: running, with nothing to run on yet, at the default rate if none is
      given, and joining. */
  lemma FirstStart(mc: Machine, params: Params, nextLr: Option<real>, now: real, pressure: bool)
    ensures var s := Step(mc, Init(mc, params), Input(Start(nextLr), now, pressure)).rank;
            && SettingsOf(s) == Settings(true, false, if nextLr.Some? then nextLr.value else 0.05, Some(0), false, None,
                                         None, 0.0, PolicyFor(1, mc.timing))
            && s.params == params && s.step == 0 && s.members == map[] && s.pc == Idle && s.pending == None
  {
    hide PolicyFor;
  }

  /** A joiner never trains from fresh parameters while a run is in progress: it becomes ready exactly
      by adopting a round, or alone, as the lowest of live peers none of which holds parameters; and
      once ready it stays so. */
  lemma ReadyMoves(mc: Machine, r: Rank, i: Input)
    requires Enabled(r, i.event)
    ensures Step(mc, r, i).rank.ready <==>
            || r.ready
            || (i.event.Deliver? && AdoptsRound(mc, r, i.event.m, i.now))
            || (i.event == JoinTick && Bootstraps(mc, r, i.now))
  {
    hide Step, RecentPeers, AdoptsRound, Bootstraps;
    SettingsMove(mc, r, i);
    if i.event.Deliver? { NotBoth(mc, r, i.event.m, i.now); }
    if i.event == JoinTick { OnlyAJoiner(mc, r, i.now); }
  }

  lemma NotBoth(mc: Machine, r: Rank, m: Msg, now: real)
    ensures Yields(mc, r, m) ==> !AdoptsRound(mc, r, m, now)
  {
  }

  lemma OnlyAJoiner(mc: Machine, r: Rank, now: real)
    ensures Bootstraps(mc, r, now) ==> !r.ready && !r.disposed
  {
  }

  /** Two ranks that have heard each other lately do not both bootstrap. */
  lemma OneBootstraps(a: Machine, r: Rank, b: Machine, s: Rank, now: real, now': real)
    requires Bootstraps(a, r, now) && Bootstraps(b, s, now')
    requires b.id in RecentPeers(r, now) && a.id in RecentPeers(s, now')
    ensures a.id == b.id
  {
  }

  // ── the loop ──────────────────────────────────────────────────────────────

  /** Nobody recent, under the old policy and the new, that is ready and running has a lower id, and
      no deferral is in force. */
  predicate Rightful(mc: Machine, r: Rank, policy: Policy, now: real) {
    && now >= r.deferUntil
    && forall k :: k in StillRecent(r, policy, now) && r.members[k].ready && r.members[k].running ==> mc.id <= k
  }

  /** An idle rank starts its loop on a call, on a heartbeat once no round has been heard for the
      takeover time, or as it bootstraps; each time only as the rightful leader. */
  predicate LoopStarts(mc: Machine, r: Rank, i: Input, policy: Policy) {
    && r.pc.Idle? && !r.disposed && Rightful(mc, r, policy, i.now)
    && match i.event
       case Start(_) => r.ready
       case Tick => r.running && r.ready && r.pending.None? && i.now - r.lastOpen > policy.takeover
       case JoinTick => r.running && Bootstraps(mc, r, i.now)
       case _ => false
  }

  /** And it goes on as long as it may. */
  predicate LoopGoesOn(mc: Machine, r: Rank, i: Input) {
    i.event == YieldResume && r.running && r.ready && !r.disposed && Rightful(mc, r, r.policy, i.now)
  }

  lemma LeadsIs(mc: Machine, r: Rank, now: real)
    ensures Leads(mc, Asked(r, now), now) <==> r.running && r.ready && Rightful(mc, r, r.policy, now)
  {
    hide Leads, Live;
    LeaderIsLeast(mc, Asked(r, now), now);
    LiveIs(r, now);
    assert forall k :: k in Live(r, now).members <==> k in RecentPeers(r, now);
  }

  /** The loop condition, as a phase. */
  lemma LoopPhase(mc: Machine, r: Rank, now: real, pressure: bool)
    ensures var s := LoopHead(mc, r, now, pressure).rank;
            if r.running && r.ready && !r.disposed && Rightful(mc, r, r.policy, now) then
              if pressure then s.pc == Pressure(0) else s.pc.OwnGrads?
            else s.pc.Idle?
    ensures !Looping(r) && !r.disposed ==> Loop(mc, r, now, pressure) == LoopHead(mc, r, now, pressure)
    ensures Looping(r) || r.disposed ==> Loop(mc, r, now, pressure) == Outcome(r, [])
  {
    hide Leads, NewDrive, RoundOf, Alive, MinNat, Rightful;
    LeadsIs(mc, r, now);
  }

  lemma StartPhase(mc: Machine, r: Rank, i: Input)
    requires i.event.Start?
    ensures var s := Step(mc, r, i).rank;
            if LoopStarts(mc, r, i, r.policy) then if i.pressure then s.pc == Pressure(0) else s.pc.OwnGrads?
            else s.pc == r.pc
  {
    hide Loop, LoopHead, Live, RecentPeers;
    var b := Started(r, i.event.nextLr);
    LoopPhase(mc, b, i.now, i.pressure);
    SameRecent(r, b, i.now);
    LivePc(Loop(mc, b, i.now, i.pressure).rank, i.now);
    LivePc(b.(joining := Some(0)), i.now);
  }

  lemma LivePc(r: Rank, now: real)
    ensures Live(r, now) == r.(members := Live(r, now).members)
  {
    hide Alive;
  }

  lemma SameRecent(r: Rank, s: Rank, now: real)
    requires s.members == r.members && s.policy == r.policy
    ensures RecentPeers(s, now) == RecentPeers(r, now)
  {
  }

  lemma JoinPhase(mc: Machine, r: Rank, i: Input)
    requires i.event == JoinTick && r.joining.Some?
    ensures var s := Step(mc, r, i).rank;
            if LoopStarts(mc, r, i, r.policy) then if i.pressure then s.pc == Pressure(0) else s.pc.OwnGrads?
            else s.pc == r.pc
  {
    hide Loop, LoopHead, Live, NobodyReady, Lowest, Alone, RecentPeers;
    var l := Live(r, i.now);
    AloneIs(mc, r, i.now);
    LivePc(r, i.now);
    LiveRecent(r, i.now);
    LoopPhase(mc, Promoted(l), i.now, i.pressure);
    SameRecent(l, Promoted(l), i.now);
  }

  /** Pruning forgets nobody recent, and a second pruning nobody at all. */
  lemma LiveRecent(r: Rank, now: real)
    ensures RecentPeers(Live(r, now), now) == RecentPeers(r, now)
    ensures forall k :: k in RecentPeers(r, now) ==>
              k in Live(r, now).members && Live(r, now).members[k] == r.members[k]
  {
  }

  /** The heartbeat, first under the policy it finds and then under the one it sets. */
  lemma TickRightful(mc: Machine, r: Rank, now: real)
    ensures var p := Retune(mc, r, now);
            Rightful(mc, p, p.policy, now) == Rightful(mc, r, p.policy, now)
    ensures var p := Retune(mc, r, now);
            p == r.(members := p.members, policy := p.policy)
  {
    hide PolicyFor;
    var p := Retune(mc, r, now);
    assert forall k ::
        k in RecentPeers(p, now) <==> k in RecentPeers(r, now) && now - r.members[k].seen <= p.policy.drop;
  }

  lemma TickPhase(mc: Machine, r: Rank, i: Input)
    requires i.event == Tick && !r.disposed
    ensures var s := Step(mc, r, i).rank;
            if LoopStarts(mc, r, i, s.policy) then if i.pressure then s.pc == Pressure(0) else s.pc.OwnGrads?
            else s.pc == r.pc
  {
    hide Loop, LoopHead, Live, Leads, RecentPeers, PolicyFor, Retune, Rightful;
    var p := Retune(mc, r, i.now);
    var a := Asked(p, i.now);
    var t := a.(lastOpen := i.now);
    TickRightful(mc, r, i.now);
    LeadsIs(mc, p, i.now);
    LivePc(p, i.now);
    AskedRightful(mc, p, i.now);
    LoopPhase(mc, t, i.now, i.pressure);
    LoopSettings(mc, t, i.now, i.pressure);
    LivePc(Loop(mc, t, i.now, i.pressure).rank, i.now);
    LivePc(a, i.now);
  }

  lemma AskedRightful(mc: Machine, r: Rank, now: real)
    ensures var t := Asked(r, now).(lastOpen := now);
            Rightful(mc, t, t.policy, now) == Rightful(mc, r, r.policy, now)
  {
    LiveRecent(r, now);
  }

  predicate Entered(i: Input, s: Rank) {
    if i.pressure then s.pc == Pressure(0) else s.pc.OwnGrads?
  }

  predicate SamePhase(p: Pc, q: Pc) {
    && (p.OwnGrads? <==> q.OwnGrads?) && (p.Collecting? <==> q.Collecting?)
    && (!p.OwnGrads? && !p.Collecting? ==> q == p)
  }

  lemma MessagePhase(mc: Machine, r: Rank, m: Msg, now: real)
    ensures SamePhase(r.pc, OnMessage(mc, r, m, now).rank.pc)
  {
    hide Follows, Heard, Alive, Put, Release, Accepts;
    ReleasePhase(r.(members := r.members[m.from := Heard(r, m, now)], lastOpen := now));
  }

  lemma ReleasePhase(r: Rank)
    ensures SamePhase(r.pc, Release(r).pc)
  {
  }

  lemma StopPhase(mc: Machine, r: Rank, now: real)
    ensures DoStop(mc, r, now).rank.pc == r.pc
  {
    hide Alive, Leads, RoundOf;
  }

  lemma DrivePhase(mc: Machine, r: Rank, got: seq<Bucket>, now: real)
    ensures FinishRound(mc, r, got, now).pc.Yielding? && FailRound(r, now).pc.Backoff?
    ensures OpenRound(mc, r, now).rank.pc.OwnGrads?
    ensures r.pc.OwnGrads? ==>
              var s := Collect(mc, r, r.pc.drive, now);
              if |r.pc.drive.cohort| <= 1 then s.pc.Yielding? else s.pc.Collecting?
  {
    hide Put, OwnBucket, Average, Wire, Alive, NewDrive, RoundOf;
  }

  /** Every phase of the loop, under every event: what wakes it, and where it goes. The wait for the
      transport ends with the pressure, and after twenty beats in any case. */
  lemma PhaseMoves(mc: Machine, r: Rank, i: Input)
    requires Enabled(r, i.event)
    ensures var e, s := i.event, Step(mc, r, i).rank;
            match r.pc
            case Idle => if LoopStarts(mc, r, i, s.policy) then Entered(i, s) else s.pc.Idle?
            case Yielding =>
              if e != YieldResume then s.pc == r.pc else if LoopGoesOn(mc, r, i) then Entered(i, s) else s.pc.Idle?
            case Pressure(waited) =>
              if e != PressureResume then s.pc == r.pc
              else if waited + 1 < 20 && i.pressure then s.pc == Pressure(waited + 1) else s.pc.OwnGrads?
            case OwnGrads(d) =>
              if e == OwnGradsDone then if |d.cohort| <= 1 then s.pc.Yielding? else s.pc.Collecting?
              else if e == OwnGradsFault then s.pc.Backoff? else s.pc.OwnGrads?
            case Collecting(d) => if e == CollectResume then s.pc.Yielding? else s.pc.Collecting?
            case Backoff => if e == BackoffResume then s.pc.Yielding? else s.pc.Backoff?
  {
    hide OpenRound, LoopHead, OnMessage, FinishRound, FailRound, Collect, DoStart, DoTick, DoJoinTick, DoStop, Release,
         Live, RecentPeers, Rightful, Bootstraps, GradOf, RoundOf, PolicyFor;
    match i.event
    case Start(_) => StartPhase(mc, r, i); SettingsMove(mc, r, i);
    case JoinTick => JoinPhase(mc, r, i); SettingsMove(mc, r, i);
    case Tick => TickPhase(mc, r, i);
    case Stop => StopPhase(mc, r, i.now);
    case Dispose => ReleasePhase(r);
    case Deliver(m) => MessagePhase(mc, r, m, i.now);
    case YieldResume => LoopPhase(mc, r, i.now, i.pressure);
    case PressureResume => DrivePhase(mc, r, [], i.now);
    case OwnGradsDone => DrivePhase(mc, r, [], i.now);
    case OwnGradsFault => DrivePhase(mc, r, [], i.now);
    case CollectResume => DrivePhase(mc, r.(pending := None), r.pc.drive.got, i.now);
    case ContribFault => LivePc(r.(contributing := None), i.now);
    case _ =>
  }

  /** Takeover: an idle rank starts driving on a heartbeat exactly when, of the peers still alive, none
      that is ready and running is below it, its deferral is over, and no round has been heard for
      longer than the takeover time that goes with as many peers as were heard lately. */
  lemma TakeoverIff(mc: Machine, r: Rank, i: Input)
    requires Valid(mc, r) && r.pc.Idle? && !r.disposed && i.event == Tick
    ensures var heard := set k | k in r.members && i.now - r.members[k].seen <= r.policy.drop;
            var policy := PolicyFor(1 + |heard|, mc.timing);
            Looping(Step(mc, r, i).rank) <==>
              && r.running && r.ready && i.now >= r.deferUntil && i.now - r.lastOpen > policy.takeover
              && forall k | k in r.members && r.members[k].ready && r.members[k].running ::
                   i.now - r.members[k].seen <= r.policy.drop && i.now - r.members[k].seen <= policy.drop ==> mc.id <= k
  {
    hide Step, PolicyFor, DriveValid;
    SettingsMove(mc, r, i);
    PhaseMoves(mc, r, i);
    assert RecentPeers(r, i.now) == set k | k in r.members && i.now - r.members[k].seen <= r.policy.drop;
    assert r.pending.None?;
  }

  // ── opening a round ───────────────────────────────────────────────────────

  /** A round over exactly the given peers that are ready and running, and over the leader if it is:
      in ascending order, each for the batch it announced, over consecutive windows as unsigned
      32-bit words, and with the buckets to wait for that the policy in force asks of that many. */
  ghost predicate OpenedOver(mc: Machine, members: map<Id, Member>, peers: set<Id>, now: real, s: Rank)
    requires peers <= members.Keys && s.pc.OwnGrads?
  {
    var d := s.pc.drive;
    && s.lastOpen == now && d.got == [] && !d.settled && Ascending(d.cohort)
    && CohortOver(mc, members, peers, s, d.cohort)
    && BatchesOver(mc, members, d)
    && WindowsOf(mc, s.step, d)
    && (|d.cohort| > 1 ==> s.pending == Some(Pending(s.step, Elements(d.cohort),
                           if |d.cohort| < s.policy.quorum then |d.cohort| else s.policy.quorum, false)))
  }

  function Elements(ids: seq<Id>): set<Id> {
    set k | k in ids
  }

  ghost predicate CohortOver(mc: Machine, members: map<Id, Member>, peers: set<Id>, s: Rank, cohort: seq<Id>)
    requires peers <= members.Keys
  {
    forall k ::
      k in cohort <==> ((k == mc.id && s.running && s.ready) || (k in peers && members[k].ready && members[k].running))
  }

  ghost predicate BatchesOver(mc: Machine, members: map<Id, Member>, d: Drive) {
    && d.batches.Keys == Elements(d.cohort) + {mc.id} && d.batches[mc.id] == mc.batch
    && (forall k :: k in d.cohort && k != mc.id ==>
         k in members && d.batches[k] == if members[k].batch.Some? then members[k].batch.value else mc.batch)
  }

  ghost predicate WindowsOf(mc: Machine, step: nat, d: Drive) {
    && (forall k :: k in d.assign <==> k in d.cohort)
    && forall n :: 0 <= n < |d.cohort| ==>
         d.assign[d.cohort[n]] ==
         (step * RoundSize(mc.id, d.cohort, d.batches) + Offset(d.cohort, d.batches, n)) % 0x1_0000_0000
  }

  lemma NewWindows(mc: Machine, step: nat, ids: seq<Id>, batches: map<Id, nat>)
    requires Distinct(ids)
    ensures var base := Base(step, RoundSize(mc.id, ids, batches));
            WindowsOf(mc, step, Drive(ids, batches, Assign(ids, batches, base, |ids|), [], false))
  {
    hide Offset, RoundSize, Assign;
    var base := Base(step, RoundSize(mc.id, ids, batches));
    forall k ensures k in Assign(ids, batches, base, |ids|) <==> k in ids {
      AssignKeys(ids, batches, base, |ids|, k);
      assert ids[..|ids|] == ids;
    }
    forall n | 0 <= n < |ids|
      ensures Assign(ids, batches, base, |ids|)[ids[n]] == (base + Offset(ids, batches, n)) % 0x1_0000_0000
    {
      AssignAt(ids, batches, base, |ids|, n);
    }
  }

  /** The drive of a leader that has just pruned its roster. */
  lemma DriveIs(mc: Machine, r: Rank)
    ensures var d := NewDrive(mc, r);
            && Ascending(d.cohort) && d.got == [] && !d.settled && WindowsOf(mc, r.step, d)
            && Elements(d.cohort) == Cohort(mc, r) && |d.cohort| == |Cohort(mc, r)|
            && d.batches == Batches(mc, r.members, Cohort(mc, r))
  {
    hide Cohort, Batches, WindowsOf, Assign, Base, RoundSize;
    var ids := Sorted(Cohort(mc, r));
    SortedDistinct(ids);
    NewWindows(mc, r.step, ids, Batches(mc, r.members, Cohort(mc, r)));
  }

  lemma CohortIs(mc: Machine, r: Rank, now: real)
    ensures CohortOver(mc, r.members, RecentPeers(r, now), r, NewDrive(mc, Live(r, now)).cohort)
  {
    hide Live, WindowsOf, RecentPeers, NewDrive, Batches;
    LivePc(r, now);
    LiveIs(r, now);
    var l := Live(r, now);
    DriveIs(mc, l);
    assert forall k :: k in l.members <==> k in RecentPeers(r, now);
    assert forall k :: k in NewDrive(mc, l).cohort <==> k in Elements(NewDrive(mc, l).cohort);
  }

  lemma BatchesAre(mc: Machine, r: Rank, now: real)
    ensures BatchesOver(mc, r.members, NewDrive(mc, Live(r, now)))
  {
    hide Live, WindowsOf, RecentPeers, NewDrive, Cohort;
    var l := Live(r, now);
    var d := NewDrive(mc, l);
    DriveIs(mc, l);
    LiveRecent(r, now);
    CohortIs(mc, r, now);
    assert forall k :: k in d.cohort <==> k in Elements(d.cohort);
  }

  lemma OpenFields(mc: Machine, r: Rank, now: real)
    ensures var s, l := OpenRound(mc, r, now).rank, Live(r, now);
            var d := NewDrive(mc, l);
            && s == r.(members := l.members, pc := OwnGrads(d), pending := s.pending, lastOpen := now)
            && (|d.cohort| > 1 ==> s.pending == Some(Pending(r.step, Elements(d.cohort),
                           if |d.cohort| < r.policy.quorum then |d.cohort| else r.policy.quorum, false)))
            && (|d.cohort| <= 1 ==> s.pending == r.pending)
            && OpenRound(mc, r, now).sent == [Round(mc.id, r.step, r.lr, d.assign, Wire(mc, r.params), r.term)]
  {
    hide WindowsOf, Live, NewDrive, Cohort, Wire;
    LivePc(r, now);
    DriveIs(mc, Live(r, now));
  }

  lemma OpenIs(mc: Machine, r: Rank, now: real)
    ensures OpenRound(mc, r, now).rank.pc.OwnGrads?
    ensures OpenedOver(mc, r.members, RecentPeers(r, now), now, OpenRound(mc, r, now).rank)
  {
    hide WindowsOf, Live, NewDrive, RecentPeers, BatchesOver, OpenRound, Ascending;
    OpenFields(mc, r, now);
    DriveIs(mc, Live(r, now));
    LivePc(r, now);
    BatchesAre(mc, r, now);
    CohortIs(mc, r, now);
  }

  /** The round a leader announces as it opens one: its own step, rate and term, its windows, and its
      parameters as the wire will deliver them. */
  function Announcement(mc: Machine, s: Rank): Msg
    requires Driving(s)
  {
    Round(mc.id, s.step, s.lr, s.pc.drive.assign, Wire(mc, s.params), s.term)
  }

  /** The same without windows. */
  function Publication(mc: Machine, s: Rank): Msg {
    Round(mc.id, s.step, s.lr, map[], Wire(mc, s.params), s.term)
  }

  /** What the cohort is told of a rank that opens a round over these peers, and of one that does not. */
  ghost predicate RoundTold(mc: Machine, r: Rank, peers: set<Id>, now: real, s: Rank, sent: seq<Msg>)
    requires peers <= r.members.Keys
  {
    && (if Driving(s) then
          && s.pc.OwnGrads? && OpenedOver(mc, r.members, peers, now, s) && sent == [Announcement(mc, s)]
          && (|s.pc.drive.cohort| <= 1 ==> s.pending == r.pending)
        else s.pending == r.pending && sent == [])
    && s.step == r.step && s.params == r.params && s.term == r.term
  }

  /** Peers found again in a pruned roster, and a rank that differs in nothing a round is made of. */
  lemma ToldBefore(mc: Machine, q: Rank, r: Rank, peers: set<Id>, now: real, s: Rank, t: Rank, sent: seq<Msg>)
    requires peers <= q.members.Keys && peers <= r.members.Keys
    requires forall k :: k in peers ==> q.members[k] == r.members[k]
    requires q.pending == r.pending && q.step == r.step && q.params == r.params && q.term == r.term
    requires t == s.(members := t.members) && RoundTold(mc, q, peers, now, s, sent)
    ensures RoundTold(mc, r, peers, now, t, sent)
  {
    hide WindowsOf, Wire, Ascending;
  }

  lemma OpenTold(mc: Machine, r: Rank, now: real)
    ensures RoundTold(mc, r, RecentPeers(r, now), now, OpenRound(mc, r, now).rank, OpenRound(mc, r, now).sent)
  {
    hide OpenedOver, OpenRound, Live, RecentPeers, NewDrive, Wire;
    OpenIs(mc, r, now);
    OpenFields(mc, r, now);
  }

  lemma AskedSame(r: Rank, now: real)
    ensures RecentPeers(Asked(r, now), now) == RecentPeers(r, now)
    ensures forall k :: k in RecentPeers(r, now) ==> Asked(r, now).members[k] == r.members[k]
    ensures Asked(r, now) == r.(members := Asked(r, now).members)
  {
    LiveRecent(r, now);
  }

  /** The loop condition: a round or a wait for whoever leads, and for a rank whose loop ends the
      publication, if it was stopped. */
  lemma HeadTold(mc: Machine, r: Rank, now: real, pressure: bool)
    requires !Driving(r)
    ensures var o := LoopHead(mc, r, now, pressure);
            if o.rank.pc.Idle? && !r.running && r.ready && !r.disposed then
              RoundTold(mc, r, RecentPeers(r, now), now, o.rank, []) && o.sent == [Publication(mc, r)]
            else RoundTold(mc, r, RecentPeers(r, now), now, o.rank, o.sent)
  {
    hide OpenedOver, OpenRound, Live, RecentPeers, Wire, Leads;
    var a := Asked(r, now);
    AskedSame(r, now);
    OpenTold(mc, a, now);
    ToldBefore(mc, a, r, RecentPeers(r, now), now, OpenRound(mc, a, now).rank, OpenRound(mc, a, now).rank,
               OpenRound(mc, a, now).sent);
    LivePc(a.(pc := Idle), now);
    DrivePhase(mc, a, [], now);
  }

  /** A call of `loop`, from a state that is `r` but for settings and the clock. */
  lemma LoopTold(mc: Machine, r: Rank, q: Rank, peers: set<Id>, now: real, pressure: bool, t: Rank)
    requires !Driving(r) && peers == RecentPeers(q, now) && peers <= r.members.Keys
    requires forall k :: k in peers ==> q.members[k] == r.members[k]
    requires q.pending == r.pending && q.step == r.step && q.params == r.params && q.term == r.term && q.pc == r.pc
    requires t == Loop(mc, q, now, pressure).rank.(members := t.members) && q.running
    ensures RoundTold(mc, r, peers, now, t, Loop(mc, q, now, pressure).sent)
  {
    hide Loop, LoopHead, OpenedOver, RecentPeers, Wire;
    LoopPhase(mc, q, now, pressure);
    var o := Loop(mc, q, now, pressure);
    if !Looping(q) && !q.disposed {
      HeadTold(mc, q, now, pressure);
      ToldBefore(mc, q, r, peers, now, o.rank, t, o.sent);
    }
  }

  lemma SamePolicy(r: Rank, now: real)
    ensures StillRecent(r, r.policy, now) == RecentPeers(r, now)
  {
  }

  lemma StartTold(mc: Machine, r: Rank, i: Input)
    requires !Driving(r) && i.event.Start?
    ensures var o := Step(mc, r, i);
            && o.sent != [] && o.sent[0] == Hello(mc.id, mc.batch, r.ready, true)
            && RoundTold(mc, r, RecentPeers(r, i.now), i.now, o.rank, o.sent[1..])
  {
    hide Loop, Live, RecentPeers, OpenedOver, Wire;
    var b := Started(r, i.event.nextLr);
    var l := Loop(mc, b, i.now, i.pressure);
    SameRecent(r, b, i.now);
    LivePc(l.rank, i.now);
    LivePc(b.(joining := Some(0)), i.now);
    LoopTold(mc, r, b, RecentPeers(r, i.now), i.now, i.pressure, Live(l.rank, i.now));
  }

  lemma JoinTold(mc: Machine, r: Rank, i: Input)
    requires !Driving(r) && i.event == JoinTick && r.joining.Some?
    ensures var o := Step(mc, r, i);
            && o.rank.members.Keys <= r.members.Keys
            && if r.disposed || r.ready then o.sent == [] && !Driving(o.rank) && o.rank.pending == r.pending
               else if Bootstraps(mc, r, i.now) then RoundTold(mc, r, RecentPeers(r, i.now), i.now, o.rank, o.sent)
               else
                 && o.sent == [Hello(mc.id, mc.batch, false, r.running)]
                 && !Driving(o.rank) && o.rank.pending == r.pending
  {
    hide Loop, Live, NobodyReady, Lowest, Alone, RecentPeers, OpenedOver, Wire;
    var l := Live(r, i.now);
    AloneIs(mc, r, i.now);
    LivePc(r, i.now);
    LiveRecent(r, i.now);
    SameRecent(l, Promoted(l), i.now);
    LoopRoster(mc, Promoted(l), i.now, i.pressure);
    JoinRoster(mc, r, i.now, i.pressure);
    if Bootstraps(mc, r, i.now) && r.running {
      LoopTold(mc, r, Promoted(l), RecentPeers(r, i.now), i.now, i.pressure,
               Loop(mc, Promoted(l), i.now, i.pressure).rank);
    }
  }

  /** The rank a heartbeat hands to the loop: pruned under both policies, and nothing else. */
  lemma TickLoops(mc: Machine, r: Rank, now: real)
    ensures var p := Retune(mc, r, now);
            var t := Asked(p, now).(lastOpen := now);
            && t == r.(members := t.members, policy := p.policy, lastOpen := now)
            && Asked(p, now) == t.(lastOpen := r.lastOpen)
            && RecentPeers(t, now) == StillRecent(r, p.policy, now)
            && (forall k :: k in RecentPeers(t, now) ==> t.members[k] == r.members[k])
            && (TakesOver(mc, Asked(p, now), now) ==> t.running)
  {
    hide Live, RecentPeers, PolicyFor, Retune, LeaderOf;
    var p := Retune(mc, r, now);
    RetunedPeers(mc, r, now);
    LiveRecent(p, now);
    LivePc(p, now);
    SameRecent(Asked(p, now), Asked(p, now).(lastOpen := now), now);
  }

  lemma RetunedPeers(mc: Machine, r: Rank, now: real)
    ensures var p := Retune(mc, r, now);
            && RecentPeers(p, now) == StillRecent(r, p.policy, now)
            && (forall k :: k in RecentPeers(p, now) ==> p.members[k] == r.members[k])
            && p == r.(members := p.members, policy := p.policy)
  {
    hide PolicyFor;
    var p := Retune(mc, r, now);
    assert forall k :: k in RecentPeers(p, now) <==> k in StillRecent(r, p.policy, now);
  }

  lemma TickTold(mc: Machine, r: Rank, i: Input)
    requires !Driving(r) && i.event == Tick && !r.disposed
    ensures var o := Step(mc, r, i);
            && o.sent != [] && o.sent[0] == Beat(mc.id, mc.batch, r.ready, r.running)
            && RoundTold(mc, r, StillRecent(r, o.rank.policy, i.now), i.now, o.rank, o.sent[1..])
  {
    hide Loop, Live, RecentPeers, StillRecent, Asked, Wire, Retune, TakesOver, RoundTold;
    var now := i.now;
    var p := Retune(mc, r, now);
    var a := Asked(p, now);
    var t := a.(lastOpen := now);
    var l := Loop(mc, t, now, i.pressure);
    RetunedPeers(mc, r, now);
    TickLoops(mc, r, now);
    LivePc(a, now);
    LivePc(l.rank, now);
    LoopSettings(mc, t, now, i.pressure);
    if TakesOver(mc, a, now) {
      LoopTold(mc, r, t, RecentPeers(t, now), now, i.pressure, Live(l.rank, now));
    } else {
      ToldNothing(mc, r, RecentPeers(t, now), now, Live(a, now));
    }
  }

  lemma ToldNothing(mc: Machine, r: Rank, peers: set<Id>, now: real, s: Rank)
    requires peers <= r.members.Keys && !Driving(s) && s.pending == r.pending
    requires s.step == r.step && s.params == r.params && s.term == r.term
    ensures RoundTold(mc, r, peers, now, s, [])
  {
  }

  /** Every round, over every way to open one: exactly the recent peers that are ready and running, and
      the leader itself if it is; announced as it is opened. */
  lemma OpensOver(mc: Machine, r: Rank, i: Input)
    requires Enabled(r, i.event) && !Driving(r) && Driving(Step(mc, r, i).rank)
    ensures var s := Step(mc, r, i).rank;
            && s.pc.OwnGrads? && OpenedOver(mc, r.members, StillRecent(r, s.policy, i.now), i.now, s)
            && Announcement(mc, s) in Step(mc, r, i).sent
            && (|s.pc.drive.cohort| <= 1 ==> s.pending == r.pending)
  {
    hide Step, RecentPeers, StillRecent, OpenedOver, Announcement, LoopStarts, LoopGoesOn;
    PhaseMoves(mc, r, i);
    SettingsMove(mc, r, i);
    SamePolicy(r, i.now);
    match i.event
    case Start(_) => StartTold(mc, r, i); assert Step(mc, r, i).sent[1..][0] in Step(mc, r, i).sent;
    case JoinTick => JoinTold(mc, r, i);
    case Tick => TickTold(mc, r, i); assert Step(mc, r, i).sent[1..][0] in Step(mc, r, i).sent;
    case PressureResume => ResumeTold(mc, r, i);
    case YieldResume => ResumeTold(mc, r, i);
    case _ => OnlyThese(mc, r, i); assert false;
  }

  lemma ResumeTold(mc: Machine, r: Rank, i: Input)
    requires (i.event == PressureResume && r.pc.Pressure?) || (i.event == YieldResume && r.pc.Yielding?)
    ensures var o := Step(mc, r, i);
            if i.event == YieldResume && o.rank.pc.Idle? && !r.running && r.ready && !r.disposed then
              o.sent == [Publication(mc, r)] && o.rank.pending == r.pending
            else RoundTold(mc, r, RecentPeers(r, i.now), i.now, o.rank, o.sent)
  {
    hide OpenRound, LoopHead, RecentPeers, OpenedOver, Wire;
    OpenTold(mc, r, i.now);
    HeadTold(mc, r, i.now, i.pressure);
    var waits := r.(pc := if r.pc.Pressure? then Pressure(r.pc.waited + 1) else Idle);
    ToldNothing(mc, r, RecentPeers(r, i.now), i.now, waits);
  }

  lemma OnlyThese(mc: Machine, r: Rank, i: Input)
    requires Enabled(r, i.event) && !Driving(r) && Driving(Step(mc, r, i).rank)
    ensures i.event.Start? || i.event == JoinTick || i.event == Tick || i.event == PressureResume ||
            i.event == YieldResume
  {
    hide Step, RecentPeers, LoopStarts, LoopGoesOn;
    PhaseMoves(mc, r, i);
    if r.pc.Idle? { IdleStarts(mc, r, i, Step(mc, r, i).rank.policy); }
  }

  lemma IdleStarts(mc: Machine, r: Rank, i: Input, policy: Policy)
    requires LoopStarts(mc, r, i, policy)
    ensures i.event.Start? || i.event == JoinTick || i.event == Tick
  {
  }

  // ── what is sent ──────────────────────────────────────────────────────────

  /** While its loop is alive a rank sends nothing on these but the greeting. */
  lemma BusyCalls(mc: Machine, r: Rank, i: Input)
    requires Looping(r) && Enabled(r, i.event) && (i.event.Start? || i.event == JoinTick || i.event == Tick)
    ensures var o := Step(mc, r, i);
            o.rank.pc == r.pc && o.sent ==
              match i.event
              case Start(_) => [Hello(mc.id, mc.batch, r.ready, true)]
              case Tick => [Beat(mc.id, mc.batch, r.ready, r.running)]
              case _ => if r.disposed || r.ready || Bootstraps(mc, r, i.now) then []
                        else [Hello(mc.id, mc.batch, false, r.running)]
  {
    hide LoopHead, RecentPeers, Live, NobodyReady, Lowest, Alone, PolicyFor, Leads;
    AloneIs(mc, r, i.now);
    LivePc(r, i.now);
    var p := Retune(mc, r, i.now);
    LivePc(p, i.now);
    LivePc(Asked(p, i.now), i.now);
    if i.event.Start? {
      LivePc(Started(r, i.event.nextLr), i.now);
      LivePc(Started(r, i.event.nextLr).(joining := Some(0)), i.now);
    }
  }

  lemma MessageSent(mc: Machine, r: Rank, m: Msg, now: real)
    ensures OnMessage(mc, r, m, now).sent ==
            if Heeds(mc, r, m) && m.Hello? then [Beat(mc.id, mc.batch, r.ready, r.running)]
            else if Yields(mc, r, m) then [Hello(mc.id, mc.batch, r.ready, r.running)]
            else []
  {
    hide Follows, Heard, Alive;
  }

  lemma StopSent(mc: Machine, r: Rank, now: real)
    ensures DoStop(mc, r, now).sent ==
            (if r.pc.Idle? && r.running && r.ready && Rightful(mc, r, r.policy, now) then [Publication(mc, r)]
             else []) +
            [Beat(mc.id, mc.batch, r.ready, false)]
  {
    hide Leads, Live, Wire, Rightful;
    LeadsIs(mc, r, now);
    LivePc(r, now);
  }

  /** Every message, of every event: who greets, what the greeting says, and when a round, a
      publication or a bucket goes out. */
  lemma SentIs(mc: Machine, r: Rank, i: Input)
    requires Enabled(r, i.event)
    ensures var s := Step(mc, r, i).rank;
            var round := if !Driving(r) && Driving(s) then [Announcement(mc, s)] else [];
            Step(mc, r, i).sent ==
            match i.event
            case Start(_) => [Hello(mc.id, mc.batch, r.ready, true)] + round
            case Stop =>
              (if r.pc.Idle? && r.running && r.ready && Rightful(mc, r, r.policy, i.now) then [Publication(mc, r)]
               else []) +
              [Beat(mc.id, mc.batch, r.ready, false)]
            case Tick => [Beat(mc.id, mc.batch, r.ready, r.running)] + round
            case JoinTick =>
              if r.disposed || r.ready || Bootstraps(mc, r, i.now) then round
              else [Hello(mc.id, mc.batch, false, r.running)]
            case Deliver(m) =>
              if Heeds(mc, r, m) && m.Hello? then [Beat(mc.id, mc.batch, r.ready, r.running)]
              else if Yields(mc, r, m) then [Hello(mc.id, mc.batch, r.ready, r.running)]
              else []
            case PressureResume => round
            case YieldResume =>
              if s.pc.Idle? && !r.running && r.ready && !r.disposed then [Publication(mc, r)] else round
            case ContribDone =>
              var w := r.contributing.value;
              if w.step == r.step then
                [Grad(mc.id, w.to, w.step, mc.batch, Wire(mc, mc.grads(w.base, Some(w.start))), w.start, w.term)]
              else []
            case _ => []
  {
    hide OpenRound, LoopHead, FinishRound, FailRound, Collect, DoStart, DoTick, DoJoinTick, DoStop, Release, OnMessage,
         Live, RecentPeers, StillRecent, Rightful, Bootstraps, OpenedOver, Announcement, Publication, Wire;
    match i.event
    case Start(_) => CallsSent(mc, r, i);
    case JoinTick => CallsSent(mc, r, i);
    case Tick => CallsSent(mc, r, i);
    case PressureResume => ResumeTold(mc, r, i);
    case YieldResume => ResumeTold(mc, r, i);
    case Deliver(m) => MessageSent(mc, r, m, i.now);
    case Stop => StopSent(mc, r, i.now);
    case _ =>
  }

  lemma CallsSent(mc: Machine, r: Rank, i: Input)
    requires Enabled(r, i.event) && (i.event.Start? || i.event == JoinTick || i.event == Tick)
    ensures var s := Step(mc, r, i).rank;
            var round := if !Driving(r) && Driving(s) then [Announcement(mc, s)] else [];
            Step(mc, r, i).sent ==
            match i.event
            case Start(_) => [Hello(mc.id, mc.batch, r.ready, true)] + round
            case Tick => [Beat(mc.id, mc.batch, r.ready, r.running)] + round
            case _ => if r.disposed || r.ready || Bootstraps(mc, r, i.now) then round
                      else [Hello(mc.id, mc.batch, false, r.running)]
  {
    hide Step, RecentPeers, StillRecent, OpenedOver, Bootstraps, Announcement, Rightful;
    var o := Step(mc, r, i);
    if Looping(r) {
      BusyCalls(mc, r, i);
    } else {
      match i.event
      case Start(_) => StartTold(mc, r, i); assert o.sent == [o.sent[0]] + o.sent[1..];
      case Tick => TickTold(mc, r, i); assert o.sent == [o.sent[0]] + o.sent[1..];
      case _ => JoinTold(mc, r, i);
    }
  }

  // ── the collection and the clock of the last round ────────────────────────

  lemma LoopKeeps(mc: Machine, r: Rank, now: real, pressure: bool)
    ensures var s := LoopHead(mc, r, now, pressure).rank;
            !Driving(s) ==> s.pending == r.pending && s.lastOpen == r.lastOpen
    ensures var s := Loop(mc, r, now, pressure).rank;
            Driving(r) || !Driving(s) ==> s.pending == r.pending && s.lastOpen == r.lastOpen
  {
    hide Leads, NewDrive, RoundOf, Alive, MinNat;
  }

  lemma MessageKeeps(mc: Machine, r: Rank, m: Msg, now: real)
    ensures var s := OnMessage(mc, r, m, now).rank;
            && s.pending == (if Yields(mc, r, m) then None else r.pending)
            && s.lastOpen == if m.Round? && Heeds(mc, r, m) then now else r.lastOpen
  {
    hide Follows, Heard, Alive, Put;
  }

  lemma CallsKeep(mc: Machine, r: Rank, i: Input)
    requires Enabled(r, i.event) && (i.event.Start? || i.event == JoinTick || i.event == Stop)
    ensures var s := Step(mc, r, i).rank;
            Driving(r) || !Driving(s) ==> s.pending == r.pending && s.lastOpen == r.lastOpen
  {
    hide Loop, Live, NobodyReady, Lowest, Leads, RoundOf;
    LivePc(r, i.now);
    match i.event
    case Start(nextLr) =>
      var b := Started(r, nextLr);
      LoopKeeps(mc, b, i.now, i.pressure);
      LivePc(b.(joining := Some(0)), i.now);
      LivePc(Loop(mc, b, i.now, i.pressure).rank, i.now);
    case Stop => LivePc(Asked(r, i.now).(running := false), i.now);
    case _ => LoopKeeps(mc, Promoted(Live(r, i.now)), i.now, i.pressure);
  }

  lemma TickKeeps(mc: Machine, r: Rank, i: Input)
    requires i.event == Tick && !r.disposed
    ensures var s := Step(mc, r, i).rank;
            && (Driving(r) || !Driving(s) ==> s.pending == r.pending)
            && (Driving(r) || !Driving(s) ==> s.lastOpen == if !Looping(r) && Looping(s) then i.now else r.lastOpen)
  {
    hide Loop, Live, RecentPeers, StillRecent, Asked, Wire, Retune, LeaderOf, Rightful;
    var now := i.now;
    var a := Asked(Retune(mc, r, now), now);
    var t := a.(lastOpen := now);
    TickLoops(mc, r, now);
    LoopKeeps(mc, t, now, i.pressure);
    LivePc(a, now);
    LivePc(Loop(mc, t, now, i.pressure).rank, now);
    if TakesOver(mc, a, now) {
      LoopEnters(mc, t, now, i.pressure);
      AskedTwice(mc, a, t, now);
      LoopSettings(mc, t, now, i.pressure);
    }
  }

  /** What the rank is collecting, and when it last heard or opened a round, under every event. */
  lemma CollectionMoves(mc: Machine, r: Rank, i: Input)
    requires Enabled(r, i.event)
    ensures var s := Step(mc, r, i).rank;
            s.pending ==
              if !Driving(r) && Driving(s) then
                if |s.pc.drive.cohort| <= 1 then r.pending
                else
                  var n := |s.pc.drive.cohort|;
                  var quorum := if n < s.policy.quorum then n else s.policy.quorum;
                  Some(Pending(s.step, Elements(s.pc.drive.cohort), quorum, false))
              else match i.event
                   case CollectResume => None
                   case OwnGradsFault => None
                   case Dispose => None
                   case Deliver(m) => if Yields(mc, r, m) then None else r.pending
                   case OwnGradsDone =>
                     if |r.pc.drive.cohort| > 1 && r.pending.Some? &&
                       |Put(r.pc.drive.got, OwnBucket(mc, r, r.pc.drive))| < r.pending.value.quorum
                     then Some(r.pending.value.(timer := true)) else r.pending
                   case _ => r.pending
    ensures var s := Step(mc, r, i).rank;
            s.lastOpen ==
              if (!Driving(r) && Driving(s)) || (i.event == Tick && !Looping(r) && Looping(s)) ||
                (i.event.Deliver? && i.event.m.Round? && Heeds(mc, r, i.event.m)) then i.now else r.lastOpen
  {
    hide OpenRound, LoopHead, FinishRound, Collect, DoStart, DoTick, DoJoinTick, DoStop, OnMessage, Live, RecentPeers,
         StillRecent, Announcement, Put, OwnBucket, GradOf, WindowsOf, Ascending;
    if !Driving(r) && Driving(Step(mc, r, i).rank) {
      OpensOver(mc, r, i);
      OnlyThese(mc, r, i);
    } else {
      match i.event
      case Deliver(m) => MessageKeeps(mc, r, m, i.now);
      case Start(_) => CallsKeep(mc, r, i);
      case JoinTick => CallsKeep(mc, r, i);
      case Stop => CallsKeep(mc, r, i);
      case Tick => TickKeeps(mc, r, i);
      case YieldResume => LoopKeeps(mc, r, i.now, i.pressure);
      case PressureResume => DrivePhase(mc, r, [], i.now);
      case OwnGradsDone => CollectKeeps(mc, r, i.now);
      case CollectResume => FinishKeeps(mc, r.(pending := None), r.pc.drive.got, i.now);
      case OwnGradsFault => LivePc(Release(r).(pc := Backoff), i.now);
      case ContribFault => LivePc(r.(contributing := None), i.now);
      case _ =>
    }
  }

  lemma FinishKeeps(mc: Machine, r: Rank, got: seq<Bucket>, now: real)
    ensures var s := FinishRound(mc, r, got, now); s.pending == r.pending && s.lastOpen == r.lastOpen
  {
    hide Wire, Average, Alive;
  }

  lemma CollectKeeps(mc: Machine, r: Rank, now: real)
    requires r.pc.OwnGrads?
    ensures var s, p := Collect(mc, r, r.pc.drive, now), r.pending;
            && s.lastOpen == r.lastOpen
            && s.pending == if |r.pc.drive.cohort| > 1 && p.Some? &&
                              |Put(r.pc.drive.got, OwnBucket(mc, r, r.pc.drive))| < p.value.quorum
                            then Some(p.value.(timer := true)) else p
  {
    hide Put, OwnBucket, FinishRound;
    FinishKeeps(mc, r, Put(r.pc.drive.got, OwnBucket(mc, r, r.pc.drive)), now);
  }

  /** A bucket that answers the round being collected. */
  predicate Answering(mc: Machine, r: Rank, m: Msg) {
    m.Grad? && Heeds(mc, r, m) && r.pending.Some? && m.step == r.pending.value.step && m.from in r.pending.value.want
  }

  /** What is added to a drive: the leader's own bucket, over its window if it has one, or the one that
      arrived. */
  function Added(mc: Machine, r: Rank, e: Event): Option<Bucket>
    requires Driving(r)
  {
    match e
    case OwnGradsDone =>
      var window := if mc.id in r.pc.drive.assign then Some(r.pc.drive.assign[mc.id]) else None;
      Some(Bucket(mc.id, mc.batch, mc.grads(r.params, window), window, r.term))
    case Deliver(m) => if Answering(mc, r, m) then Some(Bucket(m.from, m.samples, m.g, Some(m.start), m.term)) else None
    case _ => None
  }

  /** What ends the wait for buckets: enough of them, the timer, or giving the collection up. */
  predicate Settles(mc: Machine, r: Rank, e: Event, got: seq<Bucket>)
    requires Driving(r)
  {
    || e == CollectTimer
    || (r.pending.Some? && (e == Dispose || (e.Deliver? && Yields(mc, r, e.m))))
    || (r.pending.Some? && Added(mc, r, e).Some? && |got| >= r.pending.value.quorum)
  }

  /** The drive itself, while it lasts, under every event. */
  lemma DriveIsKept(mc: Machine, r: Rank, i: Input)
    requires Enabled(r, i.event) && Driving(r) && Driving(Step(mc, r, i).rank)
    ensures var d, e, added := r.pc.drive, Step(mc, r, i).rank.pc.drive, Added(mc, r, i.event);
            && e.got == (if added.Some? then Put(d.got, added.value) else d.got)
            && e == d.(got := e.got, settled := d.settled || Settles(mc, r, i.event, e.got))
  {
    hide OpenRound, LoopHead, FinishRound, DoStart, DoTick, DoJoinTick, DoStop, OnMessage, Live, Put, GradOf, Collect,
         Bootstraps, AdoptsRound;
    match i.event
    case Deliver(m) => MessageDrives(mc, r, m, i.now);
    case OwnGradsDone => DrivePhase(mc, r, [], i.now); CollectDrives(mc, r, i.now);
    case Start(_) => BusyCalls(mc, r, i);
    case JoinTick => BusyCalls(mc, r, i);
    case Tick => BusyCalls(mc, r, i);
    case Stop => StopPhase(mc, r, i.now);
    case CollectResume => DrivePhase(mc, r.(pending := None), r.pc.drive.got, i.now);
    case OwnGradsFault => DrivePhase(mc, r, [], i.now);
    case ContribFault => LivePc(r.(contributing := None), i.now);
    case _ =>
  }

  lemma CollectDrives(mc: Machine, r: Rank, now: real)
    requires r.pc.OwnGrads? && |r.pc.drive.cohort| > 1
    ensures var d, s := r.pc.drive, Collect(mc, r, r.pc.drive, now);
            var got := Put(d.got, Added(mc, r, OwnGradsDone).value);
            Driving(s) && s.pc.drive == d.(got := got, settled := d.settled || Settles(mc, r, OwnGradsDone, got))
  {
    hide Put, FinishRound;
  }

  lemma MessageDrives(mc: Machine, r: Rank, m: Msg, now: real)
    requires Driving(r)
    ensures var d, s, added := r.pc.drive, OnMessage(mc, r, m, now).rank, Added(mc, r, Deliver(m));
            var got := if added.Some? then Put(d.got, added.value) else d.got;
            Driving(s) && s.pc.drive == d.(got := got, settled := d.settled || Settles(mc, r, Deliver(m), got))
  {
    hide Put, Heard, Alive, Follows;
  }

  // ── the roster ────────────────────────────────────────────────────────────

  /** The roster without those silent for longer than the policy in force and `policy` allow. */
  function Pruned(r: Rank, policy: Policy, now: real): map<Id, Member> {
    map k | k in StillRecent(r, policy, now) :: r.members[k]
  }

  /** What a message says of its sender: a greeting everything, anything else that it is alive. */
  function Told(r: Rank, m: Msg, now: real): Member {
    match m
    case Hello(_, batch, ready, running) => Member(now, Some(batch), ready, running)
    case Beat(_, batch, ready, running) => Member(now, Some(batch), ready, running)
    case _ =>
      if m.from !in r.members then Member(now, None, false, false)
      else
        var known := r.members[m.from];
        Member(now, known.batch, known.ready, known.running)
  }

  /** The events, messages apart, that forget the silent. */
  predicate Prunes(r: Rank, i: Input)
    requires Enabled(r, i.event)
  {
    match i.event
    case Start(_) => true
    case Stop => true
    case Tick => true
    case JoinTick => !r.disposed && !r.ready
    case PressureResume => r.pc.waited + 1 >= 20 || !i.pressure
    case OwnGradsDone => |r.pc.drive.cohort| <= 1
    case OwnGradsFault => true
    case CollectResume => true
    case YieldResume => r.ready && (r.running || !r.disposed)
    case ContribFault => true
    case _ => false
  }

  lemma PrunedLive(r: Rank, q: Rank, now: real)
    requires q.policy == r.policy && (q.members == r.members || q.members == Pruned(r, r.policy, now))
    ensures Live(q, now).members == Pruned(r, r.policy, now)
  {
  }

  lemma OpenMembers(mc: Machine, r: Rank, now: real)
    ensures OpenRound(mc, r, now).rank.members == Live(r, now).members
  {
    hide NewDrive, RoundOf, Alive, MinNat;
  }

  lemma HeadMembers(mc: Machine, r: Rank, now: real, pressure: bool)
    ensures LoopHead(mc, r, now, pressure).rank.members ==
            if r.ready && (r.running || !r.disposed) then Live(r, now).members else r.members
  {
    hide LeaderOf, OpenRound, RoundOf, Live;
    var a := Asked(r, now);
    LivePc(r, now);
    PrunedLive(r, r, now);
    PrunedLive(r, a, now);
    PrunedLive(r, a.(pc := Idle), now);
    OpenMembers(mc, a, now);
    LivePc(a.(pc := Idle), now);
  }

  lemma CallMembers(mc: Machine, r: Rank, q: Rank, now: real, pressure: bool)
    requires q.policy == r.policy && (q.members == r.members || q.members == Pruned(r, r.policy, now))
    ensures var s := Loop(mc, q, now, pressure).rank;
            s.policy == r.policy && (s.members == r.members || s.members == Pruned(r, r.policy, now))
    ensures q.members == Pruned(r, r.policy, now) ==> Loop(mc, q, now, pressure).rank.members == q.members
  {
    hide LoopHead, Pruned, Live;
    HeadMembers(mc, q, now, pressure);
    PrunedLive(r, q, now);
    LoopSettings(mc, q, now, pressure);
  }

  lemma StartMembers(mc: Machine, r: Rank, nextLr: Option<real>, now: real, pressure: bool)
    ensures DoStart(mc, r, nextLr, now, pressure).rank.members == Pruned(r, r.policy, now)
  {
    hide Loop, Live, Pruned;
    var b := Started(r, nextLr);
    CallMembers(mc, r, b, now, pressure);
    PrunedLive(r, Loop(mc, b, now, pressure).rank, now);
    PrunedLive(r, b.(joining := Some(0)), now);
  }

  lemma StopMembers(mc: Machine, r: Rank, now: real)
    ensures DoStop(mc, r, now).rank.members == Pruned(r, r.policy, now)
  {
    hide Live, Pruned, Leads, RoundOf;
    LivePc(r, now);
    PrunedLive(r, r, now);
    PrunedLive(r, Asked(r, now).(running := false), now);
  }

  lemma JoinMembers(mc: Machine, r: Rank, now: real, pressure: bool)
    requires r.joining.Some?
    ensures DoJoinTick(mc, r, now, pressure).rank.members ==
            if !r.disposed && !r.ready then Pruned(r, r.policy, now) else r.members
  {
    hide Loop, Live, Pruned, NobodyReady, Lowest;
    LivePc(r, now);
    PrunedLive(r, r, now);
    CallMembers(mc, r, Promoted(Live(r, now)), now, pressure);
  }

  lemma TickMembers(mc: Machine, r: Rank, now: real, pressure: bool)
    ensures var s := DoTick(mc, r, now, pressure).rank; s.members == Pruned(r, s.policy, now)
  {
    hide Loop, Live, Pruned, PolicyFor, TakesOver, Retune;
    var p := Retune(mc, r, now);
    var t := Asked(p, now).(lastOpen := now);
    LivePc(p, now);
    PrunedLive(p, p, now);
    CallMembers(mc, p, t, now, pressure);
    PrunedLive(p, Asked(p, now), now);
    PrunedLive(p, Loop(mc, t, now, pressure).rank, now);
    LivePc(Asked(p, now), now);
    LivePc(Loop(mc, t, now, pressure).rank, now);
    RetunedMembers(mc, r, now);
  }

  lemma RetunedMembers(mc: Machine, r: Rank, now: real)
    ensures var p := Retune(mc, r, now); Pruned(p, p.policy, now) == Pruned(r, p.policy, now)
  {
    hide PolicyFor;
    RetunedPeers(mc, r, now);
    SamePolicy(Retune(mc, r, now), now);
  }

  lemma DriveMembers(mc: Machine, r: Rank, got: seq<Bucket>, now: real)
    ensures FinishRound(mc, r, got, now).members == Pruned(r, r.policy, now)
    ensures FailRound(r, now).members == Pruned(r, r.policy, now)
    ensures r.pc.OwnGrads? ==>
              Collect(mc, r, r.pc.drive, now).members ==
              if |r.pc.drive.cohort| <= 1 then Pruned(r, r.policy, now) else r.members
  {
    hide Live, Pruned, Wire, Average, Put, OwnBucket;
    forall q: Rank | q.policy == r.policy && q.members == r.members
      ensures Live(q, now).members == Pruned(r, r.policy, now) {
      PrunedLive(r, q, now);
    }
  }

  lemma HeedsMembers(mc: Machine, r: Rank, m: Msg, now: real)
    requires Heeds(mc, r, m)
    ensures var h, s := r.(members := r.members[m.from := Told(r, m, now)]), OnMessage(mc, r, m, now).rank;
            s.members == if m.Round? && (Yields(mc, r, m) || (!Looping(r) && r.pending.None?)) then
              Pruned(h, r.policy, now) else h.members
  {
    hide OnRound, Told, Heard, Pruned, Yields;
    var h := r.(members := r.members[m.from := Told(r, m, now)]);
    HeardIs(r, m, now);
    if m.Grad? { GradRoster(h, m); }
    if m.Round? {
      RoundMembers(mc, h.(lastOpen := now), m, now);
      SamePruned(h, h.(lastOpen := now), now);
      YieldsIs(mc, r, m);
    }
  }

  lemma YieldsIs(mc: Machine, r: Rank, m: Msg)
    requires Heeds(mc, r, m) && m.Round?
    ensures Yields(mc, r, m) <==> (Looping(r) || r.pending.Some?) && m.from < mc.id
  {
  }

  lemma HeardIs(r: Rank, m: Msg, now: real)
    ensures Heard(r, m, now) == Told(r, m, now)
  {
  }

  lemma RoundMembers(mc: Machine, r: Rank, m: Msg, now: real)
    requires m.Round?
    ensures OnRound(mc, r, m, now).rank.members ==
            if (Looping(r) || r.pending.Some?) && m.from >= mc.id then r.members else Pruned(r, r.policy, now)
  {
    hide Follows, Live, Pruned;
    LivePc(r, now);
    forall q: Rank | q.policy == r.policy && (q.members == r.members || q.members == Pruned(r, r.policy, now))
      ensures Live(q, now).members == Pruned(r, r.policy, now) {
      PrunedLive(r, q, now);
    }
  }

  /** The roster under every event: a message writes its sender's entry, by what it says and the clock;
      and exactly those silent for too long are forgotten, at these moments and no others. */
  lemma RosterIs(mc: Machine, r: Rank, i: Input)
    requires Enabled(r, i.event)
    ensures var s := Step(mc, r, i).rank;
            match i.event
            case Deliver(m) =>
              if !Heeds(mc, r, m) then s == r
              else
                var h := r.(members := r.members[m.from := Told(r, m, i.now)]);
                s.members == if m.Round? && (Yields(mc, r, m) || (!Looping(r) && r.pending.None?)) then
                  Pruned(h, r.policy, i.now) else h.members
            case _ => s.members == if Prunes(r, i) then Pruned(r, s.policy, i.now) else r.members
  {
    hide OpenRound, LoopHead, FinishRound, FailRound, Collect, DoStart, DoTick, DoJoinTick, DoStop, OnMessage, Live,
         Pruned, GradOf, RecentPeers, StillRecent, Rightful, Bootstraps, AdoptsRound, Alone;
    SettingsMove(mc, r, i);
    match i.event
    case Start(nextLr) => StartMembers(mc, r, nextLr, i.now, i.pressure);
    case Stop => StopMembers(mc, r, i.now);
    case Tick => TickMembers(mc, r, i.now, i.pressure);
    case JoinTick => JoinMembers(mc, r, i.now, i.pressure);
    case Deliver(m) => if Heeds(mc, r, m) { HeedsMembers(mc, r, m, i.now); } else { Unheeded(mc, r, m, i.now); }
    case PressureResume => OpenMembers(mc, r, i.now); PrunedLive(r, r, i.now);
    case YieldResume => HeadMembers(mc, r, i.now, i.pressure); PrunedLive(r, r, i.now);
    case OwnGradsDone => DriveMembers(mc, r, [], i.now);
    case OwnGradsFault => DriveMembers(mc, r, [], i.now);
    case CollectResume =>
      DriveMembers(mc, r.(pending := None), r.pc.drive.got, i.now);
      SamePruned(r, r.(pending := None), i.now);
    case ContribFault => PrunedLive(r, r.(contributing := None), i.now);
    case _ =>
  }

  lemma Unheeded(mc: Machine, r: Rank, m: Msg, now: real)
    requires !Heeds(mc, r, m)
    ensures OnMessage(mc, r, m, now) == Outcome(r, [])
  {
  }

  lemma SamePruned(r: Rank, q: Rank, now: real)
    requires q.policy == r.policy && q.members == r.members
    ensures Pruned(q, r.policy, now) == Pruned(r, r.policy, now)
  {
  }

  /** A greeting decides by itself whether its sender counts. */
  lemma GreetingCounts(mc: Machine, r: Rank, m: Msg, now: real)
    requires Heeds(mc, r, m) && (m.Hello? || m.Beat?)
    ensures var s := OnMessage(mc, r, m, now).rank; m.from in Cohort(mc, s) <==> m.ready && m.running
  {
    HeedsMembers(mc, r, m, now);
  }

  // ── the model ─────────────────────────────────────────────────────────────

  /** The events that complete a round. */
  predicate Completes(r: Rank, e: Event)
    requires Enabled(r, e)
  {
    e == CollectResume || (e == OwnGradsDone && |r.pc.drive.cohort| <= 1)
  }

  /** Parameters, step, term and origin under every event: exactly when a round is completed, exactly
      when one is adopted, and otherwise untouched. */
  lemma ModelMoves(mc: Machine, r: Rank, i: Input)
    requires Enabled(r, i.event)
    ensures var s := Step(mc, r, i).rank;
            if Completes(r, i.event) then Completed(mc, r, s)
            else if i.event.Deliver? && AdoptsRound(mc, r, i.event.m, i.now) then
              var m := i.event.m;
              && s.params == m.params && s.step == m.step
              && s.term == r.term + 1 && s.origin == Some(Origin(m.from, m.term))
            else Unmoved(r, s)
  {
    hide OnMessage, FinishRound, Collect, Step, Completed, AdoptsRound, RecentPeers, StillRecent, LoopStarts,
         LoopGoesOn, Vouched, Quiet, Put, OwnBucket;
    ParametersMove(mc, r, i);
    PhaseMoves(mc, r, i);
    if Completed(mc, r, Step(mc, r, i).rank) { CompletedLeaves(mc, r, Step(mc, r, i).rank); }
    match i.event
    case Deliver(m) => MessageSettings(mc, r, m, i.now); MessageStep(mc, r, i);
    case CollectResume => FinishShape(mc, r, r.(pending := None), r.pc.drive.got, i.now); FinishStep(mc, r, i);
    case OwnGradsDone =>
      if |r.pc.drive.cohort| <= 1 {
        CollectAlone(mc, r, i.now);
        FinishShape(mc, r, r, Averaged(mc, r), i.now);
        FinishStep(mc, r, i);
      }
    case _ =>
  }

  lemma MessageStep(mc: Machine, r: Rank, i: Input)
    requires i.event.Deliver?
    ensures Step(mc, r, i) == OnMessage(mc, r, i.event.m, i.now)
  {
    hide OnMessage;
  }

  lemma FinishStep(mc: Machine, r: Rank, i: Input)
    requires Enabled(r, i.event) && Completes(r, i.event)
    ensures i.event == CollectResume ==>
              Step(mc, r, i).rank == FinishRound(mc, r.(pending := None), r.pc.drive.got, i.now)
    ensures i.event == OwnGradsDone ==> Step(mc, r, i).rank == Collect(mc, r, r.pc.drive, i.now)
  {
    hide Collect, FinishRound;
  }

  lemma CompletedLeaves(mc: Machine, r: Rank, s: Rank)
    requires Completed(mc, r, s)
    ensures Driving(r) && s.pc.Yielding?
  {
    hide Wire, Average, Averaged;
  }
}