/** What every step of one rank keeps and changes: how parameters and step move, what is sent, how
    buckets are collected, and why a leader waiting on a collection can always wake. */
module RankSafety {
  import opened Wrappers
  import opened Reduce
  import opened Policy
  import opened Protocol
  import Quantize

  // ── how parameters move ───────────────────────────────────────────────────

  ghost predicate Unmoved(r: Rank, s: Rank) {
    s.params == r.params && s.step == r.step && s.term == r.term && s.origin == r.origin
  }

  /** The buckets a round ends with: whatever was collected, and always the rank's own. */
  function Averaged(mc: Machine, r: Rank): seq<Bucket>
    requires Driving(r)
  {
    if r.pc.OwnGrads? then Put(r.pc.drive.got, OwnBucket(mc, r, r.pc.drive)) else r.pc.drive.got
  }

  /** A round of its own was completed: one update, put through the wire, and the next step. */
  ghost predicate Completed(mc: Machine, r: Rank, s: Rank) {
    && Driving(r) && s.pc.Yielding? && s.step == r.step + 1 && s.term == r.term && s.origin == None
    && (r.pc.OwnGrads? ==> |r.pc.drive.cohort| <= 1) && (r.pc.Collecting? ==> r.pc.drive.settled)
    && s.params == Wire(mc, mc.apply(r.params, Average(Averaged(mc, r), mc.bucketLen), r.lr))
  }

  /** Another rank's round was adopted. */
  ghost predicate Adopted(mc: Machine, r: Rank, e: Event, s: Rank) {
    && e.Deliver? && e.m.Round? && e.m.from != mc.id && !Looping(r)
    && s.params == e.m.params && s.step == e.m.step && s.ready
    && s.term == r.term + 1 && s.origin == Some(Origin(e.m.from, e.m.term))
  }

  /** A round carries what its sender holds, as the wire will deliver it. */
  ghost predicate OwnRound(mc: Machine, r: Rank, m: Msg) {
    m.Round? ==> m.from == mc.id && m.step == r.step && m.params == Wire(mc, r.params) && m.term == r.term
  }

  /** No message is a round or a bucket. */
  ghost predicate Quiet(sent: seq<Msg>) {
    forall m :: m in sent ==> m.Hello? || m.Beat?
  }

  /** Anything sent is a greeting, or a round this rank vouches for. */
  ghost predicate Vouched(mc: Machine, r: Rank, sent: seq<Msg>) {
    forall m :: m in sent ==> !m.Grad? && OwnRound(mc, r, m) && (m.Round? ==> !Driving(r))
  }

  lemma OpenShape(mc: Machine, r: Rank, now: real)
    requires !Driving(r)
    ensures var o := OpenRound(mc, r, now); Unmoved(r, o.rank) && Vouched(mc, r, o.sent)
  {
    hide NewDrive, Cohort, Wire, MinNat, Alive;
  }

  lemma LoopShape(mc: Machine, r: Rank, now: real, pressure: bool)
    requires !Driving(r)
    ensures var o := LoopHead(mc, r, now, pressure); Unmoved(r, o.rank) && Vouched(mc, r, o.sent)
  {
    hide OpenRound, Leads, Wire;
    OpenShape(mc, Asked(r, now), now);
  }

  lemma MessageShape(mc: Machine, r: Rank, m: Msg, now: real)
    ensures var o := OnMessage(mc, r, m, now);
            && Quiet(o.sent)
            && (Unmoved(r, o.rank) || Adopted(mc, r, Deliver(m), o.rank))
  {
    hide Follows, Accepts, Put, Heard, Alive;
  }

  lemma FinishShape(mc: Machine, r: Rank, s: Rank, got: seq<Bucket>, now: real)
    requires Driving(r) && s.params == r.params && s.step == r.step && s.term == r.term && s.lr == r.lr
    requires (r.pc.OwnGrads? ==> |r.pc.drive.cohort| <= 1) && (r.pc.Collecting? ==> r.pc.drive.settled)
    requires got == Averaged(mc, r)
    ensures Completed(mc, r, FinishRound(mc, s, got, now))
  {
    hide Wire, Average, Alive, Averaged;
  }

  /** Parameters change only together with the step, in one of two places: completing a round of
      one's own, or adopting another's. Nothing is sent in either; everything sent otherwise
      carries exactly what the rank holds, and no round is sent while one is being driven. */
  lemma ParametersMove(mc: Machine, r: Rank, i: Input)
    requires Enabled(r, i.event)
    ensures var o := Step(mc, r, i);
            || (Unmoved(r, o.rank) && (i.event == ContribDone || Vouched(mc, r, o.sent)))
            || (Completed(mc, r, o.rank) && o.sent == [])
            || (Adopted(mc, r, i.event, o.rank) && Quiet(o.sent))
    ensures i.event == ContribDone ==> Unmoved(r, Step(mc, r, i).rank)
  {
    hide OpenRound, LoopHead, OnMessage, FinishRound, Put, Wire, Leads, Alive, PolicyFor, OwnBucket, NobodyReady,
         Lowest;
    match i.event
    case Deliver(m) => MessageShape(mc, r, m, i.now);
    case OwnGradsDone =>
      if |r.pc.drive.cohort| <= 1 { FinishShape(mc, r, r, Averaged(mc, r), i.now); }
    case CollectResume => FinishShape(mc, r, r.(pending := None), r.pc.drive.got, i.now);
    case PressureResume => OpenShape(mc, r, i.now);
    case YieldResume => LoopShape(mc, r, i.now, i.pressure);
    case Start(_) => StartShape(mc, r, i);
    case JoinTick => JoinShape(mc, r, i.now, i.pressure);
    case Tick => TickShape(mc, r, i.now, i.pressure);
    case Stop => StopShape(mc, r, i.now);
    case _ =>
  }

  lemma LoopCallShape(mc: Machine, r: Rank, now: real, pressure: bool)
    ensures var o := Loop(mc, r, now, pressure); Unmoved(r, o.rank) && Vouched(mc, r, o.sent)
  {
    hide LoopHead, OwnRound;
    if !Looping(r) { LoopShape(mc, r, now, pressure); }
  }

  /** A completed round leaves what the wire leaves as it is. */
  lemma CompletedCanonical(mc: Machine, r: Rank, s: Rank)
    requires Completed(mc, r, s)
    ensures Wire(mc, s.params) == s.params
  {
    hide Wire, Average, Averaged;
    WireTwice(mc, mc.apply(r.params, Average(Averaged(mc, r), mc.bucketLen), r.lr));
  }

  lemma WireTwice(mc: Machine, v: Params)
    ensures Wire(mc, Wire(mc, v)) == Wire(mc, v)
  {
    Quantize.OnWireIdempotent(v, mc.precision);
  }

  lemma StartShape(mc: Machine, r: Rank, i: Input)
    requires i.event.Start?
    ensures var o := Step(mc, r, i); Unmoved(r, o.rank) && Vouched(mc, r, o.sent)
  {
    hide Loop, Wire, Alive;
    LoopCallShape(mc, Started(r, i.event.nextLr), i.now, i.pressure);
  }

  lemma JoinShape(mc: Machine, r: Rank, now: real, pressure: bool)
    requires r.joining.Some?
    ensures var o := DoJoinTick(mc, r, now, pressure); Unmoved(r, o.rank) && Vouched(mc, r, o.sent)
  {
    hide Loop, Wire, Alive, NobodyReady, Lowest;
    LoopCallShape(mc, Promoted(Live(r, now)), now, pressure);
  }

  lemma TickShape(mc: Machine, r: Rank, now: real, pressure: bool)
    ensures var o := DoTick(mc, r, now, pressure); Unmoved(r, o.rank) && Vouched(mc, r, o.sent)
  {
    hide Loop, Wire, Alive, PolicyFor, TakesOver;
    LoopCallShape(mc, Asked(Retune(mc, r, now), now).(lastOpen := now), now, pressure);
  }

  lemma StopShape(mc: Machine, r: Rank, now: real)
    ensures var o := DoStop(mc, r, now); Unmoved(r, o.rank) && Vouched(mc, r, o.sent)
  {
    hide Wire, Alive, Leads;
  }

  // ── no wedged leader ──────────────────────────────────────────────────────

  /** The buckets asked for are those some policy needs of this cohort. */
  ghost predicate QuorumSized(want: set<Id>, quorum: nat) {
    exists n :: SizedFor(want, quorum, n)
  }

  ghost predicate SizedFor(want: set<Id>, quorum: nat, n: nat) {
    n >= 1 && quorum == Needed(want, n)
  }

  /** An open collection asks for a reachable number of buckets, from this round's cohort. */
  ghost predicate CollectionOpen(r: Rank, d: Drive, p: Pending) {
    && |d.cohort| > 1 && p.step == r.step
    && (forall k :: k in p.want <==> k in d.cohort)
    && QuorumSized(p.want, p.quorum)
    && (r.pc.OwnGrads? ==> !p.timer)
    && (!d.settled ==> r.pc.Collecting? ==> |d.got| < p.quorum)
  }

  ghost predicate FromCohort(mc: Machine, d: Drive) {
    && OnePerRank(d.got)
    && forall e :: e in d.got ==> e.id == mc.id || e.id in d.cohort
  }

  /** The windows are those of the current step, one for each rank of the cohort. */
  ghost predicate Windowed(mc: Machine, r: Rank, d: Drive) {
    && Distinct(d.cohort) && mc.id in d.batches && d.batches[mc.id] == mc.batch
    && d.assign == Assign(d.cohort, d.batches, Base(r.step, RoundSize(mc.id, d.cohort, d.batches)), |d.cohort|)
  }

  ghost predicate SameDrive(d: Drive, e: Drive) {
    e.cohort == d.cohort && e.batches == d.batches && e.assign == d.assign
  }

  /** While a round is driven: a collection that has been given up is resolved, an open one awaits
      the rank's own bucket or has its timer armed, and no rank counts twice. */
  ghost predicate DriveValid(mc: Machine, r: Rank, d: Drive) {
    && FromCohort(mc, d) && Windowed(mc, r, d)
    && (r.pending.Some? ==> CollectionOpen(r, d, r.pending.value))
    && (r.pending.None? && |d.cohort| > 1 ==> d.settled)
    && (r.pc.OwnGrads? ==> mc.id !in Ranks(d.got))
    && (r.pc.Collecting? ==> |d.cohort| > 1 && OwnBucket(mc, r, d) in d.got)
    && (r.pc.Collecting? && !d.settled ==> r.pending.Some? && r.pending.value.timer)
  }

  ghost predicate Valid(mc: Machine, r: Rank) {
    && mc.id !in r.members
    && r.policy.n >= 1 && r.policy == PolicyFor(r.policy.n, mc.timing)
    && (r.pending.Some? ==> Driving(r))
    && (Driving(r) ==> DriveValid(mc, r, r.pc.drive))
  }

  lemma InitValid(mc: Machine, params: Params)
    ensures Valid(mc, Init(mc, params))
  {
  }

  lemma NewDriveValid(mc: Machine, r: Rank)
    ensures var d := NewDrive(mc, r);
            && Windowed(mc, r, d) && FromCohort(mc, d) && d.got == []
            && Ranks(d.got) == {} && |d.cohort| == |Cohort(mc, r)| && forall k :: k in d.cohort <==> k in Cohort(mc, r)
  {
    hide Cohort, Assign, Base, RoundSize;
    SortedDistinct(Sorted(Cohort(mc, r)));
  }

  /** The windows of a drive depend on the step alone. */
  lemma SameWindows(mc: Machine, r: Rank, s: Rank, d: Drive, e: Drive)
    requires Windowed(mc, r, d) && s.step == r.step && SameDrive(d, e)
    ensures Windowed(mc, s, e)
  {
  }

  /** A round opens asking for what the cached policy needs of its cohort. */
  lemma OpensSized(mc: Machine, r: Rank, now: real)
    requires Valid(mc, r) && !Driving(r)
    ensures var s := OpenRound(mc, r, now).rank;
            s.pending.Some? ==>
              var p := s.pending.value; SizedFor(p.want, p.quorum, r.policy.n) && QuorumSized(p.want, p.quorum)
  {
    hide Wire, Alive, NewDrive, Cohort, BeatFor, Quorum;
    NewDriveValid(mc, Live(r, now));
  }

  lemma OpenValid(mc: Machine, r: Rank, now: real)
    requires Valid(mc, r) && !Driving(r)
    ensures Valid(mc, OpenRound(mc, r, now).rank)
  {
    hide Wire, Alive, Cohort, NewDrive, Windowed, FromCohort, Ranks, QuorumSized, Quorum, BeatFor;
    OpensSized(mc, r, now);
    var l := Live(r, now);
    NewDriveValid(mc, l);
    SameWindows(mc, l, OpenRound(mc, r, now).rank, NewDrive(mc, l), NewDrive(mc, l));
  }

  lemma LoopValid(mc: Machine, r: Rank, now: real, pressure: bool)
    requires Valid(mc, r) && !Driving(r)
    ensures Valid(mc, LoopHead(mc, r, now, pressure).rank)
  {
    hide OpenRound, Leads, Wire, DriveValid, Alive;
    OpenValid(mc, Asked(r, now), now);
  }

  lemma FinishValid(mc: Machine, r: Rank, got: seq<Bucket>, now: real)
    requires Valid(mc, r) && r.pending.None?
    ensures Valid(mc, FinishRound(mc, r, got, now))
  {
    hide Wire, Average, Alive, DriveValid;
  }

  lemma ReleaseValid(mc: Machine, r: Rank)
    requires Valid(mc, r)
    ensures Valid(mc, Release(r)) && Release(r).pending.None?
    ensures Driving(r) && |r.pc.drive.cohort| > 1 ==> Release(r).pc.drive.settled
  {
    hide OnePerRank, Ranks;
  }

  /** Own gradients in: the collection goes on, resolved if that was the last bucket needed, with
      its timer armed if not. */
  lemma CollectShape(mc: Machine, r: Rank, now: real)
    requires r.pc.OwnGrads? && |r.pc.drive.cohort| > 1
    ensures var d, p, s := r.pc.drive, r.pending, Collect(mc, r, r.pc.drive, now);
            var got := Put(d.got, OwnBucket(mc, r, d));
            var full := p.Some? && |got| >= p.value.quorum;
            && s == r.(pc := s.pc, pending := s.pending)
            && s.pc == Collecting(d.(got := got, settled := d.settled || full))
            && s.pending == (if p.Some? && !full then Some(p.value.(timer := true)) else p)
  {
    hide Put, OwnBucket, FinishRound;
  }

  lemma CollectValid(mc: Machine, r: Rank, now: real)
    requires Valid(mc, r) && r.pc.OwnGrads?
    ensures Valid(mc, Collect(mc, r, r.pc.drive, now))
  {
    hide Collect, FinishRound, Put, OnePerRank, Ranks, Windowed;
    var d := r.pc.drive;
    PutKeeps(d.got, OwnBucket(mc, r, d));
    if |d.cohort| <= 1 {
      CollectAlone(mc, r, now);
      FinishValid(mc, r, Put(d.got, OwnBucket(mc, r, d)), now);
    } else {
      CollectShape(mc, r, now);
      SameWindows(mc, r, Collect(mc, r, d, now), d, Collect(mc, r, d, now).pc.drive);
    }
  }

  lemma CollectAlone(mc: Machine, r: Rank, now: real)
    requires r.pc.OwnGrads? && |r.pc.drive.cohort| <= 1
    ensures Collect(mc, r, r.pc.drive, now) == FinishRound(mc, r, Averaged(mc, r), now)
  {
  }

  lemma GradValid(mc: Machine, r: Rank, m: Msg)
    requires Valid(mc, r) && m.Grad? && m.from != mc.id
    ensures Valid(mc, OnGrad(r, m))
  {
    hide Put, OnePerRank, Ranks, Windowed;
    if Driving(r) {
      PutKeeps(r.pc.drive.got, BucketOf(m));
      SameWindows(mc, r, OnGrad(r, m), r.pc.drive, OnGrad(r, m).pc.drive);
    }
  }

  lemma MessageValid(mc: Machine, r: Rank, m: Msg, now: real)
    requires Valid(mc, r)
    ensures Valid(mc, OnMessage(mc, r, m, now).rank)
  {
    hide Follows, OnGrad, Heard, Alive, DriveValid, Release;
    if !Ignored(mc, r, m) {
      var h := r.(members := r.members[m.from := Heard(r, m, now)]);
      KeepDrive(mc, r, h);
      match m
      case Grad(_, _, _, _, _, _, _) => GradValid(mc, h, m);
      case Round(_, _, _, _, _, _) =>
        KeepDrive(mc, h, h.(lastOpen := now));
        StandDownValid(mc, h.(lastOpen := now), now);
      case _ =>
    }
  }

  lemma StandDownValid(mc: Machine, r: Rank, now: real)
    requires Valid(mc, r)
    ensures Valid(mc, StandDown(mc, r, now).rank)
  {
    hide Release, DriveValid, Alive;
    ReleaseValid(mc, r);
    KeepDrive(mc, Release(r), StandDown(mc, r, now).rank);
  }

  /** Fields the collection does not read may change. */
  lemma KeepDrive(mc: Machine, r: Rank, s: Rank)
    requires s.params == r.params && s.step == r.step && s.term == r.term && s.pc == r.pc && s.pending == r.pending
    ensures Driving(r) ==> DriveValid(mc, s, s.pc.drive) == DriveValid(mc, r, r.pc.drive)
  {
  }

  /** Every step of every rank keeps it: in no reachable state does a leader wait for a promise
      that nothing is left to resolve. */
  lemma ValidKept(mc: Machine, r: Rank, i: Input)
    requires Valid(mc, r) && Enabled(r, i.event)
    ensures Valid(mc, Step(mc, r, i).rank)
  {
    hide OpenRound, LoopHead, OnMessage, FinishRound, Collect, Release, Leads, Alive, PolicyFor, NobodyReady, Lowest,
         DriveValid, Wire;
    match i.event
    case Deliver(m) => MessageValid(mc, r, m, i.now);
    case OwnGradsDone => CollectValid(mc, r, i.now);
    case CollectResume => ResumeValid(mc, r, i.now);
    case CollectTimer => TimerValid(mc, r);
    case OwnGradsFault => ReleaseValid(mc, r);
    case PressureResume => OpenValid(mc, r, i.now);
    case YieldResume => LoopValid(mc, r, i.now, i.pressure);
    case Dispose => ReleaseValid(mc, r); KeepDrive(mc, Release(r), DoDispose(r));
    case Start(_) => StartValid(mc, r, i);
    case JoinTick => JoinValid(mc, r, i.now, i.pressure);
    case Tick => TickValid(mc, r, i.now, i.pressure);
    case BackoffResume =>
    case Stop => StopValid(mc, r, i.now);
    case _ => KeepDrive(mc, r, Step(mc, r, i).rank);
  }

  lemma TimerValid(mc: Machine, r: Rank)
    requires Valid(mc, r) && r.pc.Collecting?
    ensures Valid(mc, r.(pc := Settled(r.pc)))
  {
    hide OnePerRank, Ranks;
  }

  lemma ResumeValid(mc: Machine, r: Rank, now: real)
    requires Valid(mc, r) && r.pc.Collecting? && r.pc.drive.settled
    ensures Valid(mc, FinishRound(mc, r.(pending := None), r.pc.drive.got, now))
  {
    hide FromCohort, Ranks, FinishRound;
    FinishValid(mc, r.(pending := None), r.pc.drive.got, now);
  }

  lemma LiveValid(mc: Machine, r: Rank, now: real)
    requires Valid(mc, r)
    ensures Valid(mc, Live(r, now)) && Valid(mc, Asked(r, now))
  {
    hide Alive, DriveValid;
    KeepDrive(mc, r, Live(r, now));
  }

  lemma LoopCallValid(mc: Machine, r: Rank, now: real, pressure: bool)
    requires Valid(mc, r)
    ensures Valid(mc, Loop(mc, r, now, pressure).rank)
  {
    hide LoopHead, Valid;
    if !Looping(r) { LoopValid(mc, r, now, pressure); }
  }

  lemma StartValid(mc: Machine, r: Rank, i: Input)
    requires Valid(mc, r) && i.event.Start?
    ensures Valid(mc, Step(mc, r, i).rank)
  {
    hide Loop, DriveValid, Live;
    var s := Started(r, i.event.nextLr);
    KeepDrive(mc, r, s);
    KeepDrive(mc, r, s.(joining := Some(0)));
    LoopCallValid(mc, s, i.now, i.pressure);
    LiveValid(mc, if !s.ready then s.(joining := Some(0)) else Loop(mc, s, i.now, i.pressure).rank, i.now);
  }

  lemma StopValid(mc: Machine, r: Rank, now: real)
    requires Valid(mc, r)
    ensures Valid(mc, DoStop(mc, r, now).rank)
  {
    hide DriveValid, Alive, Leads, Wire;
    KeepDrive(mc, r, DoStop(mc, r, now).rank);
  }

  lemma JoinValid(mc: Machine, r: Rank, now: real, pressure: bool)
    requires Valid(mc, r) && r.joining.Some?
    ensures Valid(mc, DoJoinTick(mc, r, now, pressure).rank)
  {
    hide Loop, DriveValid, Live, NobodyReady, Lowest;
    var l := Live(r, now);
    LiveValid(mc, r, now);
    KeepDrive(mc, r, r.(joining := None));
    KeepDrive(mc, l, Promoted(l));
    var tries := r.joining.value + if NobodyReady(l.members) then 1 else 0;
    KeepDrive(mc, l, l.(joining := Some(tries)));
    LoopCallValid(mc, Promoted(l), now, pressure);
  }

  lemma RetuneValid(mc: Machine, r: Rank, now: real)
    requires Valid(mc, r)
    ensures Valid(mc, Retune(mc, r, now))
  {
    hide DriveValid, Live;
    var l := Live(r, now);
    LiveValid(mc, r, now);
    QuorumMajority(|l.members| + 1);
    PolicyQuorum(|l.members| + 1, mc.timing);
    KeepDrive(mc, l, Retune(mc, r, now));
  }

  lemma TickValid(mc: Machine, r: Rank, now: real, pressure: bool)
    requires Valid(mc, r)
    ensures Valid(mc, DoTick(mc, r, now, pressure).rank)
  {
    hide Loop, DriveValid, Live, TakesOver, Retune;
    RetuneValid(mc, r, now);
    LiveValid(mc, Retune(mc, r, now), now);
    var a := Asked(Retune(mc, r, now), now);
    KeepDrive(mc, a, a.(lastOpen := now));
    LoopCallValid(mc, a.(lastOpen := now), now, pressure);
    LiveValid(mc, if TakesOver(mc, a, now) then Loop(mc, a.(lastOpen := now), now, pressure).rank else a, now);
  }

  lemma PolicyQuorum(n: nat, T: Timing)
    ensures PolicyFor(n, T).quorum == Quorum(n)
  {
  }

  /** What the suspended loop is waiting for. */
  function OwnEvent(r: Rank): Event
    requires Looping(r)
  {
    match r.pc
    case Pressure(_) => PressureResume
    case OwnGrads(_) => OwnGradsDone
    case Collecting(d) => if d.settled then CollectResume else CollectTimer
    case Backoff => BackoffResume
    case _ => YieldResume
  }

  /** A suspended loop can always be woken; a collection wakes in at most two of its own events,
      its timer and its resumption, whatever the network does. */
  lemma NeverWedged(mc: Machine, r: Rank, now: real, pressure: bool)
    requires Valid(mc, r) && Looping(r)
    ensures Enabled(r, OwnEvent(r))
    ensures var s := Step(mc, r, Input(OwnEvent(r), now, pressure)).rank;
            && (r.pc.Collecting? && r.pc.drive.settled ==> Completed(mc, r, s) && s.pending.None?)
            && (r.pc.Collecting? && !r.pc.drive.settled ==>
               s.pc.Collecting? && s.pc.drive.settled && s.pc.drive.got == r.pc.drive.got)
  {
    hide FromCohort, CollectionOpen, FinishRound, OpenRound, LoopHead, Collect, Completed;
    if r.pc.Collecting? && r.pc.drive.settled {
      FinishShape(mc, r, r.(pending := None), r.pc.drive.got, now);
      FinishKeepsPending(mc, r.(pending := None), r.pc.drive.got, now);
    }
  }

  lemma FinishKeepsPending(mc: Machine, r: Rank, got: seq<Bucket>, now: real)
    ensures FinishRound(mc, r, got, now).pending == r.pending
  {
  }

  // ── how buckets are collected ─────────────────────────────────────────────

  /** One bucket came in by message: for this step, from this cohort, in answer to this rank. */
  ghost predicate TookGrad(mc: Machine, r: Rank, e: Event, s: Rank)
    requires Driving(r) && Driving(s)
  {
    && e.Deliver? && e.m.Grad? && e.m.to == mc.id && e.m.from != mc.id && e.m.step == r.step
    && r.pending.Some? && e.m.step == r.pending.value.step && e.m.from in r.pending.value.want
    && s.pc.drive.got == Put(r.pc.drive.got, BucketOf(e.m))
  }

  /** Every other rank of the cohort is one this rank knows, at the batch it last announced. */
  ghost predicate CohortKnown(mc: Machine, r: Rank, d: Drive) {
    forall k :: k in d.cohort && k != mc.id ==>
      k in r.members && r.members[k].ready && r.members[k].running && Size(d.batches, k) == BatchOf(mc, r.members, k)
  }

  /** A round was opened: announced once, with a window for each of its cohort and nothing yet
      collected. */
  ghost predicate Opened(mc: Machine, r: Rank, s: Rank, sent: seq<Msg>) {
    && !Driving(r) && Driving(s) && s.pc.drive.got == [] && Unmoved(r, s) && CohortKnown(mc, r, s.pc.drive)
    && SelfIncluded(mc, r, s)
    && exists m :: m in sent && m.Round? && OwnRound(mc, r, m) && m.assign == s.pc.drive.assign
  }

  /** A rank is in the cohort it opens exactly when it is running and ready as it opens it. */
  ghost predicate SelfIncluded(mc: Machine, r: Rank, s: Rank)
    requires Driving(s)
  {
    mc.id !in r.members ==> (mc.id in s.pc.drive.cohort <==> s.running && s.ready)
  }

  /** Members may have been forgotten, but none is new or changed. */
  ghost predicate Fewer(s: Rank, r: Rank) {
    forall k :: k in s.members ==> k in r.members && s.members[k] == r.members[k]
  }

  /** The same round goes on, with at most one bucket more. */
  ghost predicate Continued(mc: Machine, r: Rank, e: Event, s: Rank)
    requires Driving(r) && Driving(s)
  {
    Unmoved(r, s) && SameDrive(r.pc.drive, s.pc.drive) && GotMoved(mc, r, e, s)
  }

  ghost predicate GotMoved(mc: Machine, r: Rank, e: Event, s: Rank)
    requires Driving(r) && Driving(s)
  {
    || s.pc.drive.got == r.pc.drive.got
    || (r.pc.OwnGrads? && s.pc.drive.got == Put(r.pc.drive.got, OwnBucket(mc, r, r.pc.drive)))
    || TookGrad(mc, r, e, s)
  }

  ghost predicate DriveMoved(mc: Machine, r: Rank, e: Event, s: Rank, sent: seq<Msg>) {
    Driving(s) ==>
      || Opened(mc, r, s, sent)
      || (Driving(r) && Continued(mc, r, e, s))
  }

  lemma NewDriveKnown(mc: Machine, r: Rank)
    ensures CohortKnown(mc, r, NewDrive(mc, r)) && NewDrive(mc, r).got == []
  {
    hide Assign, Base, RoundSize;
  }

  lemma NewDriveSelf(mc: Machine, r: Rank)
    ensures mc.id !in r.members ==> (mc.id in NewDrive(mc, r).cohort <==> r.running && r.ready)
  {
    hide Assign, Base, RoundSize;
  }

  lemma KnownBefore(mc: Machine, s: Rank, r: Rank, d: Drive)
    requires Fewer(s, r) && CohortKnown(mc, s, d)
    ensures CohortKnown(mc, r, d)
  {
  }

  lemma OpenDrive(mc: Machine, r: Rank, now: real)
    requires !Driving(r)
    ensures Opened(mc, r, OpenRound(mc, r, now).rank, OpenRound(mc, r, now).sent)
  {
    hide NewDrive, CohortKnown, Wire, Alive, Cohort, MinNat;
    var l := Live(r, now);
    var m := RoundOf(mc, l, NewDrive(mc, l).assign);
    assert m in OpenRound(mc, r, now).sent;
    NewDriveKnown(mc, l);
    NewDriveSelf(mc, l);
    KnownBefore(mc, l, r, NewDrive(mc, l));
  }

  lemma LoopDrive(mc: Machine, r: Rank, now: real, pressure: bool)
    requires !Driving(r)
    ensures var o := LoopHead(mc, r, now, pressure); Driving(o.rank) ==> Opened(mc, r, o.rank, o.sent)
  {
    hide OpenRound, Leads, Wire, Alive, OwnRound, CohortKnown;
    var a := Asked(r, now);
    OpenDrive(mc, a, now);
    OpenedLater(mc, r, a, OpenRound(mc, a, now), OpenRound(mc, a, now));
  }

  lemma SameOwnRound(mc: Machine, r: Rank, s: Rank)
    requires Unmoved(r, s)
    ensures forall m :: OwnRound(mc, r, m) == OwnRound(mc, s, m)
  {
    hide Wire;
  }

  lemma LoopCallDrive(mc: Machine, r: Rank, now: real, pressure: bool)
    ensures var o := Loop(mc, r, now, pressure);
            Driving(o.rank) ==> Opened(mc, r, o.rank, o.sent) || o.rank == r
  {
    hide LoopHead, Opened;
    if !Looping(r) { LoopDrive(mc, r, now, pressure); }
  }

  lemma GradDrive(mc: Machine, r: Rank, m: Msg, e: Event)
    requires Valid(mc, r) && m.Grad? && m.from != mc.id && m.to == mc.id && e == Deliver(m)
    ensures var s := OnGrad(r, m);
            Driving(s) ==> Driving(r) && Continued(mc, r, e, s)
  {
    hide Put, OwnBucket, FromCohort, Windowed, Ranks;
  }

  lemma MessageDrive(mc: Machine, r: Rank, m: Msg, now: real)
    requires Valid(mc, r)
    ensures DriveMoved(mc, r, Deliver(m), OnMessage(mc, r, m, now).rank, OnMessage(mc, r, m, now).sent)
  {
    hide OnMessage, DriveValid, Continued, Opened, OnGrad;
    if m.Grad? && !Ignored(mc, r, m) {
      var h := r.(members := r.members[m.from := Heard(r, m, now)]);
      KeepDrive(mc, r, h);
      GradDrive(mc, h, m, Deliver(m));
      GradMessage(mc, r, m, now);
      if Driving(OnGrad(h, m)) { SameGot(mc, r, h, Deliver(m), OnGrad(h, m)); }
    } else {
      OtherMessage(mc, r, m, now);
      SameDriveMoved(mc, r, Input(Deliver(m), now, false));
    }
  }

  lemma GradMessage(mc: Machine, r: Rank, m: Msg, now: real)
    requires m.Grad? && !Ignored(mc, r, m)
    ensures OnMessage(mc, r, m, now).rank == OnGrad(r.(members := r.members[m.from := Heard(r, m, now)]), m)
  {
    hide OnGrad, Heard;
  }

  lemma OtherMessage(mc: Machine, r: Rank, m: Msg, now: real)
    requires !m.Grad? || Ignored(mc, r, m)
    ensures var s := OnMessage(mc, r, m, now).rank;
            !Driving(s) || (Unmoved(r, s) && (s.pc == r.pc || s.pc == Settled(r.pc)))
  {
    hide Follows, Heard, Alive;
  }

  lemma SameGot(mc: Machine, r: Rank, h: Rank, e: Event, s: Rank)
    requires Driving(h) && Driving(s) && Continued(mc, h, e, s)
    requires h.pc == r.pc && h.pending == r.pending && Unmoved(r, h)
    ensures Continued(mc, r, e, s)
  {
    hide Put;
  }

  lemma CollectDrive(mc: Machine, r: Rank, now: real)
    requires r.pc.OwnGrads?
    ensures DriveMoved(mc, r, OwnGradsDone, Collect(mc, r, r.pc.drive, now), [])
  {
    hide OwnBucket, Put, FinishRound, Opened, TookGrad, Collect;
    if |r.pc.drive.cohort| <= 1 {
      CollectAlone(mc, r, now);
      FinishedDrive(mc, r, Averaged(mc, r), now);
    } else {
      CollectShape(mc, r, now);
    }
  }

  /** Between two steps a drive is opened afresh, or keeps its window and cohort and gains at most
      one bucket: its own, or one that answers its current step from within its cohort. */
  lemma BucketsMove(mc: Machine, r: Rank, i: Input)
    requires Valid(mc, r) && Enabled(r, i.event)
    ensures DriveMoved(mc, r, i.event, Step(mc, r, i).rank, Step(mc, r, i).sent)
  {
    hide OpenRound, LoopHead, OnMessage, FinishRound, Collect, Alive, Valid, DriveMoved, Put, DoTick, DoStart,
         DoJoinTick, Leads, Settled;
    match i.event
    case Deliver(m) => MessageDrive(mc, r, m, i.now);
    case OwnGradsDone => CollectDrive(mc, r, i.now);
    case CollectResume => FinishedDrive(mc, r.(pending := None), r.pc.drive.got, i.now); SameDriveMoved(mc, r, i);
    case PressureResume => OpenDrive(mc, r, i.now); SameDriveMoved(mc, r, i);
    case YieldResume => LoopDrive(mc, r, i.now, i.pressure); SameDriveMoved(mc, r, i);
    case Start(_) => StartDrive(mc, r, i);
    case JoinTick => JoinDrive(mc, r, i.now, i.pressure);
    case Tick => TickDrive(mc, r, i.now, i.pressure);
    case _ => SameDriveMoved(mc, r, i);
  }

  lemma SameDriveMoved(mc: Machine, r: Rank, i: Input)
    requires Enabled(r, i.event)
    ensures var o := Step(mc, r, i);
            !Driving(o.rank) || Opened(mc, r, o.rank, o.sent) ||
            (Unmoved(r, o.rank) && (o.rank.pc == r.pc || o.rank.pc == Settled(r.pc))) ==>
              DriveMoved(mc, r, i.event, o.rank, o.sent)
  {
    hide Step, Opened, Put, OwnBucket;
  }

  lemma FinishedDrive(mc: Machine, r: Rank, got: seq<Bucket>, now: real)
    ensures !Driving(FinishRound(mc, r, got, now))
  {
  }

  lemma StartDrive(mc: Machine, r: Rank, i: Input)
    requires i.event.Start?
    ensures DriveMoved(mc, r, i.event, Step(mc, r, i).rank, Step(mc, r, i).sent)
  {
    hide Loop, Opened, Alive;
    var s := Started(r, i.event.nextLr);
    LoopCallDrive(mc, s, i.now, i.pressure);
    OpenedLater(mc, r, s, Loop(mc, s, i.now, i.pressure), Step(mc, r, i));
  }

  lemma JoinDrive(mc: Machine, r: Rank, now: real, pressure: bool)
    requires r.joining.Some?
    ensures var o := DoJoinTick(mc, r, now, pressure); DriveMoved(mc, r, JoinTick, o.rank, o.sent)
  {
    hide Loop, Opened, Alive, NobodyReady, Lowest;
    var b := Promoted(Live(r, now));
    LoopCallDrive(mc, b, now, pressure);
    OpenedLater(mc, r, b, Loop(mc, b, now, pressure), Loop(mc, b, now, pressure));
  }

  lemma TickDrive(mc: Machine, r: Rank, now: real, pressure: bool)
    ensures var o := DoTick(mc, r, now, pressure); DriveMoved(mc, r, Tick, o.rank, o.sent)
  {
    hide Loop, Opened, Alive, TakesOver, PolicyFor;
    var b := Asked(Retune(mc, r, now), now).(lastOpen := now);
    LoopCallDrive(mc, b, now, pressure);
    OpenedLater(mc, r, b, Loop(mc, b, now, pressure), DoTick(mc, r, now, pressure));
  }

  /** Opened from the same parameters, whatever other fields changed and whatever else was sent. */
  lemma OpenedLater(mc: Machine, r: Rank, r': Rank, o: Outcome, o': Outcome)
    requires Unmoved(r, r') && r'.pc == r.pc && Fewer(r', r)
    ensures o'.rank.pc == o.rank.pc && Unmoved(o.rank, o'.rank) && (forall m :: m in o.sent ==> m in o'.sent) &&
            o'.rank.running == o.rank.running && o'.rank.ready == o.rank.ready ==>
            Opened(mc, r', o.rank, o.sent) ==> Opened(mc, r, o'.rank, o'.sent)
  {
    hide OwnRound, CohortKnown;
    SameOwnRound(mc, r, r');
    if Driving(o.rank) && CohortKnown(mc, r', o.rank.pc.drive) { KnownBefore(mc, r', r, o.rank.pc.drive); }
  }

  /** Every round a rank opens counts the rank in exactly when it is running and ready as it opens
      it: a test before the opening. Only the end of the transport wait can find it stopped. */
  lemma OpensWithItself(mc: Machine, r: Rank, i: Input)
    requires Valid(mc, r) && Enabled(r, i.event) && !Driving(r) && Driving(Step(mc, r, i).rank)
    ensures var s := Step(mc, r, i).rank;
            && (mc.id in s.pc.drive.cohort <==> s.running && s.ready)
            && (i.event != PressureResume ==> s.running && s.ready)
  {
    hide Step, DriveValid;
    BucketsMove(mc, r, i);
    if i.event != PressureResume { OpensRunning(mc, r, i); }
  }

  lemma OpensRunning(mc: Machine, r: Rank, i: Input)
    requires Enabled(r, i.event) && !Driving(r) && Driving(Step(mc, r, i).rank) && i.event != PressureResume
    ensures Step(mc, r, i).rank.running && Step(mc, r, i).rank.ready
  {
    hide Loop, LoopHead, Alive, NobodyReady, Lowest, TakesOver, PolicyFor, OnMessage, GradOf, RoundOf, Leads;
    match i.event
    case Deliver(m) => NoDriveByMessage(mc, r, m, i.now);
    case Start(nextLr) => LoopCallRunning(mc, Started(r, nextLr), i.now, i.pressure);
    case JoinTick => LoopCallRunning(mc, Promoted(Live(r, i.now)), i.now, i.pressure);
    case Tick => LoopCallRunning(mc, Asked(Retune(mc, r, i.now), i.now).(lastOpen := i.now), i.now, i.pressure);
    case YieldResume => LoopRunning(mc, r, i.now, i.pressure);
    case _ =>
  }

  lemma NoDriveByMessage(mc: Machine, r: Rank, m: Msg, now: real)
    requires !Driving(r)
    ensures !Driving(OnMessage(mc, r, m, now).rank)
  {
    hide Follows, Heard, Alive, Put;
  }

  lemma LoopRunning(mc: Machine, r: Rank, now: real, pressure: bool)
    ensures var s := LoopHead(mc, r, now, pressure).rank; Driving(s) ==> s.running && s.ready
  {
    hide NewDrive, Alive, Wire, MinNat, LeaderOf;
  }

  lemma LoopCallRunning(mc: Machine, r: Rank, now: real, pressure: bool)
    ensures var s := Loop(mc, r, now, pressure).rank; Driving(s) ==> Driving(r) || (s.running && s.ready)
  {
    hide LoopHead;
    LoopRunning(mc, r, now, pressure);
  }

  // ── contributing to another rank's round ──────────────────────────────────

  /** A contribution begins only as a round is adopted, over the window that round assigns and
      against the parameters it carries. */
  ghost predicate WorkMoved(mc: Machine, r: Rank, e: Event, s: Rank) {
    s.contributing.Some? && s.contributing != r.contributing ==>
      && Adopted(mc, r, e, s) && mc.id in e.m.assign
      && s.contributing.value == Work(e.m.from, e.m.step, e.m.assign[mc.id], e.m.params, e.m.term)
  }

  lemma WorkMoves(mc: Machine, r: Rank, i: Input)
    requires Enabled(r, i.event)
    ensures WorkMoved(mc, r, i.event, Step(mc, r, i).rank)
  {
    hide WorkMoved, Loop, LoopHead, OnMessage, FinishRound, OpenRound, Release, Alive, NobodyReady, Lowest, Put,
         OwnBucket, TakesOver, Retune, RoundOf, Leads;
    SameWork(mc, r, i.event, Step(mc, r, i).rank);
    match i.event
    case Deliver(m) => MessageWork(mc, r, m, i.now);
    case CollectResume => FinishWork(mc, r.(pending := None), r.pc.drive.got, i.now);
    case OwnGradsDone => FinishWork(mc, r, Put(r.pc.drive.got, OwnBucket(mc, r, r.pc.drive)), i.now);
    case PressureResume => OpenWork(mc, r, i.now);
    case YieldResume => LoopWork(mc, r, i.now, i.pressure);
    case Dispose => ReleaseWork(r);
    case OwnGradsFault => ReleaseWork(r);
    case Start(nextLr) => LoopCallWork(mc, Started(r, nextLr), i.now, i.pressure);
    case JoinTick => LoopCallWork(mc, Promoted(Live(r, i.now)), i.now, i.pressure);
    case Tick => RetuneWork(mc, r, i.now); LoopCallWork(mc, Asked(Retune(mc, r, i.now), i.now).(lastOpen := i.now),
        i.now, i.pressure);
    case _ =>
  }

  lemma SameWork(mc: Machine, r: Rank, e: Event, s: Rank)
    ensures s.contributing == r.contributing || s.contributing == None ==> WorkMoved(mc, r, e, s)
  {
  }

  /** A bucket is sent only when its computation ends, and only if the round it answers is still
      the newest this rank holds. */
  lemma BucketsSent(mc: Machine, r: Rank, i: Input)
    requires Enabled(r, i.event)
    ensures forall m :: m in Step(mc, r, i).sent && (m.Grad? || i.event == ContribDone) ==>
              i.event == ContribDone && r.contributing.Some? && r.contributing.value.step == r.step &&
                m == GradOf(mc, r.contributing.value)
  {
    hide Step, GradOf, Wire, Adopted, Completed, Unmoved;
    ParametersMove(mc, r, i);
    if i.event == ContribDone { ContributionSent(mc, r, i); }
  }

  lemma ContributionSent(mc: Machine, r: Rank, i: Input)
    requires Enabled(r, i.event) && i.event == ContribDone
    ensures forall m :: m in Step(mc, r, i).sent ==>
            r.contributing.value.step == r.step && m == GradOf(mc, r.contributing.value)
  {
    hide GradOf;
  }

  lemma ReleaseWork(r: Rank)
    ensures Release(r).contributing == r.contributing
  {
  }

  lemma FinishWork(mc: Machine, r: Rank, got: seq<Bucket>, now: real)
    ensures FinishRound(mc, r, got, now).contributing == r.contributing
  {
  }

  lemma RetuneWork(mc: Machine, r: Rank, now: real)
    ensures Retune(mc, r, now).contributing == r.contributing
  {
    hide Alive;
  }

  lemma OpenWork(mc: Machine, r: Rank, now: real)
    ensures OpenRound(mc, r, now).rank.contributing == r.contributing
  {
  }

  lemma LoopWork(mc: Machine, r: Rank, now: real, pressure: bool)
    ensures LoopHead(mc, r, now, pressure).rank.contributing == r.contributing
  {
    hide OpenRound, Leads, Alive, RoundOf;
    OpenWork(mc, Asked(r, now), now);
  }

  lemma LoopCallWork(mc: Machine, r: Rank, now: real, pressure: bool)
    ensures Loop(mc, r, now, pressure).rank.contributing == r.contributing
  {
    hide LoopHead;
    LoopWork(mc, r, now, pressure);
  }

  lemma MessageWork(mc: Machine, r: Rank, m: Msg, now: real)
    ensures WorkMoved(mc, r, Deliver(m), OnMessage(mc, r, m, now).rank)
  {
    hide Follows, Put, Heard, Alive;
  }

  // ── membership ────────────────────────────────────────────────────────────

  /** The roster changes only by a message, and then only its sender's entry. */
  ghost predicate RosterMoved(mc: Machine, r: Rank, i: Input, s: Rank) {
    forall k :: k in s.members ==>
      || (k in r.members && s.members[k] == r.members[k])
      || (i.event.Deliver? && i.event.m.from == k != mc.id && s.members[k] == Heard(r, i.event.m, i.now))
  }

  ghost predicate Greets(mc: Machine, sent: seq<Msg>) {
    forall m :: m in sent && (m.Hello? || m.Beat?) ==> m.from == mc.id && m.batch == mc.batch
  }

  lemma LoopRoster(mc: Machine, r: Rank, now: real, pressure: bool)
    ensures var o := Loop(mc, r, now, pressure); Fewer(o.rank, r) && Greets(mc, o.sent)
  {
    hide NewDrive, Wire, Alive, Leads, MinNat;
  }

  lemma ReleaseRoster(r: Rank)
    ensures Release(r).members == r.members
  {
  }

  lemma FinishRoster(mc: Machine, r: Rank, got: seq<Bucket>, now: real)
    ensures Fewer(FinishRound(mc, r, got, now), r)
  {
    hide Alive;
  }

  lemma GradRoster(r: Rank, m: Msg)
    requires m.Grad?
    ensures OnGrad(r, m).members == r.members
  {
  }

  lemma MessageRoster(mc: Machine, r: Rank, m: Msg, now: real, pressure: bool)
    ensures var o := OnMessage(mc, r, m, now);
            RosterMoved(mc, r, Input(Deliver(m), now, pressure), o.rank) && Greets(mc, o.sent)
  {
    hide OnRound, OnGrad, Heard;
    var h := r.(members := r.members[m.from := Heard(r, m, now)]);
    if m.Grad? { GradRoster(h, m); }
    if m.Round? { RoundRoster(mc, h.(lastOpen := now), m, now); }
  }

  lemma RoundRoster(mc: Machine, r: Rank, m: Msg, now: real)
    requires m.Round?
    ensures var o := OnRound(mc, r, m, now); Fewer(o.rank, r) && Greets(mc, o.sent)
  {
    hide Follows, Alive, Release;
    ReleaseRoster(r);
  }

  lemma OpenRoster(mc: Machine, r: Rank, now: real)
    ensures var o := OpenRound(mc, r, now); Fewer(o.rank, r) && Greets(mc, o.sent)
  {
    hide NewDrive, Wire, Alive, MinNat;
  }

  lemma HeadRoster(mc: Machine, r: Rank, now: real, pressure: bool)
    ensures var o := LoopHead(mc, r, now, pressure); Fewer(o.rank, r) && Greets(mc, o.sent)
  {
    hide OpenRound, Wire, Alive, Leads;
    OpenRoster(mc, Asked(r, now), now);
  }

  lemma StartRoster(mc: Machine, r: Rank, nextLr: Option<real>, now: real, pressure: bool)
    ensures var o := DoStart(mc, r, nextLr, now, pressure); Fewer(o.rank, r) && Greets(mc, o.sent)
  {
    hide Loop, Alive;
    LoopRoster(mc, Started(r, nextLr), now, pressure);
  }

  lemma JoinRoster(mc: Machine, r: Rank, now: real, pressure: bool)
    requires r.joining.Some?
    ensures var o := DoJoinTick(mc, r, now, pressure); Fewer(o.rank, r) && Greets(mc, o.sent)
  {
    hide Loop, Alive, NobodyReady, Lowest;
    LoopRoster(mc, Promoted(Live(r, now)), now, pressure);
  }

  lemma TickRoster(mc: Machine, r: Rank, now: real, pressure: bool)
    ensures var o := DoTick(mc, r, now, pressure); Fewer(o.rank, r) && Greets(mc, o.sent)
  {
    hide Loop, Alive, TakesOver, PolicyFor;
    LoopRoster(mc, Asked(Retune(mc, r, now), now).(lastOpen := now), now, pressure);
  }

  lemma StopRoster(mc: Machine, r: Rank, now: real)
    ensures var o := DoStop(mc, r, now); Fewer(o.rank, r) && Greets(mc, o.sent)
  {
    hide Alive, Leads, Wire;
  }

  lemma RosterMoves(mc: Machine, r: Rank, i: Input)
    requires Enabled(r, i.event)
    ensures RosterMoved(mc, r, i, Step(mc, r, i).rank) && Greets(mc, Step(mc, r, i).sent)
  {
    hide DoTick, DoStart, DoJoinTick, DoStop, LoopHead, OnMessage, FinishRound, OpenRound, Release, Collect, Alive,
         Settled, Wire;
    match i.event
    case Deliver(m) => MessageRoster(mc, r, m, i.now, i.pressure);
    case CollectResume => FinishRoster(mc, r.(pending := None), r.pc.drive.got, i.now);
    case OwnGradsDone => CollectRoster(mc, r, i.now);
    case PressureResume => OpenRoster(mc, r, i.now);
    case YieldResume => HeadRoster(mc, r, i.now, i.pressure);
    case Dispose => ReleaseRoster(r);
    case OwnGradsFault => ReleaseRoster(r);
    case Start(nextLr) => StartRoster(mc, r, nextLr, i.now, i.pressure);
    case JoinTick => JoinRoster(mc, r, i.now, i.pressure);
    case Tick => TickRoster(mc, r, i.now, i.pressure);
    case Stop => StopRoster(mc, r, i.now);
    case _ =>
  }

  lemma CollectRoster(mc: Machine, r: Rank, now: real)
    requires r.pc.OwnGrads?
    ensures Fewer(Collect(mc, r, r.pc.drive, now), r)
  {
    hide Collect, Put, OwnBucket, FinishRound;
    if |r.pc.drive.cohort| <= 1 {
      CollectAlone(mc, r, now);
      FinishRoster(mc, r, Averaged(mc, r), now);
    } else {
      CollectShape(mc, r, now);
    }
  }

  // ── quorums ───────────────────────────────────────────────────────────────

  lemma {:induction false} RanksCount(got: seq<Bucket>)
    requires OnePerRank(got)
    ensures |Ranks(got)| == |got|
  {
    if got != [] {
      var front, e := got[..|got| - 1], got[|got| - 1];
      RanksCount(front);
      assert e.id !in Ranks(front);
      assert Ranks(got) == Ranks(front) + {e.id};
    }
  }

  /** A collection resolves early exactly when it holds as many ranks as its quorum. */
  lemma ResolvesOnQuorum(mc: Machine, r: Rank, m: Msg)
    requires Valid(mc, r) && Driving(r) && r.pending.Some? && m.Grad? && m.from != mc.id && !r.pc.drive.settled
    ensures var s := OnGrad(r, m);
            && Driving(s) && |Ranks(s.pc.drive.got)| == |s.pc.drive.got|
            && (Accepts(r, m) ==> (s.pc.drive.settled <==> |Ranks(s.pc.drive.got)| >= r.pending.value.quorum))
            && (!Accepts(r, m) ==> s == r)
  {
    hide Put, Ranks, OnePerRank, Windowed, OwnBucket, QuorumSized;
    GradValid(mc, r, m);
    PutKeeps(r.pc.drive.got, BucketOf(m));
    RanksCount(OnGrad(r, m).pc.drive.got);
  }

  /** A round in collection that has reached its quorum, sized by the policy for `n`. */
  ghost predicate QuorumReached(mc: Machine, r: Rank, n: nat) {
    && Valid(mc, r) && r.pc.Collecting? && r.pending.Some?
    && SizedFor(r.pending.value.want, r.pending.value.quorum, n) && |Ranks(r.pc.drive.got)| >= r.pending.value.quorum
  }

  lemma QuorumContributors(mc: Machine, r: Rank, n: nat)
    requires QuorumReached(mc, r, n)
    ensures Meets(Ranks(r.pc.drive.got), mc.id, r.pending.value.want, n) && |r.pending.value.want| >= 2
  {
    hide Assign, Base, RoundSize, Distinct, OnePerRank, QuorumSized, Needed, Ranks, OwnBucket, PolicyFor;
    var d, want := r.pc.drive, r.pending.value.want;
    RanksOf(d.got, OwnBucket(mc, r, d));
    OwnsId(mc, r, d);
    CohortSize(d.cohort, want);
    forall k | k in Ranks(d.got) ensures k in want + {mc.id} {
      var e := BucketFrom(d.got, k);
    }
  }

  lemma OwnsId(mc: Machine, r: Rank, d: Drive)
    ensures OwnBucket(mc, r, d).id == mc.id
  {
  }

  lemma RanksOf(got: seq<Bucket>, e: Bucket)
    requires e in got
    ensures e.id in Ranks(got)
  {
  }

  lemma BucketFrom(got: seq<Bucket>, k: Id) returns (e: Bucket)
    requires k in Ranks(got)
    ensures e in got && e.id == k
  {
    e :| e in got && e.id == k;
  }

  /** As many elements as places, when none repeats. */
  lemma {:induction false} CohortSize(ids: seq<Id>, s: set<Id>)
    requires Distinct(ids) && forall k :: k in s <==> k in ids
    ensures |s| == |ids|
  {
    if ids == [] {
      assert s == {};
    } else {
      var n := |ids| - 1;
      CohortSize(ids[..n], s - {ids[n]});
    }
  }

  /** Two rounds over one cohort that both reached their quorum have a contributor in common, if one
      rank leads both or the two quorums together exceed what the ranks other than the leaders can
      keep apart; `Policy.QuorumsMeet` shows that nothing weaker will do. */
  lemma QuorumsShareARank(mc: Machine, r: Rank, n: nat, mc': Machine, r': Rank, n': nat)
    requires QuorumReached(mc, r, n) && QuorumReached(mc', r', n')
    requires r.pending.value.want == r'.pending.value.want
    requires mc.id == mc'.id ||
             r.pending.value.quorum + r'.pending.value.quorum > |r.pending.value.want - {mc.id, mc'.id}| + 2
    ensures Ranks(r.pc.drive.got) * Ranks(r'.pc.drive.got) != {}
  {
    hide Valid, Ranks, Needed;
    QuorumContributors(mc, r, n);
    QuorumContributors(mc', r', n');
    ApartLeavesRoom(r.pending.value.want, mc.id, mc'.id, Ranks(r.pc.drive.got), Ranks(r'.pc.drive.got));
  }

  /** Under policies sized for at least that cohort they always do when both leaders are in it, and
      otherwise for every cohort size that `SizeSuffices` for the leaders outside. */
  lemma SizedQuorumsShareARank(mc: Machine, r: Rank, n: nat, mc': Machine, r': Rank, n': nat)
    requires QuorumReached(mc, r, n) && QuorumReached(mc', r', n')
    requires r.pending.value.want == r'.pending.value.want
    requires |r.pending.value.want| <= n && |r.pending.value.want| <= n'
    requires mc.id == mc'.id || SizeSuffices(|r.pending.value.want|, Outside(r.pending.value.want, mc.id, mc'.id))
    ensures Ranks(r.pc.drive.got) * Ranks(r'.pc.drive.got) != {}
  {
    hide Valid, Meets, SizeSuffices, Ranks;
    var w := r.pending.value.want;
    QuorumContributors(mc, r, n);
    QuorumContributors(mc', r', n');
    FreshPolicyMeets(w, mc.id, n, mc'.id, n', Ranks(r.pc.drive.got), Ranks(r'.pc.drive.got));
  }
}
