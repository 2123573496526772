/** The end of a run: a stopped leader's last parameters reach the cohort, exactly once, after any
    round still in flight has been applied. */
module Publication {
  import opened Wrappers
  import opened Reduce
  import opened Policy
  import opened Protocol
  import opened RankSafety
  import opened SplitBrain

  /** Stopped, with parameters, and not disposed. */
  ghost predicate Stopped(r: Rank) {
    !r.running && r.ready && !r.disposed
  }

  /** The messages of a list that are rounds. */
  function Rounds(sent: seq<Msg>): seq<Msg> {
    if sent == [] then [] else (if sent[0].Round? then [sent[0]] else []) + Rounds(sent[1..])
  }

  /** Everything sent over a run. */
  ghost function SentOver(mc: Machine, r: Rank, inputs: seq<Input>): seq<Msg>
    requires Trace(mc, r, inputs)
    decreases |inputs|
  {
    if inputs == [] then []
    else Step(mc, r, inputs[0]).sent + SentOver(mc, Step(mc, r, inputs[0]).rank, inputs[1..])
  }

  /** Rounds a stopped rank is still going to send: its last publication while its loop is alive,
      and one more if it was caught between the leader check and the opening of a round. */
  function Owed(r: Rank): nat {
    if r.pc.Idle? then 0 else if r.pc.Pressure? then 2 else 1
  }

  ghost predicate StaysStopped(inputs: seq<Input>) {
    forall k :: 0 <= k < |inputs| ==> !inputs[k].event.Start? && !inputs[k].event.Dispose?
  }

  lemma {:induction false} RoundsConcat(a: seq<Msg>, b: seq<Msg>)
    ensures Rounds(a + b) == Rounds(a) + Rounds(b)
  {
    if a == [] {
      assert a + b == b;
    } else {
      assert (a + b)[0] == a[0] && (a + b)[1..] == a[1..] + b;
      RoundsConcat(a[1..], b);
    }
  }

  lemma {:induction false} QuietRounds(sent: seq<Msg>)
    requires forall m :: m in sent ==> !m.Round?
    ensures Rounds(sent) == []
  {
    if sent != [] { QuietRounds(sent[1..]); }
  }

  lemma OneRound(m: Msg)
    requires m.Round?
    ensures Rounds([m]) == [m]
  {
    assert [m][1..] == [];
  }

  // ── the stop itself ───────────────────────────────────────────────────────

  /** An idle leader publishes as it stops; a driving one leaves that to its loop; a follower says
      nothing but its beat. */
  lemma StopSends(mc: Machine, r: Rank, now: real)
    ensures var o := DoStop(mc, r, now);
            && (Stopped(o.rank) <==> r.ready && !r.disposed) && o.rank.pc == r.pc && Unmoved(r, o.rank)
            && Rounds(o.sent) == if Leads(mc, Asked(r, now), now) && !Looping(r) then [RoundOf(mc, r, map[])] else []
  {
    hide Leads, Alive, Wire;
    var s := Asked(r, now).(running := false);
    var final, beat := RoundOf(mc, s, map[]), BeatOf(mc, s);
    OneRound(final);
    QuietRounds([beat]);
    RoundsConcat([final], [beat]);
    RoundsConcat([], [beat]);
    assert final == RoundOf(mc, r, map[]);
  }

  // ── one step of a stopped rank ────────────────────────────────────────────

  lemma NotRunningNotLeading(mc: Machine, r: Rank, now: real)
    requires !r.running
    ensures !Leads(mc, r, now) && Asked(r, now) == r
  {
  }

  /** A stopped rank's loop ends the next time its condition is looked at, and publishes. */
  lemma ExitPublishes(mc: Machine, r: Rank, now: real, pressure: bool)
    requires Stopped(r)
    ensures var o := LoopHead(mc, r, now, pressure);
            && Stopped(o.rank) && o.rank.pc.Idle? && Unmoved(r, o.rank) && o.sent == [RoundOf(mc, o.rank, map[])]
  {
    hide Leads, Alive, Wire;
    NotRunningNotLeading(mc, r, now);
  }

  lemma LateOpening(mc: Machine, r: Rank, now: real)
    requires Stopped(r)
    ensures var o := OpenRound(mc, r, now);
            && Stopped(o.rank) && o.rank.pc.OwnGrads? && |o.sent| == 1 && o.sent[0].Round? && Rounds(o.sent) == o.sent
  {
    hide NewDrive, Alive, Wire;
    OneRound(OpenRound(mc, r, now).sent[0]);
  }

  lemma StoppedMessage(mc: Machine, r: Rank, m: Msg, now: real)
    requires Stopped(r)
    ensures var o := OnMessage(mc, r, m, now);
            Stopped(o.rank) && Owed(o.rank) == Owed(r) && Rounds(o.sent) == []
  {
    hide Follows, Alive, Heard, Put;
    MessageShape(mc, r, m, now);
    QuietRounds(OnMessage(mc, r, m, now).sent);
  }

  lemma StoppedTick(mc: Machine, r: Rank, now: real, pressure: bool)
    requires Stopped(r)
    ensures var o := DoTick(mc, r, now, pressure);
            Stopped(o.rank) && o.rank.pc == r.pc && Rounds(o.sent) == []
  {
    hide Alive, PolicyFor, Loop, Leads;
    NotRunningNotLeading(mc, Retune(mc, r, now), now);
    QuietRounds([BeatOf(mc, Retune(mc, r, now))]);
    assert DoTick(mc, r, now, pressure).sent == [BeatOf(mc, Retune(mc, r, now))];
  }

  lemma StoppedStop(mc: Machine, r: Rank, now: real)
    requires Stopped(r)
    ensures var o := DoStop(mc, r, now); Stopped(o.rank) && o.rank.pc == r.pc && Rounds(o.sent) == []
  {
    hide Alive, Leads, Wire;
    NotRunningNotLeading(mc, r, now);
    StopSends(mc, r, now);
  }

  lemma StoppedFinish(mc: Machine, r: Rank, got: seq<Bucket>, now: real)
    requires Stopped(r)
    ensures Stopped(FinishRound(mc, r, got, now)) && FinishRound(mc, r, got, now).pc.Yielding?
  {
    hide Wire, Average, Alive;
  }

  lemma StoppedCollect(mc: Machine, r: Rank, now: real)
    requires Stopped(r) && r.pc.OwnGrads?
    ensures Stopped(Collect(mc, r, r.pc.drive, now)) && Owed(Collect(mc, r, r.pc.drive, now)) == 1
  {
    hide Collect, FinishRound, Put, OwnBucket;
    if |r.pc.drive.cohort| <= 1 {
      CollectAlone(mc, r, now);
      StoppedFinish(mc, r, Averaged(mc, r), now);
    } else {
      CollectShape(mc, r, now);
    }
  }

  /** Rounds sent and rounds still owed balance, and the last one is the publication: it carries
      no assignment and exactly what the rank holds as its loop ends. */
  lemma StoppedStep(mc: Machine, r: Rank, i: Input)
    requires Stopped(r) && Enabled(r, i.event) && !i.event.Start? && !i.event.Dispose?
    ensures var o := Step(mc, r, i);
            && Stopped(o.rank)
            && |Rounds(o.sent)| + Owed(o.rank) == Owed(r)
            && (Looping(r) && !Looping(o.rank) ==> Rounds(o.sent) == [RoundOf(mc, o.rank, map[])])
            && (Looping(r) && Looping(o.rank) && !r.pc.Pressure? ==> !o.rank.pc.Pressure?)
  {
    hide DoTick, DoStop, OnMessage, LoopHead, OpenRound, Collect, FinishRound, Alive, Contributed;
    assert Rounds([]) == [];
    match i.event
    case Deliver(m) => StoppedMessage(mc, r, m, i.now);
    case Tick => StoppedTick(mc, r, i.now, i.pressure);
    case Stop => StoppedStop(mc, r, i.now);
    case PressureResume => LateOpening(mc, r, i.now);
    case YieldResume =>
      ExitPublishes(mc, r, i.now, i.pressure);
      OneRound(RoundOf(mc, LoopHead(mc, r, i.now, i.pressure).rank, map[]));
    case OwnGradsDone => StoppedCollect(mc, r, i.now);
    case CollectResume => StoppedFinish(mc, r.(pending := None), r.pc.drive.got, i.now);
    case ContribDone => StoppedContribution(mc, r);
    case _ =>
  }

  lemma StoppedContribution(mc: Machine, r: Rank)
    requires Stopped(r) && r.contributing.Some?
    ensures var o := Contributed(mc, r); Stopped(o.rank) && o.rank.pc == r.pc && Rounds(o.sent) == []
  {
    hide Wire;
    QuietRounds(Contributed(mc, r).sent);
  }

  lemma StoppedFalls(mc: Machine, r: Rank, i: Input)
    requires Stopped(r) && Enabled(r, i.event) && !i.event.Start? && !i.event.Dispose?
    ensures Weight(Step(mc, r, i).rank.pc) <= Weight(r.pc)
    ensures Own(i.event) ==> Weight(Step(mc, r, i).rank.pc) < Weight(r.pc)
  {
    hide DoTick, DoStop, OnMessage, LoopHead, OpenRound, Collect, FinishRound, Alive, Contributed, Release;
    match i.event
    case Deliver(m) => MessageWeight(mc, r, m, i.now);
    case Tick => StoppedTick(mc, r, i.now, i.pressure);
    case Stop => StoppedStop(mc, r, i.now);
    case PressureResume => OpenWeight(mc, r, i.now);
    case YieldResume => ExitPublishes(mc, r, i.now, i.pressure);
    case OwnGradsDone => CollectWeight(mc, r, i.now);
    case CollectResume => FinishYields(mc, r.(pending := None), r.pc.drive.got, i.now);
    case ContribDone => StoppedContribution(mc, r);
    case _ =>
  }

  // ── the run after the stop ────────────────────────────────────────────────

  /** The rank as its loop ends. */
  ghost function Exit(mc: Machine, r: Rank, inputs: seq<Input>): Rank
    requires Trace(mc, r, inputs)
    decreases |inputs|
  {
    if inputs == [] || !Looping(r) then r else Exit(mc, Step(mc, r, inputs[0]).rank, inputs[1..])
  }

  /** While it loops, a rank adopts nothing: its term stays, and its parameters move only by
      completing the round in flight. */
  lemma LoopingTerm(mc: Machine, r: Rank, i: Input)
    requires Enabled(r, i.event) && Looping(r)
    ensures Step(mc, r, i).rank.term == r.term
  {
    hide Step, Enabled, Vouched, Quiet, Wire, Average, Averaged;
    ParametersMove(mc, r, i);
  }

  /** Once the loop has ended nothing more is published. */
  lemma {:induction false} NothingMore(mc: Machine, r: Rank, inputs: seq<Input>)
    requires Stopped(r) && !Looping(r) && Trace(mc, r, inputs) && StaysStopped(inputs)
    ensures Rounds(SentOver(mc, r, inputs)) == [] && !Looping(End(mc, r, inputs)) && Stopped(End(mc, r, inputs))
    decreases |inputs|
  {
    hide Step, Enabled, Stopped;
    if inputs != [] {
      var o := Step(mc, r, inputs[0]);
      StoppedStep(mc, r, inputs[0]);
      NothingMore(mc, o.rank, inputs[1..]);
      RoundsConcat(o.sent, SentOver(mc, o.rank, inputs[1..]));
    }
  }

  // ── the round in flight ───────────────────────────────────────────────────

  /** A round is driven, or about to be opened. */
  predicate InRound(r: Rank) {
    Driving(r) || r.pc.Pressure?
  }

  predicate Faulted(inputs: seq<Input>) {
    inputs != [] && (inputs[0].event.OwnGradsFault? || Faulted(inputs[1..]))
  }

  /** Some step of the run completes a round, and `e` holds what it applied. */
  ghost predicate Applied(mc: Machine, r: Rank, inputs: seq<Input>, e: Rank)
    requires Trace(mc, r, inputs)
    decreases |inputs|
  {
    inputs != [] &&
    var s := Step(mc, r, inputs[0]).rank;
    (Completed(mc, r, s) && e.params == s.params && e.step == s.step) || Applied(mc, s, inputs[1..], e)
  }

  lemma MessageInRound(mc: Machine, r: Rank, m: Msg, now: real)
    requires Looping(r)
    ensures InRound(OnMessage(mc, r, m, now).rank) == InRound(r)
  {
    hide Follows, Alive, Heard, Put;
  }

  lemma CollectInRound(mc: Machine, r: Rank, now: real)
    requires r.pc.OwnGrads?
    ensures var s := Collect(mc, r, r.pc.drive, now); InRound(s) || Completed(mc, r, s)
  {
    hide Collect, Put, OwnBucket, FinishRound, Completed;
    if |r.pc.drive.cohort| <= 1 {
      CollectAlone(mc, r, now);
      FinishShape(mc, r, r, Averaged(mc, r), now);
    } else {
      CollectShape(mc, r, now);
    }
  }

  lemma CompletedYields(mc: Machine, r: Rank, s: Rank)
    requires Completed(mc, r, s)
    ensures InRound(r) && !InRound(s) && Looping(s) && s.step == r.step + 1
  {
    hide Wire, Average, Averaged;
  }

  /** A stopped rank stays in its round until it completes it or its own gradients fail, and
      otherwise nothing moves. */
  lemma StoppedRound(mc: Machine, r: Rank, i: Input)
    requires Stopped(r) && Looping(r) && Enabled(r, i.event) && !i.event.Start? && !i.event.Dispose?
    ensures var s := Step(mc, r, i).rank;
            && (Unmoved(r, s) || Completed(mc, r, s))
            && (InRound(s) <==> InRound(r) && !Completed(mc, r, s) && !i.event.OwnGradsFault?)
            && (i.event.OwnGradsFault? ==> !Completed(mc, r, s))
  {
    hide DoTick, DoStop, OnMessage, LoopHead, OpenRound, Collect, FinishRound, Alive, Contributed, Completed, Vouched,
         Quiet;
    ParametersMove(mc, r, i);
    if Completed(mc, r, Step(mc, r, i).rank) {
      CompletedYields(mc, r, Step(mc, r, i).rank);
    }
    match i.event
    case Deliver(m) => MessageInRound(mc, r, m, i.now);
    case Tick => StoppedTick(mc, r, i.now, i.pressure);
    case Stop => StoppedStop(mc, r, i.now);
    case PressureResume => OpenWeight(mc, r, i.now);
    case YieldResume => ExitPublishes(mc, r, i.now, i.pressure);
    case OwnGradsDone => CollectInRound(mc, r, i.now);
    case CollectResume => FinishShape(mc, r, r.(pending := None), r.pc.drive.got, i.now);
    case ContribDone => StoppedContribution(mc, r);
    case OwnGradsFault => FaultIncomplete(mc, r, i.now);
    case _ =>
  }

  lemma FaultIncomplete(mc: Machine, r: Rank, now: real)
    ensures !Completed(mc, r, FailRound(r, now))
  {
    hide Wire, Average, Averaged;
    FaultBacksOff(r, now);
  }

  /** Out of its round, a stopped rank never opens another: nothing moves until its loop ends. */
  lemma {:induction false} NoMoreRounds(mc: Machine, r: Rank, inputs: seq<Input>)
    requires Stopped(r) && !InRound(r) && Trace(mc, r, inputs) && StaysStopped(inputs)
    ensures !Faulted(inputs) && Unmoved(r, Exit(mc, r, inputs))
    decreases |inputs|
  {
    hide Step, Stopped, Completed;
    if inputs != [] {
      StoppedStep(mc, r, inputs[0]);
      if Looping(r) {
        StoppedRound(mc, r, inputs[0]);
        if Completed(mc, r, Step(mc, r, inputs[0]).rank) { CompletedYields(mc, r, Step(mc, r, inputs[0]).rank); }
      }
      NoMoreRounds(mc, Step(mc, r, inputs[0]).rank, inputs[1..]);
    }
  }

  /** What the publication carries: with a round in flight and no fault of its own gradients, exactly
      what completing that round applied, one step on; otherwise exactly what the rank held as it
      was stopped, the round abandoned if there was one. */
  lemma {:induction false} RoundInFlight(mc: Machine, r: Rank, inputs: seq<Input>)
    requires Stopped(r) && Looping(r) && Trace(mc, r, inputs) && StaysStopped(inputs) && !Looping(End(mc, r, inputs))
    ensures var e := Exit(mc, r, inputs);
            if InRound(r) && !Faulted(inputs) then Applied(mc, r, inputs, e) && e.step == r.step + 1 else Unmoved(r, e)
    decreases |inputs|
  {
    hide Step, Enabled, Stopped, Completed;
    if InRound(r) {
      var s := Step(mc, r, inputs[0]).rank;
      StoppedStep(mc, r, inputs[0]);
      StoppedRound(mc, r, inputs[0]);
      if InRound(s) {
        RoundInFlight(mc, s, inputs[1..]);
      } else {
        NoMoreRounds(mc, s, inputs[1..]);
        if Completed(mc, r, s) { CompletedYields(mc, r, s); }
      }
    } else {
      NoMoreRounds(mc, r, inputs);
    }
  }

  lemma {:induction false} AppliedCanonical(mc: Machine, r: Rank, inputs: seq<Input>, e: Rank)
    requires Trace(mc, r, inputs) && Applied(mc, r, inputs, e)
    ensures Wire(mc, e.params) == e.params
    decreases |inputs|
  {
    hide Step, Enabled, Wire, Completed;
    var s := Step(mc, r, inputs[0]).rank;
    if Completed(mc, r, s) && e.params == s.params {
      CompletedCanonical(mc, r, s);
    } else {
      AppliedCanonical(mc, s, inputs[1..], e);
    }
  }

  /** Final publication. A stopped leader that stays stopped publishes one assignment-free round, as
      its loop ends, of exactly what it holds then, which `RoundInFlight` says; nothing follows it.
      Only a stop during the transport wait lets one more round out before it. */
  lemma {:induction false} FinalPublication(mc: Machine, r: Rank, inputs: seq<Input>)
    requires Stopped(r) && Looping(r) && Trace(mc, r, inputs) && StaysStopped(inputs) && !Looping(End(mc, r, inputs))
    ensures var rounds, e := Rounds(SentOver(mc, r, inputs)), Exit(mc, r, inputs);
            && |rounds| == Owed(r)
            && rounds[|rounds| - 1] == RoundOf(mc, e, map[]) && e.term == r.term
    ensures !r.pc.Pressure? ==> Rounds(SentOver(mc, r, inputs)) == [RoundOf(mc, Exit(mc, r, inputs), map[])]
    decreases |inputs|
  {
    hide Step, Enabled, Stopped, RoundOf;
    var o := Step(mc, r, inputs[0]);
    StoppedStep(mc, r, inputs[0]);
    LoopingTerm(mc, r, inputs[0]);
    var later := SentOver(mc, o.rank, inputs[1..]);
    RoundsConcat(o.sent, later);
    if Looping(o.rank) {
      FinalPublication(mc, o.rank, inputs[1..]);
    } else {
      NothingMore(mc, o.rank, inputs[1..]);
      ExitHere(mc, o.rank, inputs[1..]);
    }
  }

  lemma ExitHere(mc: Machine, r: Rank, inputs: seq<Input>)
    requires Trace(mc, r, inputs) && !Looping(r)
    ensures Exit(mc, r, inputs) == r
  {
  }

  /** And the loop does end: after at most `Weight` resumptions of its own, whatever else happens. */
  lemma {:induction false} StoppedLoopEnds(mc: Machine, r: Rank, inputs: seq<Input>)
    requires Stopped(r) && Trace(mc, r, inputs) && StaysStopped(inputs)
    ensures Weight(End(mc, r, inputs).pc) + Resumptions(inputs) <= Weight(r.pc)
    ensures Resumptions(inputs) >= Weight(r.pc) ==> !Looping(End(mc, r, inputs))
    decreases |inputs|
  {
    hide Step, Enabled, Stopped;
    if inputs != [] {
      StoppedStep(mc, r, inputs[0]);
      StoppedFalls(mc, r, inputs[0]);
      StoppedLoopEnds(mc, Step(mc, r, inputs[0]).rank, inputs[1..]);
    }
  }

  /** Whoever adopts a publication holds what its sender does, as the wire delivers it, at its step,
      and is asked for nothing more. */
  lemma PublicationAdopted(mc: Machine, leader: Machine, e: Rank, r: Rank, now: real)
    ensures var m := RoundOf(leader, e, map[]);
            var s := OnMessage(mc, r, m, now).rank;
            s.term == r.term + 1 ==>
              s.params == Wire(leader, e.params) && s.step == e.step && s.contributing == r.contributing
  {
    hide Follows, Alive, Heard, Wire;
    MessageShape(mc, r, RoundOf(leader, e, map[]), now);
  }

  /** The final model: from the stop of a leader with a round in flight, over any run without a
      fault of its own gradients, its last round is that publication, and any rank that adopts it
      holds the leader's own final parameters, the flight's update applied, bit for bit. */
  lemma FinalModel(leader: Machine, r: Rank, inputs: seq<Input>, mc: Machine, peer: Rank, now: real)
    requires Stopped(r) && InRound(r) && Trace(leader, r, inputs) && StaysStopped(inputs) &&
             !Looping(End(leader, r, inputs))
    requires !Faulted(inputs)
    ensures var e, rounds := Exit(leader, r, inputs), Rounds(SentOver(leader, r, inputs));
            && rounds != [] && e.step == r.step + 1 && Applied(leader, r, inputs, e)
            && var s := OnMessage(mc, peer, rounds[|rounds| - 1], now).rank;
               s.term == peer.term + 1 ==>
                 s.params == e.params && s.step == e.step && s.contributing == peer.contributing
  {
    hide Stopped, Rounds, OnMessage, Wire, End, Exit, Applied, StaysStopped, Faulted, RoundOf;
    var e := Exit(leader, r, inputs);
    FinalPublication(leader, r, inputs);
    RoundInFlight(leader, r, inputs);
    AppliedCanonical(leader, r, inputs, e);
    PublicationAdopted(mc, leader, e, peer, now);
  }

  // ── what neither a stand-down nor a disposal prevents ─────────────────────

  /** A rival that stood down and is then stopped, its loop still alive, publishes like any other:
      the last round it sends is the assignment-free one of what it holds as its loop ends. */
  lemma StoodDownPublishes(mc: Machine, r: Rank, m: Msg, now: real, inputs: seq<Input>)
    requires Valid(mc, r) && Looping(r) && r.ready && !r.disposed && m.Round? && m.from < mc.id
    requires var s := DoStop(mc, OnMessage(mc, r, m, now).rank, now).rank;
             Trace(mc, s, inputs) && StaysStopped(inputs) && !Looping(End(mc, s, inputs))
    ensures var s := DoStop(mc, OnMessage(mc, r, m, now).rank, now).rank;
            && Stopped(s) && Looping(s) && s.deferUntil == now + mc.timing.takeover
            && var rounds := Rounds(SentOver(mc, s, inputs));
               rounds != [] && rounds[|rounds| - 1] == RoundOf(mc, Exit(mc, s, inputs), map[])
  {
    hide OnMessage, DoStop, End, Exit, SentOver, RoundOf, StaysStopped, DriveValid;
    var d := OnMessage(mc, r, m, now).rank;
    RivalStandsDown(mc, r, m, now);
    StoodDown(mc, r, m, now);
    StopSends(mc, d, now);
    StopDefers(mc, d, now);
    FinalPublication(mc, DoStop(mc, d, now).rank, inputs);
  }

  lemma StoodDown(mc: Machine, r: Rank, m: Msg, now: real)
    requires Looping(r) && !r.disposed && m.Round? && m.from < mc.id
    ensures var d := OnMessage(mc, r, m, now).rank; Looping(d) && d.ready == r.ready && !d.disposed
  {
    hide Follows, Alive, Heard, Put;
  }

  lemma StopDefers(mc: Machine, r: Rank, now: real)
    ensures DoStop(mc, r, now).rank.deferUntil == r.deferUntil
  {
    hide Leads, Alive, RoundOf;
  }

  /** A bucket under way when its rank is disposed is sent all the same. */
  lemma DisposedContributes(mc: Machine, r: Rank, now: real, later: real)
    requires r.contributing.Some? && r.contributing.value.step == r.step
    ensures var s := Step(mc, r, Input(Dispose, now, false)).rank;
            && s.disposed && Enabled(s, ContribDone)
            && Step(mc, s, Input(ContribDone, later, false)).sent == [GradOf(mc, r.contributing.value)]
  {
    hide GradOf;
    ReleaseWork(r);
  }
}
