/** The rank as the object it is: fields updated in place by handlers, timers and the resumptions
    of its loop, each step proved to be the step of Protocol. */
module RankObject {
  import opened Wrappers
  import opened Reduce
  import opened Policy
  import opened Protocol
  import RankSafety

  /** Which `await` of `loop` or `driveRound` is pending. */
  datatype Await = Nothing | Transport(waited: nat) | Gradients | Buckets | Retry | Queue

  /** `new Set(ids)`. */
  function Elements(ids: seq<Id>): set<Id> {
    set k | k in ids
  }

  /** What `pending` is once a round over `d` is installed; a round alone installs nothing. */
  ghost function Collection(r: Rank, d: Drive): Option<Pending> {
    if |d.cohort| > 1 then Some(Pending(r.step, Elements(d.cohort), MinNat(|d.cohort|, r.policy.quorum),
        false)) else r.pending
  }

  // ── the arithmetic of a round ─────────────────────────────────────────────

  /** The batches other than the leader's own. */
  function Others(ids: seq<Id>, batches: map<Id, nat>, id: Id, n: nat): nat
    requires n <= |ids|
  {
    if n == 0 then 0
    else Others(ids, batches, id, n - 1) + if ids[n - 1] == id then 0 else Size(batches, ids[n - 1])
  }

  lemma {:induction false} OthersSum(ids: seq<Id>, batches: map<Id, nat>, id: Id, n: nat)
    requires n <= |ids| && Distinct(ids)
    ensures Others(ids, batches, id, n) + (if id in ids[..n] then Size(batches, id) else 0) == Offset(ids, batches, n)
  {
    if n > 0 {
      OthersSum(ids, batches, id, n - 1);
      assert ids[..n] == ids[..n - 1] + [ids[n - 1]];
    }
  }

  /** The whole round's samples: the leader's own batch, then everyone else's. */
  method TotalOf(id: Id, ids: seq<Id>, batches: map<Id, nat>) returns (total: nat)
    requires Distinct(ids)
    ensures total == RoundSize(id, ids, batches)
  {
    total := Size(batches, id);
    for i := 0 to |ids|
      invariant total == Size(batches, id) + Others(ids, batches, id, i)
    {
      if ids[i] != id { total := total + Size(batches, ids[i]); }
    }
    OthersSum(ids, batches, id, |ids|);
    assert ids[..|ids|] == ids;
  }

  /** Consecutive windows, from the step's first sample on. */
  method AssignWindows(ids: seq<Id>, batches: map<Id, nat>, step: nat, total: nat) returns (assign: map<Id, nat>)
    ensures assign == Assign(ids, batches, Base(step, total), |ids|)
  {
    assign := map[];
    var offset := 0;
    for i := 0 to |ids|
      invariant offset == Offset(ids, batches, i)
      invariant assign == Assign(ids, batches, Base(step, total), i)
    {
      assign := assign[ids[i] := (Base(step, total) + offset) % Word];
      offset := offset + Size(batches, ids[i]);
    }
  }

  /** Add one bucket's share to the running mean. */
  method AddShare(avg: array<real>, e: Bucket, w: real)
    modifies avg
    ensures forall i :: 0 <= i < avg.Length ==> avg[i] == old(avg[i]) + w * At(e.g, i)
  {
    for i := 0 to avg.Length
      invariant forall j :: 0 <= j < i ==> avg[j] == old(avg[j]) + w * At(e.g, j)
      invariant forall j :: i <= j < avg.Length ==> avg[j] == old(avg[j])
    {
      avg[i] := avg[i] + w * At(e.g, i);
    }
  }

  /** The sample-weighted mean of the collected buckets. */
  method AverageBuckets(got: seq<Bucket>, length: nat) returns (avg: array<real>)
    ensures fresh(avg) && avg[..] == Average(got, length)
  {
    hide At, Share;
    var samples := 0;
    for j := 0 to |got|
      invariant samples == Samples(got[..j])
    {
      assert got[..j + 1][..j] == got[..j];
      samples := samples + got[j].samples;
    }
    assert got[..|got|] == got;
    avg := new real[length](_ => 0.0);
    for j := 0 to |got|
      invariant avg.Length == length
      invariant forall i :: 0 <= i < length ==> avg[i] == Blend(got[..j], samples, i)
    {
      assert got[..j + 1][..j] == got[..j];
      AddShare(avg, got[j], Share(got[j].samples, samples));
    }
  }

  // ── walking the roster ────────────────────────────────────────────────────

  predicate Eligible(members: map<Id, Member>, k: Id) {
    k in members && members[k].ready && members[k].running
  }

  /** Every eligible member, added to `own`. */
  method Gather(members: map<Id, Member>, own: set<Id>) returns (found: set<Id>)
    ensures forall k :: k in found <==> k in own || Eligible(members, k)
  {
    found := own;
    var todo := members.Keys;
    while todo != {}
      invariant todo <= members.Keys
      invariant forall k :: k in found <==> k in own || (k !in todo && Eligible(members, k))
      decreases |todo|
    {
      var k :| k in todo;
      todo := todo - {k};
      if members[k].ready && members[k].running { found := found + {k}; }
    }
  }

  /** The lowest of the eligible members and `own`. */
  method LowestEligible(members: map<Id, Member>, own: Option<Id>) returns (best: Option<Id>)
    ensures best.None? <==> own.None? && forall k :: !Eligible(members, k)
    ensures best.Some? ==> best == own || Eligible(members, best.value)
    ensures best.Some? ==> (own.Some? ==> best.value <= own.value) && forall k :: Eligible(members, k) ==>
            best.value <= k
  {
    best := own;
    var todo := members.Keys;
    while todo != {}
      invariant todo <= members.Keys
      invariant best.None? <==> own.None? && forall k :: k !in todo ==> !Eligible(members, k)
      invariant best.Some? ==> best == own || Eligible(members, best.value)
      invariant best.Some? && own.Some? ==> best.value <= own.value
      invariant best.Some? ==> forall k :: k !in todo && Eligible(members, k) ==> best.value <= k
      decreases |todo|
    {
      var k :| k in todo;
      todo := todo - {k};
      if members[k].ready && members[k].running && (best.None? || k < best.value) { best := Some(k); }
    }
  }

  /** The batch of every rank of a cohort: its own, and each member's as last announced. */
  method BatchesFor(mc: Machine, members: map<Id, Member>, ids: seq<Id>) returns (b: map<Id, nat>)
    ensures b == Batches(mc, members, Elements(ids))
  {
    b := map[mc.id := mc.batch];
    for i := 0 to |ids|
      invariant b.Keys == Elements(ids[..i]) + {mc.id}
      invariant forall k :: k in b ==> b[k] == BatchOf(mc, members, k)
    {
      var k := ids[i];
      if k != mc.id {
        b := b[k := if k in members && members[k].batch.Some? then members[k].batch.value else mc.batch];
      }
      assert ids[..i + 1] == ids[..i] + [ids[i]];
    }
    assert ids[..|ids|] == ids;
  }

  /** Batches and windows of the next round of a rank `r`. */
  method PlanRound(mc: Machine, ghost r: Rank, ids: seq<Id>, members: map<Id, Member>, step: nat) returns (d: Drive)
    requires ids == Sorted(Cohort(mc, r)) && members == r.members && step == r.step
    ensures d == NewDrive(mc, r)
  {
    hide Cohort, Batches, Assign, RoundSize, Base, NewDrive, Offset;
    assert Elements(ids) == Cohort(mc, r);
    var b := BatchesFor(mc, members, ids);
    SortedDistinct(ids);
    var total := TotalOf(mc.id, ids, b);
    var windows := AssignWindows(ids, b, step, total);
    d := Drive(ids, b, windows, [], false);
    PlannedDrive(mc, r);
  }

  // ── the object ────────────────────────────────────────────────────────────

  class RankObject {
    const mc: Machine

    var running: bool
    var ready: bool
    var step: nat
    var lr: real
    var looping: bool
    var pending: Option<Pending>
    var lastOpen: real
    var joining: Option<nat>
    var disposed: bool
    var contributing: Option<Work>
    var roundsFrom: Option<Id>
    var deferUntil: real
    var members: map<Id, Member>
    var policy: Policy

    // the backend's parameters, and everything handed to the bus
    var params: Params
    var sent: seq<Msg>

    // where the loop is suspended, and the local variables of `driveRound`
    var wait: Await
    var drive: Drive

    // history, read by no branch
    var term: nat
    var origin: Option<Origin>

    /** `looping` is set exactly while an `await` of the loop is pending. */
    ghost predicate Consistent()
      reads this
    {
      looping <==> wait != Nothing
    }

    /** Between turns the object is a rank that every safety theorem is about. */
    ghost predicate Valid()
      reads this
    {
      Consistent() && RankSafety.Valid(mc, State())
    }

    ghost function Suspended(): Pc
      reads this
    {
      match wait
      case Nothing => Idle
      case Transport(waited) => Pressure(waited)
      case Gradients => OwnGrads(drive)
      case Buckets => Collecting(drive)
      case Retry => Backoff
      case Queue => Yielding
    }

    ghost function State(): Rank
      reads this
    {
      Rank(running, ready, step, lr, params, Suspended(), pending, lastOpen, joining, disposed,
                contributing, roundsFrom, deferUntil, members, policy, term, origin)
    }

    constructor (mc: Machine, params: Params)
      ensures this.mc == mc && Valid() && State() == Init(mc, params) && sent == []
    {
      this.mc := mc;
      running, ready, step, lr, looping := false, false, 0, 0.05, false;
      pending, lastOpen, joining, disposed := None, 0.0, None, false;
      contributing, roundsFrom, deferUntil := None, None, 0.0;
      members, policy := map[], PolicyFor(1, mc.timing);
      this.params, sent, wait := params, [], Nothing;
      drive := Drive([], map[], map[], [], false);
      term, origin := 0, None;
    }

    /** `live`: forget every member silent for longer than the drop time. */
    method Prune(now: real)
      modifies this`members
      ensures State() == Live(old(State()), now)
    {
      ghost var was := members;
      var todo := members.Keys;
      while todo != {}
        invariant todo <= members.Keys <= was.Keys
        invariant forall k :: k in was ==> (k in members <==> k in todo || now - was[k].seen <= policy.drop)
        invariant forall k :: k in members ==> members[k] == was[k]
        decreases |todo|
      {
        var k :| k in todo;
        todo := todo - {k};
        if now - members[k].seen > policy.drop { members := members - {k}; }
      }
      assert members == Live(old(State()), now).members;
    }

    /** `cohortIds`. */
    method CohortIds(now: real) returns (ids: seq<Id>)
      modifies this`members
      ensures State() == Live(old(State()), now)
      ensures ids == Sorted(Cohort(mc, State()))
    {
      var own: set<Id> := if running && ready then {mc.id} else {};
      Prune(now);
      var found := Gather(members, own);
      assert found == Cohort(mc, State());
      ids := Sorted(found);
    }

    /** `leaderId`: the lowest live id that is ready and running. */
    method LeaderId(now: real) returns (best: Option<Id>)
      modifies this`members
      ensures State() == Live(old(State()), now)
      ensures best == LeaderOf(mc, State())
    {
      hide Live, Sorted;
      best := if running && ready then Some(mc.id) else None;
      ghost var own := best;
      Prune(now);
      LiveFields(old(State()), now);
      best := LowestEligible(members, best);
      CohortMembers(mc, State());
      assert best.Some? ==> best.value in Cohort(mc, State());
    }

    /** `running && ready && isLeader()`. */
    method IsLeader(now: real) returns (leader: bool)
      modifies this`members
      ensures State() == Asked(old(State()), now)
      ensures leader == Leads(mc, State(), now)
    {
      if !running || !ready { return false; }
      var best := LeaderId(now);
      leader := best == Some(mc.id) && now >= deferUntil;
    }

    method Send(m: Msg)
      modifies this`sent
      ensures sent == old(sent) + [m] && State() == old(State())
    {
      sent := sent + [m];
    }

    method Announce()
      modifies this`sent
      ensures sent == old(sent) + [HelloOf(mc, State())] && State() == old(State())
    {
      Send(Hello(mc.id, mc.batch, ready, running));
    }

    method SendBeat()
      modifies this`sent
      ensures sent == old(sent) + [BeatOf(mc, State())] && State() == old(State())
    {
      Send(Beat(mc.id, mc.batch, ready, running));
    }

    // ── driveRound, between its awaits ──────────────────────────────────────

    /** The cohort as it is now, with its batches and windows. */
    method Plan(now: real) returns (d: Drive)
      modifies this`members
      ensures State() == Live(old(State()), now) && d == NewDrive(mc, Live(old(State()), now))
      ensures Elements(d.cohort) == Cohort(mc, Live(old(State()), now))
    {
      hide NewDrive, Live, Cohort, Sorted;
      var ids := CohortIds(now);
      d := PlanRound(mc, State(), ids, members, step);
      PlannedCohort(mc, State());
    }

    /** The collection, installed before the round is announced. */
    method Install(d: Drive)
      modifies this`pending
      ensures State() == old(State()).(pending := Collection(old(State()), d))
    {
      if |d.cohort| > 1 {
        pending := Some(Pending(step, Elements(d.cohort), MinNat(|d.cohort|, policy.quorum), false));
      }
    }

    method SendRound(windows: map<Id, nat>)
      modifies this`sent
      ensures sent == old(sent) + [RoundOf(mc, State(), windows)] && State() == old(State())
    {
      Send(Round(mc.id, step, lr, windows, Wire(mc, params), term));
    }

    /** Suspend on `await rank.grads`. */
    method AwaitGradients(d: Drive, now: real)
      modifies this`lastOpen, this`drive, this`wait, this`looping
      ensures Consistent() && State() == old(State()).(pc := OwnGrads(d), lastOpen := now)
    {
      lastOpen := now;
      drive, wait, looping := d, Gradients, true;
    }

    /** Up to `await rank.grads`: the cohort, its windows, the collection, the announcement. */
    method DriveRound(now: real)
      modifies this
      ensures Consistent() && State() == OpenRound(mc, old(State()), now).rank
      ensures sent == old(sent) + OpenRound(mc, old(State()), now).sent
    {
      hide State, NewDrive, Live, Collection, Wire, Cohort, OpenRound;
      var d := Plan(now);
      Install(d);
      SendRound(d.assign);
      AwaitGradients(d, now);
      OpenRoundFrom(mc, old(State()), now);
    }

    /** `got.set`: one bucket more, or a newer one from the same rank. */
    method Take(e: Bucket)
      requires wait == Gradients || wait == Buckets
      modifies this`drive
      ensures drive == old(drive).(got := Put(old(drive).got, e))
      ensures State() == old(State()).(pc := WithGot(old(Suspended()), Put(old(drive).got, e)))
    {
      drive := drive.(got := Put(drive.got, e));
    }

    /** Own gradients in: resolve if the quorum is met, else arm the timer, and wait. */
    method AwaitBuckets()
      requires wait == Gradients && looping
      modifies this`drive, this`pending, this`wait
      ensures Consistent() && State() == Awaiting(old(State()), old(drive))
    {
      if pending.Some? {
        if |drive.got| >= pending.value.quorum {
          drive := drive.(settled := true);
        } else {
          pending := Some(pending.value.(timer := true));
        }
      }
      wait := Buckets;
    }

    method OnOwnGradients(now: real)
      requires Consistent() && wait == Gradients
      modifies this
      ensures Consistent() && State() == Collect(mc, old(State()), old(drive), now)
      ensures sent == old(sent)
    {
      hide Put, FinishRound, Collect, WithGot, Awaiting;
      var start := StartOf(drive.assign, mc.id);
      var mine := mc.grads(params, start);
      CollectFrom(mc, State(), drive, now);
      Take(Bucket(mc.id, mc.batch, mine, start, term));
      if |drive.cohort| > 1 {
        AwaitBuckets();
      } else {
        CompleteRound(drive.got, now);
      }
    }

    /** Everything the completed round changes at once. */
    method Advance(p: Params)
      modifies this`params, this`step, this`wait, this`looping, this`origin
      ensures Consistent() && State() == old(State()).(params := p, step := old(step) + 1, pc := Yielding,
                origin := None)
    {
      params := p;
      step := step + 1;
      wait, looping, origin := Queue, true, None;
    }

    /** Average, apply, adopt what the wire makes of the result, advance. */
    method CompleteRound(buckets: seq<Bucket>, now: real)
      modifies this
      ensures Consistent() && State() == FinishRound(mc, old(State()), buckets, now) && sent == old(sent)
    {
      hide Live, Average, Wire;
      var avg := AverageBuckets(buckets, mc.bucketLen);
      Advance(Wire(mc, mc.apply(params, avg[..], lr)));
      Prune(now);
    }

    /** The promise is resolved: close the collection and finish. */
    method OnCollected(now: real)
      requires Consistent() && wait == Buckets
      modifies this
      ensures Consistent() && State() == FinishRound(mc, old(State()).(pending := None), old(drive).got, now)
      ensures sent == old(sent)
    {
      hide Live, Average, Wire;
      pending := None;
      CompleteRound(drive.got, now);
    }

    /** The collect timer. */
    method OnCollectTimer()
      requires wait == Buckets
      modifies this`drive
      ensures State() == old(State()).(pc := Settled(old(Suspended())))
    {
      drive := drive.(settled := true);
    }

    /** Give the collection up: clear its timer, resolve its promise, drop it. */
    method ReleaseCollection()
      modifies this`pending, this`drive
      ensures State() == Release(old(State()))
    {
      if pending.Some? {
        if wait == Gradients || wait == Buckets { drive := drive.(settled := true); }
        pending := None;
      }
    }

    /** The round failed: release, surface it, back off. */
    method OnFault(now: real)
      requires Consistent() && wait == Gradients
      modifies this
      ensures Consistent() && State() == FailRound(old(State()), now) && sent == old(sent)
    {
      hide Live, Settled;
      ReleaseCollection();
      BackOff();
      Prune(now);
    }

    method BackOff()
      modifies this`wait, this`looping
      ensures Consistent() && State() == old(State()).(pc := Backoff)
    {
      wait, looping := Retry, true;
    }

    // ── the loop ────────────────────────────────────────────────────────────

    /** `publish`: the current parameters, with nobody asked to compute. */
    method SendFinal(now: real)
      modifies this`members, this`sent
      ensures State() == Publish(mc, old(State()), now).rank
      ensures sent == old(sent) + Publish(mc, old(State()), now).sent
    {
      hide State, Live, RoundOf;
      Prune(now);
      SendRound(map[]);
    }

    method AwaitTransport(waited: nat)
      modifies this`wait, this`looping
      ensures Consistent() && State() == old(State()).(pc := Pressure(waited))
    {
      wait, looping := Transport(waited), true;
    }

    method EndLoop()
      modifies this`wait, this`looping
      ensures Consistent() && State() == old(State()).(pc := Idle)
    {
      wait, looping := Nothing, false;
    }

    /** The loop condition, and what follows it up to the next `await`. */
    method RunLoop(now: real, pressure: bool)
      modifies this
      ensures Consistent() && State() == LoopHead(mc, old(State()), now, pressure).rank
      ensures sent == old(sent) + LoopHead(mc, old(State()), now, pressure).sent
    {
      hide Live, OpenRound, Publish, Asked, Leads;
      var leader := IsLeader(now);
      if leader && !disposed {
        if pressure { AwaitTransport(0); } else { DriveRound(now); }
      } else {
        EndLoop();
        if !running && ready && !disposed { SendFinal(now); }
      }
    }

    /** `loop`: at most one at a time. */
    method StartLoop(now: real, pressure: bool)
      requires Consistent()
      modifies this
      ensures Consistent() && State() == Loop(mc, old(State()), now, pressure).rank
      ensures sent == old(sent) + Loop(mc, old(State()), now, pressure).sent
    {
      hide LoopHead;
      if looping || disposed { return; }
      RunLoop(now, pressure);
    }

    /** The transport wait ends or goes on, for at most twenty beats. */
    method OnTransport(now: real, pressure: bool)
      requires Consistent() && wait.Transport?
      modifies this
      ensures var o := Step(mc, old(State()), Input(PressureResume, now, pressure));
              Consistent() && State() == o.rank && sent == old(sent) + o.sent
    {
      hide OpenRound;
      if wait.waited + 1 < 20 && pressure {
        AwaitTransport(wait.waited + 1);
      } else {
        DriveRound(now);
      }
    }

    method OnBackoff()
      requires Consistent() && wait == Retry
      modifies this`wait
      ensures Consistent() && State() == old(State()).(pc := Yielding)
    {
      wait := Queue;
    }

    // ── messages ────────────────────────────────────────────────────────────

    /** Merge what a message says about its sender into the roster. */
    method Hear(m: Msg, now: real)
      modifies this`members
      ensures State() == old(State()).(members := old(members)[m.from := Heard(old(State()), m, now)])
    {
      var peer := if m.from in members then members[m.from] else Member(now, None, false, false);
      if m.Hello? || m.Beat? {
        peer := Member(now, Some(m.batch), m.ready, m.running);
      } else {
        peer := peer.(seen := now);
      }
      members := members[m.from := peer];
    }

    method Receive(m: Msg, now: real)
      requires Consistent()
      modifies this
      ensures var o := OnMessage(mc, old(State()), m, now);
              Consistent() && State() == o.rank && sent == old(sent) + o.sent
    {
      hide Heard, OnRound, OnGrad;
      if disposed || m.from == mc.id || (m.Grad? && m.to != mc.id) { return; }
      Hear(m, now);
      if m.Hello? {
        SendBeat();
      } else if m.Round? {
        lastOpen := now;
        ReceiveRound(m, now);
      } else if m.Grad? {
        ReceiveGrad(m);
      }
    }

    method ReceiveRound(m: Msg, now: real)
      requires Consistent() && m.Round?
      modifies this
      ensures var o := OnRound(mc, old(State()), m, now);
              Consistent() && State() == o.rank && sent == old(sent) + o.sent
    {
      hide Live, StandDown, Protocol.Adopt, LeaderOf, Contribute;
      if looping || pending.Some? {
        if m.from < mc.id { StepAside(now); }
        return;
      }
      var lead := LeaderId(now);
      if lead.Some? && m.from > lead.value { return; }
      if roundsFrom == Some(m.from) && m.step < step { return; }
      roundsFrom := Some(m.from);
      TakeParameters(m, now);
      if running && mc.id in m.assign { BeginContribution(m); }
    }

    method SetParameters(m: Msg)
      requires m.Round?
      modifies this`params, this`step, this`term, this`origin
      ensures State() == old(State()).(params := m.params, step := m.step, term := old(term) + 1,
                origin := Some(Origin(m.from, m.term)))
    {
      params, step := m.params, m.step;
      term, origin := term + 1, Some(Origin(m.from, m.term));
    }

    /** Holding the cohort's parameters, a rank is ready and has joined. */
    method MarkReady()
      modifies this`ready, this`joining
      ensures State() == Promoted(old(State()))
    {
      ready, joining := true, None;
    }

    /** `adopt`. */
    method TakeParameters(m: Msg, now: real)
      requires Consistent() && m.Round?
      modifies this`params, this`step, this`term, this`origin, this`ready, this`joining, this`members
      ensures Consistent() && State() == Adopt(old(State()), m, now)
    {
      hide Live;
      SetParameters(m);
      MarkReady();
      Prune(now);
    }

    /** `standDown`. */
    method StepAside(now: real)
      requires Consistent()
      modifies this
      ensures var o := StandDown(mc, old(State()), now);
              Consistent() && State() == o.rank && sent == old(sent) + o.sent
    {
      hide Live, Release;
      ReleaseCollection();
      deferUntil := now + mc.timing.takeover;
      Announce();
      Prune(now);
    }

    method ReceiveGrad(m: Msg)
      requires Consistent() && m.Grad?
      modifies this`drive
      ensures Consistent() && State() == OnGrad(old(State()), m)
    {
      if pending.Some? && m.step == pending.value.step && m.from in pending.value.want &&
        (wait == Gradients || wait == Buckets) {
        var got := Put(drive.got, Bucket(m.from, m.samples, m.g, Some(m.start), m.term));
        drive := drive.(got := got, settled := drive.settled || |got| >= pending.value.quorum);
      }
    }

    method BeginContribution(m: Msg)
      requires Consistent() && m.Round? && mc.id in m.assign
      modifies this`contributing
      ensures Consistent() && State() == Contribute(mc, old(State()), m)
    {
      if contributing.None? {
        contributing := Some(Work(m.from, m.step, m.assign[mc.id], params, m.term));
      }
    }

    /** The bucket is computed: send it unless a newer round has arrived. */
    method OnContribution()
      requires Consistent() && contributing.Some?
      modifies this`contributing, this`sent
      ensures var o := Contributed(mc, old(State()));
              Consistent() && State() == o.rank && sent == old(sent) + o.sent
    {
      var w := contributing.value;
      contributing := None;
      if w.step == step {
        var out := mc.grads(w.base, Some(w.start));
        Send(Grad(mc.id, w.to, w.step, mc.batch, Wire(mc, out), w.start, w.term));
      }
    }

    method OnContributionFault(now: real)
      requires Consistent() && contributing.Some?
      modifies this`contributing, this`members
      ensures Consistent() && State() == Live(old(State()).(contributing := None), now)
    {
      hide Live;
      contributing := None;
      Prune(now);
    }

    // ── timers and calls ────────────────────────────────────────────────────

    /** Recompute the policy from the peers still alive. */
    method AdaptPolicy(now: real)
      modifies this`members, this`policy
      ensures State() == Retune(mc, old(State()), now)
    {
      hide Live, PolicyFor;
      Prune(now);
      policy := PolicyFor(|members| + 1, mc.timing);
    }

    /** Whether the leader has been silent too long and this rank is next. */
    method TakeoverDue(now: real) returns (due: bool)
      requires Consistent()
      modifies this`members
      ensures Consistent() && State() == Asked(old(State()), now) && due == TakesOver(mc, State(), now)
    {
      hide Asked, Leads;
      var leader := IsLeader(now);
      due := leader && !looping && pending.None? && now - lastOpen > policy.takeover;
    }

    method TakeOver(now: real, pressure: bool)
      requires Consistent()
      modifies this
      ensures var o := Loop(mc, old(State()).(lastOpen := now), now, pressure);
              Consistent() && State() == o.rank && sent == old(sent) + o.sent
    {
      hide Loop;
      lastOpen := now;
      StartLoop(now, pressure);
    }

    /** The heartbeat: retune, beat, and take over from a silent leader. */
    method Tick(now: real, pressure: bool)
      requires Consistent() && !disposed
      modifies this
      ensures var o := DoTick(mc, old(State()), now, pressure);
              Consistent() && State() == o.rank && sent == old(sent) + o.sent
    {
      hide State, Live, Loop, Asked, TakesOver, Retune, BeatOf;
      AdaptPolicy(now);
      SendBeat();
      var due := TakeoverDue(now);
      if due { TakeOver(now, pressure); }
      Prune(now);
    }

    /** One turn of the joining timer. */
    method JoinTick(now: real, pressure: bool)
      requires Consistent() && joining.Some?
      modifies this
      ensures var o := DoJoinTick(mc, old(State()), now, pressure);
              Consistent() && State() == o.rank && sent == old(sent) + o.sent
    {
      hide Live, Loop, NobodyReady, Lowest;
      if disposed || ready {
        joining := None;
        return;
      }
      Prune(now);
      if NobodyReady(members) { joining := Some(joining.value + 1); }
      if NobodyReady(members) && joining.value >= 2 && Lowest(mc, members) {
        MarkReady();
        if running { StartLoop(now, pressure); }
        return;
      }
      Announce();
    }

    method Enlist(nextLr: Option<real>)
      modifies this`lr, this`running
      ensures State() == Started(old(State()), nextLr)
    {
      if nextLr.Some? { lr := nextLr.value; }
      running := true;
    }

    /** `beginJoining` without parameters, `loop` with them. */
    method Enter(now: real, pressure: bool)
      requires Consistent()
      modifies this
      ensures var r := old(State());
              var o := if !r.ready then Outcome(r.(joining := Some(0)), []) else Loop(mc, r, now, pressure);
              Consistent() && State() == o.rank && sent == old(sent) + o.sent
    {
      hide Loop;
      if !ready { joining := Some(0); } else { StartLoop(now, pressure); }
    }

    method Start(nextLr: Option<real>, now: real, pressure: bool)
      requires Consistent()
      modifies this
      ensures var o := DoStart(mc, old(State()), nextLr, now, pressure);
              Consistent() && State() == o.rank && sent == old(sent) + o.sent
    {
      hide State, Live, Loop, Started, HelloOf;
      Enlist(nextLr);
      Announce();
      Enter(now, pressure);
      Prune(now);
    }

    method Stop(now: real)
      requires Consistent()
      modifies this
      ensures var o := DoStop(mc, old(State()), now);
              Consistent() && State() == o.rank && sent == old(sent) + o.sent
    {
      hide Live, Asked, Leads;
      var wasLeader := IsLeader(now);
      running := false;
      if wasLeader && !looping { SendRound(map[]); }
      SendBeat();
      Prune(now);
    }

    method SetLr(nextLr: real)
      requires Consistent()
      modifies this`lr
      ensures Consistent() && State() == old(State()).(lr := nextLr)
    {
      lr := nextLr;
    }

    method Dispose()
      requires Consistent()
      modifies this
      ensures Consistent() && State() == DoDispose(old(State())) && sent == old(sent)
    {
      hide Release;
      ReleaseCollection();
      disposed, running, joining := true, false, None;
    }

    /** One turn of the rank's thread: whatever wakes it, the object takes exactly the step of the
        protocol, sends exactly what that step sends, and stays one the safety theorems hold of. */
    method Turn(i: Input)
      requires Valid() && Enabled(State(), i.event)
      modifies this
      ensures Valid() && State() == Step(mc, old(State()), i).rank
      ensures sent == old(sent) + Step(mc, old(State()), i).sent
    {
      hide RankSafety.Valid, OnMessage, DoTick, DoJoinTick, DoStart, DoStop, DoDispose, OpenRound, LoopHead, Collect,
           FinishRound, Contributed, Live, FailRound, Settled;
      RankSafety.ValidKept(mc, State(), i);
      match i.event
      case Start(nextLr) => Start(nextLr, i.now, i.pressure);
      case Stop => Stop(i.now);
      case SetLr(rate) => SetLr(rate);
      case Dispose => Dispose();
      case Deliver(m) => Receive(m, i.now);
      case Tick => Tick(i.now, i.pressure);
      case JoinTick => JoinTick(i.now, i.pressure);
      case PressureResume => OnTransport(i.now, i.pressure);
      case OwnGradsDone => OnOwnGradients(i.now);
      case OwnGradsFault => OnFault(i.now);
      case CollectTimer => OnCollectTimer();
      case CollectResume => OnCollected(i.now);
      case BackoffResume => OnBackoff();
      case YieldResume => RunLoop(i.now, i.pressure);
      case ContribDone => OnContribution();
      case ContribFault => OnContributionFault(i.now);
    }
  }

  /** A suspended drive with other buckets. */
  ghost function WithGot(pc: Pc, got: seq<Bucket>): Pc {
    match pc
    case OwnGrads(d) => OwnGrads(d.(got := got))
    case Collecting(d) => Collecting(d.(got := got))
    case _ => pc
  }

  ghost function Awaiting(r: Rank, d: Drive): Rank {
    if r.pending.None? then r.(pc := Collecting(d))
    else if |d.got| >= r.pending.value.quorum then r.(pc := Collecting(d.(settled := true)))
    else r.(pc := Collecting(d), pending := Some(r.pending.value.(timer := true)))
  }

  lemma CollectFrom(mc: Machine, r: Rank, d: Drive, now: real)
    requires r.pc == OwnGrads(d)
    ensures var got := Put(d.got, OwnBucket(mc, r, d));
            var t := r.(pc := WithGot(r.pc, got));
            Collect(mc, r, d, now) ==
              if |d.cohort| > 1 then Awaiting(t, d.(got := got)) else FinishRound(mc, t, got, now)
  {
    hide Put, OwnBucket, Average, Wire, Alive;
  }


  lemma PlannedDrive(mc: Machine, r: Rank)
    ensures var ids := Sorted(Cohort(mc, r));
            var b := Batches(mc, r.members, Cohort(mc, r));
            NewDrive(mc, r) == Drive(ids, b, Assign(ids, b, Base(r.step, RoundSize(mc.id, ids, b)), |ids|), [], false)
  {
    hide Cohort, Batches, Assign, RoundSize, Base;
  }

  lemma OpenRoundFrom(mc: Machine, r: Rank, now: real)
    ensures var l := Live(r, now);
            var d := NewDrive(mc, l);
            && OpenRound(mc, r, now).rank == l.(pc := OwnGrads(d), pending := Collection(l, d), lastOpen := now)
            && OpenRound(mc, r, now).sent == [RoundOf(mc, l, d.assign)]
  {
    hide NewDrive, Live, MinNat, Wire, Cohort, Elements;
    PlannedCohort(mc, Live(r, now));
  }

  lemma PlannedCohort(mc: Machine, r: Rank)
    ensures Elements(NewDrive(mc, r).cohort) == Cohort(mc, r)
    ensures NewDrive(mc, r).got == [] && !NewDrive(mc, r).settled
  {
    hide Cohort, Assign, Batches;
  }

  lemma CohortMembers(mc: Machine, r: Rank)
    ensures forall k :: k in Cohort(mc, r) <==> (k == mc.id && r.running && r.ready) || Eligible(r.members, k)
  {
  }
}
