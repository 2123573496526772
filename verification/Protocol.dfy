/** One rank of the elastic data-parallel protocol, as a function of its state and one input. An
    input is what wakes the rank's single thread: a call, a message, a timer, or the resumption of
    an `await`. The object in RankObject performs the same steps in place. */
module Protocol {
  import opened Wrappers
  import opened Reduce
  import opened Policy
  import Quantize

  type Params = seq<real>

  /** What is fixed for one rank, with the backend as two unknown functions. */
  datatype Machine = Machine(
    id: Id, batch: nat, bucketLen: nat, precision: Quantize.Precision, timing: Timing,
    grads: (Params, Option<nat>) -> seq<real>, apply: (Params, seq<real>, real) -> Params)

  /** What a vector sent by this rank is when it is received. */
  function Wire(mc: Machine, v: Params): Params {
    Quantize.OnWire(v, mc.precision)
  }

  /** Messages. `term`, and `start` in a bucket, are history: no branch reads them. */
  datatype Msg =
    | Hello(from: Id, batch: nat, ready: bool, running: bool)
    | Beat(from: Id, batch: nat, ready: bool, running: bool)
    | Round(from: Id, step: nat, lr: real, assign: map<Id, nat>, params: Params, term: nat)
    | Grad(from: Id, to: Id, step: nat, samples: nat, g: seq<real>, start: nat, term: nat)

  datatype Member = Member(seen: real, batch: Option<nat>, ready: bool, running: bool)

  /** A leader's open collection. */
  datatype Pending = Pending(step: nat, want: set<Id>, quorum: nat, timer: bool)

  /** The local state of `driveRound`: its cohort, their batches and windows, the buckets so far,
      and whether the promise it collects on is resolved. */
  datatype Drive = Drive(cohort: seq<Id>, batches: map<Id, nat>, assign: map<Id, nat>, got: seq<Bucket>, settled: bool)

  /** Where `loop` is suspended. */
  datatype Pc =
    | Idle
    | Pressure(waited: nat)
    | OwnGrads(drive: Drive)
    | Collecting(drive: Drive)
    | Backoff
    | Yielding

  /** A bucket being computed for another rank, against the parameters held when it began. */
  datatype Work = Work(to: Id, step: nat, start: nat, base: Params, term: nat)

  datatype Origin = Origin(from: Id, term: nat)

  /** `term` counts the adoptions of this rank, and `origin` is the round its parameters came from
      until it completes one of its own; both are history, and no branch reads them. */
  datatype Rank = Rank(
    running: bool, ready: bool, step: nat, lr: real, params: Params,
    pc: Pc, pending: Option<Pending>, lastOpen: real, joining: Option<nat>, disposed: bool,
    contributing: Option<Work>, roundsFrom: Option<Id>, deferUntil: real,
    members: map<Id, Member>, policy: Policy, term: nat, origin: Option<Origin>)

  datatype Event =
    | Start(nextLr: Option<real>) | Stop | SetLr(lr: real) | Dispose
    | Deliver(m: Msg) | Tick | JoinTick
    | PressureResume | OwnGradsDone | OwnGradsFault | CollectTimer | CollectResume | BackoffResume | YieldResume
    | ContribDone | ContribFault

  /** An event, the clock when it happens, and whether the transport reports pressure then. */
  datatype Input = Input(event: Event, now: real, pressure: bool)

  datatype Outcome = Outcome(rank: Rank, sent: seq<Msg>)

  function Init(mc: Machine, params: Params): Rank {
    Rank(false, false, 0, 0.05, params, Idle, None, 0.0, None, false, None, None, 0.0,
         map[], PolicyFor(1, mc.timing), 0, None)
  }

  predicate Looping(r: Rank) {
    !r.pc.Idle?
  }

  predicate Driving(r: Rank) {
    r.pc.OwnGrads? || r.pc.Collecting?
  }

  // ── membership and election ───────────────────────────────────────────────

  predicate Alive(r: Rank, k: Id, now: real)
    requires k in r.members
  {
    now - r.members[k].seen <= r.policy.drop
  }

  /** `live()`: forget whoever has been silent too long. */
  function Live(r: Rank, now: real): Rank {
    r.(members := map k | k in r.members && Alive(r, k, now) :: r.members[k])
  }

  /** Forgetting touches nothing but the roster, and reads no clock but the one it is given. */
  lemma LiveFields(r: Rank, now: real)
    ensures Live(r, now) == r.(members := Live(r, now).members)
    ensures Live(r.(lastOpen := now), now).members == Live(r, now).members
  {
    assert Live(r.(lastOpen := now), now).members == Live(r, now).members;
  }

  /** Every rank that can contribute: this one if it runs and is ready, and such members. */
  function Cohort(mc: Machine, r: Rank): set<Id> {
    (if r.running && r.ready then {mc.id} else {}) +
    set k | k in r.members && r.members[k].ready && r.members[k].running
  }

  /** The least element. */
  function Least(s: set<Id>): (m: Id)
    requires s != {}
    ensures m in s && forall k :: k in s ==> m <= k
  {
    assert exists m :: m in s && forall k :: k in s ==> m <= k by { var m := FindLeast(s); }
    var m :| m in s && forall k :: k in s ==> m <= k;
    m
  }

  lemma {:induction false} FindLeast(s: set<Id>) returns (m: Id)
    requires s != {}
    ensures m in s && forall k :: k in s ==> m <= k
    decreases |s|
  {
    m :| m in s;
    var rest := s - {m};
    if rest != {} {
      var l := FindLeast(rest);
      assert forall k :: k in s ==> k == m || k in rest;
      if l < m { m := l; }
    } else {
      assert forall k :: k in s ==> k == m || k in rest;
    }
  }

  /** Ascending order. */
  function Sorted(s: set<Id>): (ids: seq<Id>)
    ensures |ids| == |s|
    ensures forall k :: k in ids <==> k in s
    ensures Ascending(ids)
    decreases |s|
  {
    if s == {} then []
    else
      var m := Least(s);
      [m] + Sorted(s - {m})
  }

  predicate Ascending(ids: seq<Id>) {
    forall i, j :: 0 <= i < j < |ids| ==> ids[i] < ids[j]
  }

  lemma SortedDistinct(ids: seq<Id>)
    requires Ascending(ids)
    ensures Distinct(ids)
  {
  }

  function LeaderOf(mc: Machine, r: Rank): Option<Id> {
    if Cohort(mc, r) == {} then None else Some(Least(Cohort(mc, r)))
  }

  /** `leaderId() === id && now() >= deferUntil`, over members already pruned. */
  predicate Leads(mc: Machine, r: Rank, now: real) {
    r.running && r.ready && LeaderOf(mc, r) == Some(mc.id) && now >= r.deferUntil
  }

  /** Evaluating `running && ready && isLeader()` prunes only when it gets as far as electing. */
  function Asked(r: Rank, now: real): Rank {
    if r.running && r.ready then Live(r, now) else r
  }

  function HelloOf(mc: Machine, r: Rank): Msg {
    Hello(mc.id, mc.batch, r.ready, r.running)
  }

  function BeatOf(mc: Machine, r: Rank): Msg {
    Beat(mc.id, mc.batch, r.ready, r.running)
  }

  // ── driving one round ─────────────────────────────────────────────────────

  function BatchOf(mc: Machine, members: map<Id, Member>, k: Id): nat {
    if k != mc.id && k in members && members[k].batch.Some? then members[k].batch.value else mc.batch
  }

  function Batches(mc: Machine, members: map<Id, Member>, ids: set<Id>): map<Id, nat> {
    map k | k in ids + {mc.id} :: BatchOf(mc, members, k)
  }

  /** The round this rank would open now: cohort in ascending order, batches and windows. */
  function NewDrive(mc: Machine, r: Rank): Drive {
    var ids := Sorted(Cohort(mc, r));
    var batches := Batches(mc, r.members, Cohort(mc, r));
    Drive(ids, batches, Assign(ids, batches, Base(r.step, RoundSize(mc.id, ids, batches)), |ids|), [], false)
  }

  function RoundOf(mc: Machine, r: Rank, assign: map<Id, nat>): Msg {
    Round(mc.id, r.step, r.lr, assign, Wire(mc, r.params), r.term)
  }

  /** `driveRound` up to its first `await`. */
  function OpenRound(mc: Machine, r: Rank, now: real): Outcome {
    var l := Live(r, now);
    var d := NewDrive(mc, l);
    var n := |d.cohort|;
    var pending := if n > 1 then Some(Pending(l.step, Cohort(mc, l), MinNat(n, l.policy.quorum), false)) else l.pending;
    Outcome(l.(pc := OwnGrads(d), pending := pending, lastOpen := now), [RoundOf(mc, l, d.assign)])
  }

  function OwnBucket(mc: Machine, r: Rank, d: Drive): Bucket {
    var start := StartOf(d.assign, mc.id);
    Bucket(mc.id, mc.batch, mc.grads(r.params, start), start, r.term)
  }

  /** `driveRound` from its own gradients to the collection, or to its end when it is alone. */
  function Collect(mc: Machine, r: Rank, d: Drive, now: real): Rank {
    var got := Put(d.got, OwnBucket(mc, r, d));
    if |d.cohort| <= 1 then FinishRound(mc, r, got, now)
    else if r.pending.Some? && |got| >= r.pending.value.quorum then
      r.(pc := Collecting(d.(got := got, settled := true)))
    else if r.pending.Some? then
      r.(pc := Collecting(d.(got := got)), pending := Some(r.pending.value.(timer := true)))
    else r.(pc := Collecting(d.(got := got)))
  }

  /** The end of `driveRound`: average, apply, adopt what the wire makes of it, advance. */
  function FinishRound(mc: Machine, r: Rank, got: seq<Bucket>, now: real): Rank {
    var applied := mc.apply(r.params, Average(got, mc.bucketLen), r.lr);
    Live(r.(params := Wire(mc, applied), step := r.step + 1, pc := Yielding, origin := None), now)
  }

  /** `pending.resolve()` and `pending = null`, if there is a collection. */
  function Release(r: Rank): Rank {
    if r.pending.None? then r else r.(pending := None, pc := Settled(r.pc))
  }

  function Settled(pc: Pc): Pc {
    match pc
    case OwnGrads(d) => OwnGrads(d.(settled := true))
    case Collecting(d) => Collecting(d.(settled := true))
    case _ => pc
  }

  /** The `catch` of `loop`. */
  function FailRound(r: Rank, now: real): Rank {
    Live(Release(r).(pc := Backoff), now)
  }

  // ── the loop ──────────────────────────────────────────────────────────────

  function Publish(mc: Machine, r: Rank, now: real): Outcome {
    var l := Live(r, now);
    Outcome(l, [RoundOf(mc, l, map[])])
  }

  /** The loop condition, then either the wait for the transport, the round, or the exit. */
  function LoopHead(mc: Machine, r: Rank, now: real, pressure: bool): Outcome {
    var a := Asked(r, now);
    if Leads(mc, a, now) && !a.disposed then
      if pressure then Outcome(a.(pc := Pressure(0)), []) else OpenRound(mc, a, now)
    else
      var e := a.(pc := Idle);
      if !e.running && e.ready && !e.disposed then Publish(mc, e, now) else Outcome(e, [])
  }

  function Loop(mc: Machine, r: Rank, now: real, pressure: bool): Outcome {
    if Looping(r) || r.disposed then Outcome(r, []) else LoopHead(mc, r, now, pressure)
  }

  // ── messages ──────────────────────────────────────────────────────────────

  /** What a message tells about its sender; fields it does not carry keep their last value. */
  function Heard(r: Rank, m: Msg, now: real): Member {
    var peer := if m.from in r.members then r.members[m.from] else Member(now, None, false, false);
    if m.Hello? || m.Beat? then Member(now, Some(m.batch), m.ready, m.running) else peer.(seen := now)
  }

  predicate Ignored(mc: Machine, r: Rank, m: Msg) {
    r.disposed || m.from == mc.id || (m.Grad? && m.to != mc.id)
  }

  function OnMessage(mc: Machine, r: Rank, m: Msg, now: real): Outcome {
    if Ignored(mc, r, m) then Outcome(r, [])
    else
      var h := r.(members := r.members[m.from := Heard(r, m, now)]);
      match m
      case Hello(_, _, _, _) => Outcome(h, [BeatOf(mc, h)])
      case Beat(_, _, _, _) => Outcome(h, [])
      case Round(_, _, _, _, _, _) => OnRound(mc, h.(lastOpen := now), m, now)
      case Grad(_, _, _, _, _, _, _) => Outcome(OnGrad(h, m), [])
  }

  /** Whether a round from `m.from` is followed: it is not above the leader this rank knows, and
      not an out-of-order duplicate from the rank already followed. */
  predicate Follows(mc: Machine, r: Rank, m: Msg)
    requires m.Round?
  {
    && !(LeaderOf(mc, r).Some? && m.from > LeaderOf(mc, r).value)
    && !(r.roundsFrom == Some(m.from) && m.step < r.step)
  }

  function OnRound(mc: Machine, r: Rank, m: Msg, now: real): Outcome
    requires m.Round?
  {
    if Looping(r) || r.pending.Some? then
      if m.from < mc.id then StandDown(mc, r, now) else Outcome(r, [])
    else
      var l := Live(r, now);
      if !Follows(mc, l, m) then Outcome(l, [])
      else
        var a := Adopt(l.(roundsFrom := Some(m.from)), m, now);
        if a.running && mc.id in m.assign then Outcome(Contribute(mc, a, m), []) else Outcome(a, [])
  }

  function Adopt(r: Rank, m: Msg, now: real): Rank
    requires m.Round?
  {
    Live(r.(params := m.params, step := m.step, ready := true, joining := None,
            term := r.term + 1, origin := Some(Origin(m.from, m.term))), now)
  }

  function StandDown(mc: Machine, r: Rank, now: real): Outcome {
    var s := Release(r).(deferUntil := now + mc.timing.takeover);
    Outcome(Live(s, now), [HelloOf(mc, s)])
  }

  predicate Accepts(r: Rank, m: Msg)
    requires m.Grad?
  {
    r.pending.Some? && m.step == r.pending.value.step && m.from in r.pending.value.want
  }

  function BucketOf(m: Msg): Bucket
    requires m.Grad?
  {
    Bucket(m.from, m.samples, m.g, Some(m.start), m.term)
  }

  function OnGrad(r: Rank, m: Msg): Rank
    requires m.Grad?
  {
    if Accepts(r, m) && Driving(r) then
      var got := Put(r.pc.drive.got, BucketOf(m));
      var d := r.pc.drive.(got := got, settled := r.pc.drive.settled || |got| >= r.pending.value.quorum);
      r.(pc := if r.pc.OwnGrads? then OwnGrads(d) else Collecting(d))
    else r
  }

  function Contribute(mc: Machine, r: Rank, m: Msg): Rank
    requires m.Round? && mc.id in m.assign
  {
    if r.contributing.Some? then r
    else r.(contributing := Some(Work(m.from, m.step, m.assign[mc.id], r.params, m.term)))
  }

  function GradOf(mc: Machine, w: Work): Msg {
    Grad(mc.id, w.to, w.step, mc.batch, Wire(mc, mc.grads(w.base, Some(w.start))), w.start, w.term)
  }

  /** The bucket is sent unless a newer round arrived while it was computed. */
  function Contributed(mc: Machine, r: Rank): Outcome
    requires r.contributing.Some?
  {
    var w := r.contributing.value;
    Outcome(r.(contributing := None), if w.step == r.step then [GradOf(mc, w)] else [])
  }

  // ── timers and calls ──────────────────────────────────────────────────────

  /** The policy is recomputed from the peers still alive. */
  function Retune(mc: Machine, r: Rank, now: real): Rank {
    var l := Live(r, now);
    l.(policy := PolicyFor(|l.members| + 1, mc.timing))
  }

  /** Whether a leader-in-waiting has heard no round for long enough to take over. */
  predicate TakesOver(mc: Machine, r: Rank, now: real) {
    Leads(mc, r, now) && !Looping(r) && r.pending.None? && now - r.lastOpen > r.policy.takeover
  }

  function DoTick(mc: Machine, r: Rank, now: real, pressure: bool): Outcome {
    var p := Retune(mc, r, now);
    var a := Asked(p, now);
    var o := if TakesOver(mc, a, now) then Loop(mc, a.(lastOpen := now), now, pressure) else Outcome(a, []);
    Outcome(Live(o.rank, now), [BeatOf(mc, p)] + o.sent)
  }

  /** No peer holds parameters, and no peer has a lower id. */
  predicate NobodyReady(members: map<Id, Member>) {
    forall k :: k in members ==> !members[k].ready
  }

  predicate Lowest(mc: Machine, members: map<Id, Member>) {
    forall k :: k in members ==> mc.id <= k
  }

  function Promoted(r: Rank): Rank {
    r.(ready := true, joining := None)
  }

  function DoJoinTick(mc: Machine, r: Rank, now: real, pressure: bool): Outcome
    requires r.joining.Some?
  {
    if r.disposed || r.ready then Outcome(r.(joining := None), [])
    else
      var l := Live(r, now);
      var tries := r.joining.value + if NobodyReady(l.members) then 1 else 0;
      if NobodyReady(l.members) && tries >= 2 && Lowest(mc, l.members) then
        var b := Promoted(l);
        if b.running then Loop(mc, b, now, pressure) else Outcome(b, [])
      else Outcome(l.(joining := Some(tries)), [HelloOf(mc, l)])
  }

  function Started(r: Rank, nextLr: Option<real>): Rank {
    r.(running := true, lr := if nextLr.Some? then nextLr.value else r.lr)
  }

  function DoStart(mc: Machine, r: Rank, nextLr: Option<real>, now: real, pressure: bool): Outcome {
    var s := Started(r, nextLr);
    var o := if !s.ready then Outcome(s.(joining := Some(0)), []) else Loop(mc, s, now, pressure);
    Outcome(Live(o.rank, now), [HelloOf(mc, s)] + o.sent)
  }

  function DoStop(mc: Machine, r: Rank, now: real): Outcome {
    var a := Asked(r, now);
    var s := a.(running := false);
    var sent := if Leads(mc, a, now) && !Looping(a) then [RoundOf(mc, s, map[])] else [];
    Outcome(Live(s, now), sent + [BeatOf(mc, s)])
  }

  function DoDispose(r: Rank): Rank {
    Release(r).(disposed := true, running := false, joining := None)
  }

  // ── one step ──────────────────────────────────────────────────────────────

  /** A collect timer that fires after the promise is resolved does nothing, and is left out. */
  predicate Enabled(r: Rank, e: Event) {
    match e
    case Tick => !r.disposed
    case JoinTick => r.joining.Some?
    case PressureResume => r.pc.Pressure?
    case OwnGradsDone => r.pc.OwnGrads?
    case OwnGradsFault => r.pc.OwnGrads?
    case CollectTimer => r.pc.Collecting? && !r.pc.drive.settled && r.pending.Some? && r.pending.value.timer
    case CollectResume => r.pc.Collecting? && r.pc.drive.settled
    case BackoffResume => r.pc.Backoff?
    case YieldResume => r.pc.Yielding?
    case ContribDone => r.contributing.Some?
    case ContribFault => r.contributing.Some?
    case _ => true
  }

  /** `OwnGradsFault` and `ContribFault` are a backend error in place of a bucket. */
  function Step(mc: Machine, r: Rank, i: Input): Outcome
    requires Enabled(r, i.event)
  {
    match i.event
    case Start(nextLr) => DoStart(mc, r, nextLr, i.now, i.pressure)
    case Stop => DoStop(mc, r, i.now)
    case SetLr(lr) => Outcome(r.(lr := lr), [])
    case Dispose => Outcome(DoDispose(r), [])
    case Deliver(m) => OnMessage(mc, r, m, i.now)
    case Tick => DoTick(mc, r, i.now, i.pressure)
    case JoinTick => DoJoinTick(mc, r, i.now, i.pressure)
    case PressureResume =>
      if r.pc.waited + 1 < 20 && i.pressure then Outcome(r.(pc := Pressure(r.pc.waited + 1)), [])
      else OpenRound(mc, r, i.now)
    case OwnGradsDone => Outcome(Collect(mc, r, r.pc.drive, i.now), [])
    case OwnGradsFault => Outcome(FailRound(r, i.now), [])
    case CollectTimer => Outcome(r.(pc := Settled(r.pc)), [])
    case CollectResume => Outcome(FinishRound(mc, r.(pending := None), r.pc.drive.got, i.now), [])
    case BackoffResume => Outcome(r.(pc := Yielding), [])
    case YieldResume => LoopHead(mc, r, i.now, i.pressure)
    case ContribDone => Contributed(mc, r)
    case ContribFault => Outcome(Live(r.(contributing := None), i.now), [])
  }
}
