/** Any number of ranks on a network that keeps every message ever sent: delivering one late,
    twice, out of order or never covers loss, duplication, delay and reordering. */
module Cluster {
  import opened Wrappers
  import opened Reduce
  import opened Protocol
  import opened RankSafety
  import Quantize
  import opened Policy

  type Machines = map<Id, Machine>

  /** A leadership term of one rank, and a step within it. */
  datatype Key = Key(id: Id, term: nat, step: nat)

  /** `held` is history: what each rank held at each step of each of its terms. */
  datatype Cluster = Cluster(ranks: map<Id, Rank>, net: set<Msg>, held: map<Key, Params>)

  datatype Label = Label(id: Id, input: Input)

  function KeyOf(id: Id, r: Rank): Key {
    Key(id, r.term, r.step)
  }

  ghost predicate Configured(mcs: Machines) {
    forall k :: k in mcs ==> mcs[k].id == k && mcs[k].batch > 0
  }

  ghost predicate Initial(mcs: Machines, c: Cluster) {
    && c.ranks.Keys == mcs.Keys && c.net == {}
    && (forall k :: k in c.ranks ==> c.ranks[k] == Init(mcs[k], c.ranks[k].params))
    && (forall k :: k in c.ranks ==> Key(k, 0, 0) in c.held && c.held[Key(k, 0, 0)] == c.ranks[k].params)
    && (forall key :: key in c.held ==> key.id in c.ranks && key.term == 0 && key.step == 0)
  }

  ghost predicate CanStep(mcs: Machines, c: Cluster, l: Label) {
    && l.id in c.ranks && l.id in mcs && Enabled(c.ranks[l.id], l.input.event)
    && (l.input.event.Deliver? ==> l.input.event.m in c.net)
  }

  function Sent(sent: seq<Msg>): set<Msg> {
    set m | m in sent
  }

  ghost function After(mcs: Machines, c: Cluster, l: Label): Cluster
    requires CanStep(mcs, c, l)
  {
    var o := Step(mcs[l.id], c.ranks[l.id], l.input);
    Cluster(c.ranks[l.id := o.rank], c.net + Sent(o.sent), c.held[KeyOf(l.id, o.rank) := o.rank.params])
  }

  /** The `k`-th label leads from the `k`-th cluster to the next. */
  ghost predicate StepTo(mcs: Machines, cs: seq<Cluster>, labels: seq<Label>, k: nat)
    requires k < |labels| && k + 1 < |cs|
  {
    CanStep(mcs, cs[k], labels[k]) && cs[k + 1] == After(mcs, cs[k], labels[k])
  }

  /** A run: one cluster more than labels, each label leading from one to the next. */
  ghost predicate IsRun(mcs: Machines, cs: seq<Cluster>, labels: seq<Label>) {
    && |cs| == |labels| + 1
    && forall k {:trigger StepTo(mcs, cs, labels, k)} :: 0 <= k < |labels| ==> StepTo(mcs, cs, labels, k)
  }

  /** A cluster some run leads to, from any initial parameters. */
  ghost predicate Reachable(mcs: Machines, c: Cluster) {
    exists cs, labels :: LeadsTo(mcs, cs, labels, c)
  }

  ghost predicate LeadsTo(mcs: Machines, cs: seq<Cluster>, labels: seq<Label>, c: Cluster) {
    Configured(mcs) && IsRun(mcs, cs, labels) && Initial(mcs, cs[0]) && cs[|labels|] == c
  }

  // ── what is kept ──────────────────────────────────────────────────────────

  /** What rank `id` published at that step of that term. */
  function Published(mcs: Machines, c: Cluster, key: Key): Params
    requires key.id in mcs && key in c.held
  {
    Wire(mcs[key.id], c.held[key])
  }

  ghost predicate Known(mcs: Machines, c: Cluster, key: Key) {
    key.id in mcs && key in c.held
  }

  ghost predicate Below(key: Key, r: Rank) {
    key.term < r.term || (key.term == r.term && key.step <= r.step)
  }

  /** Rank `key.id` sent a round at `key` that assigns `k` the window at `start`. */
  ghost predicate Assigned(c: Cluster, key: Key, k: Id, start: nat) {
    exists m :: m in c.net && m.Round? && KeyOfRound(m) == key && k in m.assign && m.assign[k] == start
  }

  function KeyOfRound(m: Msg): Key
    requires m.Round?
  {
    Key(m.from, m.term, m.step)
  }

  /** A bucket worth averaging at `key`: computed by `from`, over the window it was assigned there,
      against the parameters published there. */
  ghost predicate Sound(mcs: Machines, c: Cluster, key: Key, from: Id, samples: nat, start: nat, g: seq<real>) {
    && Known(mcs, c, key) && from in mcs && samples == mcs[from].batch
    && Assigned(c, key, from, start)
    && g == Wire(mcs[from], mcs[from].grads(Published(mcs, c, key), Some(start)))
  }

  ghost predicate SoundMsg(mcs: Machines, c: Cluster, m: Msg) {
    match m
    case Hello(from, batch, _, _) => from in mcs && batch == mcs[from].batch
    case Beat(from, batch, _, _) => from in mcs && batch == mcs[from].batch
    case Round(from, step, _, _, params, term) =>
      Known(mcs, c, Key(from, term, step)) && params == Published(mcs, c, Key(from, term, step))
    case Grad(from, to, step, samples, g, start, term) =>
      Sound(mcs, c, Key(to, term, step), from, samples, start, g)
  }

  /** Parameters that came from another rank are what it published, until this rank moves on. */
  ghost predicate Following(mcs: Machines, c: Cluster, r: Rank) {
    r.origin.Some? ==>
      var key := Key(r.origin.value.from, r.origin.value.term, r.step);
      Known(mcs, c, key) && r.params == Published(mcs, c, key)
  }

  /** A bucket under way is computed against what was published, over the window assigned. */
  ghost predicate Working(mcs: Machines, c: Cluster, k: Id, r: Rank) {
    r.contributing.Some? ==>
      var w := r.contributing.value;
      var key := Key(w.to, w.term, w.step);
      Known(mcs, c, key) && w.base == Published(mcs, c, key) && Assigned(c, key, k, w.start)
  }

  ghost predicate RosterTrue(mcs: Machines, r: Rank) {
    forall k :: k in r.members ==> MemberTrue(mcs, k, r.members[k])
  }

  ghost predicate MemberTrue(mcs: Machines, k: Id, m: Member) {
    && k in mcs && (m.batch.Some? ==> m.batch.value == mcs[k].batch)
    && (m.ready || m.running ==> m.batch.Some?)
  }

  /** Every collected bucket but the rank's own is sound for the step being driven, in this term or
      an earlier one, and the round was announced with the windows it was opened with. */
  ghost predicate Gathering(mcs: Machines, c: Cluster, id: Id, r: Rank) {
    Driving(r) ==>
      && Announced(c, KeyOf(id, r), r.pc.drive.assign)
      && TrueBatches(mcs, r.pc.drive)
      && forall e :: e in r.pc.drive.got && e.id != id ==> SoundBucket(mcs, c, id, r, e)
  }

  ghost predicate SoundBucket(mcs: Machines, c: Cluster, id: Id, r: Rank, e: Bucket) {
    e.term <= r.term && e.start.Some? && Sound(mcs, c, Key(id, e.term, r.step), e.id, e.samples, e.start.value, e.g)
  }

  ghost predicate Announced(c: Cluster, key: Key, assign: map<Id, nat>) {
    exists m :: m in c.net && m.Round? && KeyOfRound(m) == key && m.assign == assign
  }

  ghost predicate TrueBatches(mcs: Machines, d: Drive) {
    forall k :: k in d.cohort ==> k in mcs && Size(d.batches, k) == mcs[k].batch
  }

  ghost predicate SoundRank(mcs: Machines, c: Cluster, id: Id, r: Rank) {
    && id in mcs && Valid(mcs[id], r)
    && KeyOf(id, r) in c.held && c.held[KeyOf(id, r)] == r.params
    && Following(mcs, c, r) && Working(mcs, c, id, r) && RosterTrue(mcs, r) && Gathering(mcs, c, id, r)
  }

  /** Within one term, only a completed round moves the step, so every later step of a term holds
      parameters that the wire leaves as they are. */
  ghost predicate Canonical(mcs: Machines, c: Cluster) {
    forall key, first ::
      (key in c.held && first in c.held && first.id == key.id && first.term == key.term && first.step < key.step) ==>
      key.id in mcs && c.held[key] == Published(mcs, c, key)
  }

  ghost predicate Inv(mcs: Machines, c: Cluster) {
    && Configured(mcs) && c.ranks.Keys == mcs.Keys
    && (forall id :: id in c.ranks ==> SoundRank(mcs, c, id, c.ranks[id]))
    && (forall m :: m in c.net ==> SoundMsg(mcs, c, m))
    && (forall key :: key in c.held ==> key.id in c.ranks && Below(key, c.ranks[key.id]))
    && Canonical(mcs, c)
  }

  lemma InitialRank(mcs: Machines, c: Cluster, id: Id)
    requires Configured(mcs) && Initial(mcs, c) && id in c.ranks
    ensures SoundRank(mcs, c, id, c.ranks[id])
  {
    hide Valid, PolicyFor, Wire, Sound;
    assert c.ranks[id] == Init(mcs[id], c.ranks[id].params);
    InitValid(mcs[id], c.ranks[id].params);
  }

  lemma InitialInv(mcs: Machines, c: Cluster)
    requires Configured(mcs) && Initial(mcs, c)
    ensures Inv(mcs, c)
  {
    hide SoundRank, PolicyFor, Wire, Init;
    forall id | id in c.ranks ensures SoundRank(mcs, c, id, c.ranks[id]) {
      InitialRank(mcs, c, id);
    }
  }

  // ── history only grows ────────────────────────────────────────────────────

  ghost predicate Grows(c: Cluster, d: Cluster) {
    && c.net <= d.net
    && forall key :: key in c.held ==> key in d.held && d.held[key] == c.held[key]
  }

  lemma SoundGrows(mcs: Machines, c: Cluster, d: Cluster, key: Key, from: Id, samples: nat, start: nat, g: seq<real>)
    requires Grows(c, d) && Sound(mcs, c, key, from, samples, start, g)
    ensures Sound(mcs, d, key, from, samples, start, g)
  {
    hide Wire;
    AssignedGrows(c, d, key, from, start);
  }

  lemma AssignedGrows(c: Cluster, d: Cluster, key: Key, k: Id, start: nat)
    requires Grows(c, d)
    ensures Assigned(c, key, k, start) ==> Assigned(d, key, k, start)
  {
  }

  lemma MsgGrows(mcs: Machines, c: Cluster, d: Cluster, m: Msg)
    requires Grows(c, d) && SoundMsg(mcs, c, m)
    ensures SoundMsg(mcs, d, m)
  {
    hide Sound, Wire;
    if m.Grad? { SoundGrows(mcs, c, d, Key(m.to, m.term, m.step), m.from, m.samples, m.start, m.g); }
  }

  lemma BucketGrows(mcs: Machines, c: Cluster, d: Cluster, id: Id, r: Rank, e: Bucket)
    requires Grows(c, d) && SoundBucket(mcs, c, id, r, e)
    ensures SoundBucket(mcs, d, id, r, e)
  {
    hide Sound;
    SoundGrows(mcs, c, d, Key(id, e.term, r.step), e.id, e.samples, e.start.value, e.g);
  }

  lemma RankGrows(mcs: Machines, c: Cluster, d: Cluster, id: Id, r: Rank)
    requires Grows(c, d) && id in mcs && SoundRank(mcs, c, id, r)
    ensures SoundRank(mcs, d, id, r)
  {
    hide Valid, RosterTrue, Wire, SoundBucket, TrueBatches, Assigned;
    if r.contributing.Some? {
      var w := r.contributing.value;
      AssignedGrows(c, d, Key(w.to, w.term, w.step), id, w.start);
    }
    if Driving(r) {
      forall e | e in r.pc.drive.got && e.id != id ensures SoundBucket(mcs, d, id, r, e) {
        BucketGrows(mcs, c, d, id, r, e);
      }
    }
  }

  /** The step of a rank writes a fresh page of history, or the same one again. */
  lemma StepGrows(mcs: Machines, c: Cluster, l: Label)
    requires Inv(mcs, c) && CanStep(mcs, c, l)
    ensures Grows(c, After(mcs, c, l))
    ensures forall key :: key in After(mcs, c, l).held ==>
              key.id in After(mcs, c, l).ranks && Below(key, After(mcs, c, l).ranks[key.id])
  {
    hide Step, Enabled, SoundMsg, Valid, Following, Working, Gathering, RosterTrue, Canonical, Vouched, Quiet, Wire,
         Average, Averaged;
    var r := c.ranks[l.id];
    assert SoundRank(mcs, c, l.id, r);
    ParametersMove(mcs[l.id], r, l.input);
  }

  // ── one step keeps everything ─────────────────────────────────────────────

  lemma FollowingKept(mcs: Machines, c: Cluster, l: Label)
    requires Inv(mcs, c) && CanStep(mcs, c, l)
    ensures Following(mcs, After(mcs, c, l), After(mcs, c, l).ranks[l.id])
  {
    hide Step, Enabled, Valid, Working, Gathering, RosterTrue, Canonical, Vouched, Quiet, Wire, Average, Averaged,
         Sound, Below;
    var r, d := c.ranks[l.id], After(mcs, c, l);
    assert SoundRank(mcs, c, l.id, r);
    StepGrows(mcs, c, l);
    ParametersMove(mcs[l.id], r, l.input);
    if l.input.event.Deliver? { assert SoundMsg(mcs, c, l.input.event.m); }
  }

  lemma WorkingKept(mcs: Machines, c: Cluster, l: Label)
    requires Inv(mcs, c) && CanStep(mcs, c, l)
    ensures Working(mcs, After(mcs, c, l), l.id, After(mcs, c, l).ranks[l.id])
  {
    hide Step, Enabled, Valid, Following, Gathering, RosterTrue, Canonical, Wire, Sound, Below;
    var r, d := c.ranks[l.id], After(mcs, c, l);
    var s := d.ranks[l.id];
    assert SoundRank(mcs, c, l.id, r);
    StepGrows(mcs, c, l);
    WorkMoves(mcs[l.id], r, l.input);
    if s.contributing.Some? {
      var w := s.contributing.value;
      AssignedGrows(c, d, Key(w.to, w.term, w.step), l.id, w.start);
      if s.contributing != r.contributing { assert SoundMsg(mcs, c, l.input.event.m); }
    }
  }

  lemma RosterKept(mcs: Machines, c: Cluster, l: Label)
    requires Inv(mcs, c) && CanStep(mcs, c, l)
    ensures RosterTrue(mcs, After(mcs, c, l).ranks[l.id])
  {
    hide Step, Enabled, Valid, Following, Working, Gathering, Canonical, Below, Greets;
    assert SoundRank(mcs, c, l.id, c.ranks[l.id]);
    RosterMoves(mcs[l.id], c.ranks[l.id], l.input);
    if l.input.event.Deliver? { HeardTrue(mcs, c, c.ranks[l.id], l.input.event.m, l.input.now); }
  }

  lemma HeardTrue(mcs: Machines, c: Cluster, r: Rank, m: Msg, now: real)
    requires RosterTrue(mcs, r) && SoundMsg(mcs, c, m)
    ensures MemberTrue(mcs, m.from, Heard(r, m, now))
  {
    hide Wire;
  }

  lemma OpenedTrue(mcs: Machines, c: Cluster, l: Label)
    requires Inv(mcs, c) && CanStep(mcs, c, l)
    requires var o := Step(mcs[l.id], c.ranks[l.id], l.input);
             Valid(mcs[l.id], o.rank) && Opened(mcs[l.id], c.ranks[l.id], o.rank, o.sent)
    ensures Gathering(mcs, After(mcs, c, l), l.id, After(mcs, c, l).ranks[l.id])
  {
    hide Step, Enabled, Following, Working, Canonical, Below, FromCohort, CollectionOpen, Assign, Base, RoundSize, Wire;
    var r, s := c.ranks[l.id], After(mcs, c, l).ranks[l.id];
    assert SoundRank(mcs, c, l.id, r);
    forall k | k in s.pc.drive.cohort ensures k in mcs && Size(s.pc.drive.batches, k) == mcs[k].batch {
      assert k != l.id ==> MemberTrue(mcs, k, r.members[k]);
    }
  }

  lemma GatheringKept(mcs: Machines, c: Cluster, l: Label)
    requires Inv(mcs, c) && CanStep(mcs, c, l)
    ensures Gathering(mcs, After(mcs, c, l), l.id, After(mcs, c, l).ranks[l.id])
  {
    hide Step, Enabled, Valid, Following, Working, RosterTrue, Canonical, Below, Opened, Announced, TrueBatches,
         SoundBucket, Put;
    var r, d := c.ranks[l.id], After(mcs, c, l);
    var s := d.ranks[l.id];
    assert SoundRank(mcs, c, l.id, r);
    StepGrows(mcs, c, l);
    BucketsMove(mcs[l.id], r, l.input);
    ValidKept(mcs[l.id], r, l.input);
    if Driving(s) {
      if Opened(mcs[l.id], r, s, Step(mcs[l.id], r, l.input).sent) {
        OpenedTrue(mcs, c, l);
      } else {
        SameAnnouncement(mcs, c, d, l.id, r, s);
        forall e | e in s.pc.drive.got && e.id != l.id ensures SoundBucket(mcs, d, l.id, s, e) {
          GotSound(mcs, c, l, e);
        }
      }
    }
  }

  lemma SameAnnouncement(mcs: Machines, c: Cluster, d: Cluster, id: Id, r: Rank, s: Rank)
    requires Grows(c, d) && Driving(r) && Driving(s) && Unmoved(r, s) && SameDrive(r.pc.drive, s.pc.drive)
    requires Gathering(mcs, c, id, r)
    ensures Announced(d, KeyOf(id, s), s.pc.drive.assign) && TrueBatches(mcs, s.pc.drive)
  {
    hide SoundBucket;
  }

  lemma GotSound(mcs: Machines, c: Cluster, l: Label, e: Bucket)
    requires Inv(mcs, c) && CanStep(mcs, c, l)
    requires var r, s := c.ranks[l.id], Step(mcs[l.id], c.ranks[l.id], l.input).rank;
             Driving(r) && Driving(s) && Continued(mcs[l.id], r, l.input.event, s) && e in s.pc.drive.got &&
               e.id != l.id
    ensures SoundBucket(mcs, After(mcs, c, l), l.id, After(mcs, c, l).ranks[l.id], e)
  {
    hide Step, Enabled, Following, Working, RosterTrue, Canonical, Announced, TrueBatches, Sound, Put, OnePerRank,
         Windowed, CollectionOpen, Ranks;
    var r, d := c.ranks[l.id], After(mcs, c, l);
    assert SoundRank(mcs, c, l.id, r);
    StepGrows(mcs, c, l);
    PutKeeps(r.pc.drive.got, OwnBucket(mcs[l.id], r, r.pc.drive));
    if e in r.pc.drive.got {
      BucketGrows(mcs, c, d, l.id, r, e);
    } else {
      var m := l.input.event.m;
      TakenSound(mcs, c, l.id, r, m);
      PutKeeps(r.pc.drive.got, BucketOf(m));
      BucketGrows(mcs, c, d, l.id, r, BucketOf(m));
    }
  }

  lemma TakenSound(mcs: Machines, c: Cluster, id: Id, r: Rank, m: Msg)
    requires Inv(mcs, c) && id in c.ranks && r == c.ranks[id] && m in c.net && m.Grad? && m.to == id && m.step == r.step
    ensures SoundBucket(mcs, c, id, r, BucketOf(m))
  {
    hide SoundRank, Canonical;
    assert SoundMsg(mcs, c, m);
  }

  lemma SentSound(mcs: Machines, c: Cluster, l: Label, m: Msg)
    requires Inv(mcs, c) && CanStep(mcs, c, l) && m in Step(mcs[l.id], c.ranks[l.id], l.input).sent
    ensures SoundMsg(mcs, After(mcs, c, l), m)
  {
    hide Step, Enabled, Valid, Following, Working, RosterTrue, Gathering, Canonical, Wire, Average, Averaged, Sound,
         GradOf;
    var r, d := c.ranks[l.id], After(mcs, c, l);
    assert SoundRank(mcs, c, l.id, r);
    StepGrows(mcs, c, l);
    ParametersMove(mcs[l.id], r, l.input);
    BucketsSent(mcs[l.id], r, l.input);
    RosterMoves(mcs[l.id], r, l.input);
    if m.Grad? || l.input.event == ContribDone { GradSound(mcs, c, l.id, r); SoundMsgGrows(mcs, c, d, m); }
  }

  lemma SoundMsgGrows(mcs: Machines, c: Cluster, d: Cluster, m: Msg)
    requires Grows(c, d)
    ensures SoundMsg(mcs, c, m) ==> SoundMsg(mcs, d, m)
  {
    if SoundMsg(mcs, c, m) { MsgGrows(mcs, c, d, m); }
  }

  lemma GradSound(mcs: Machines, c: Cluster, id: Id, r: Rank)
    requires Configured(mcs) && id in mcs && Working(mcs, c, id, r) && r.contributing.Some?
    ensures SoundMsg(mcs, c, GradOf(mcs[id], r.contributing.value))
  {
    hide Assigned, Wire;
  }

  /** A page added at the end of a term, canonical unless it is the first of that term. */
  lemma PageAdded(mcs: Machines, c: Cluster, d: Cluster, key: Key, p: Params)
    requires Canonical(mcs, c) && d.held == c.held[key := p] && Grows(c, d) && key.id in mcs
    requires forall k :: k in c.held && k.id == key.id && k.term == key.term ==> k.step <= key.step
    requires key in c.held || Wire(mcs[key.id], p) == p || forall k :: k in c.held && k.id == key.id ==>
             k.term < key.term
    ensures Canonical(mcs, d)
  {
    hide Wire;
  }

  lemma CanonicalKept(mcs: Machines, c: Cluster, l: Label)
    requires Inv(mcs, c) && CanStep(mcs, c, l)
    ensures Canonical(mcs, After(mcs, c, l))
  {
    hide Step, Enabled, Valid, Following, Working, RosterTrue, Gathering, Vouched, Quiet, Wire, Average, Averaged,
         SoundMsg, Canonical, Grows;
    var r, d := c.ranks[l.id], After(mcs, c, l);
    var s := d.ranks[l.id];
    assert SoundRank(mcs, c, l.id, r);
    StepGrows(mcs, c, l);
    ParametersMove(mcs[l.id], r, l.input);
    if Completed(mcs[l.id], r, s) { CompletedCanonical(mcs[l.id], r, s); }
    PageAdded(mcs, c, d, KeyOf(l.id, s), s.params);
  }

  /** The invariant of the whole cluster: one step of any rank, on any message ever sent. */
  lemma InvKept(mcs: Machines, c: Cluster, l: Label)
    requires Inv(mcs, c) && CanStep(mcs, c, l)
    ensures Inv(mcs, After(mcs, c, l))
  {
    hide Step, Enabled, Valid, Following, Working, RosterTrue, Gathering, SoundMsg, Canonical, Below;
    var r, d := c.ranks[l.id], After(mcs, c, l);
    StepGrows(mcs, c, l);
    CanonicalKept(mcs, c, l);
    forall id | id in d.ranks ensures SoundRank(mcs, d, id, d.ranks[id]) {
      if id == l.id {
        assert SoundRank(mcs, c, l.id, r);
        ValidKept(mcs[l.id], r, l.input);
        FollowingKept(mcs, c, l);
        WorkingKept(mcs, c, l);
        RosterKept(mcs, c, l);
        GatheringKept(mcs, c, l);
      } else {
        RankGrows(mcs, c, d, id, c.ranks[id]);
      }
    }
    forall m | m in d.net ensures SoundMsg(mcs, d, m) {
      if m in c.net { MsgGrows(mcs, c, d, m); } else { SentSound(mcs, c, l, m); }
    }
  }

  lemma {:induction false} RunKeeps(mcs: Machines, cs: seq<Cluster>, labels: seq<Label>, n: nat)
    requires IsRun(mcs, cs, labels) && Inv(mcs, cs[0]) && n < |cs|
    ensures Inv(mcs, cs[n])
  {
    hide Inv, CanStep, After;
    if n > 0 {
      RunKeeps(mcs, cs, labels, n - 1);
      assert StepTo(mcs, cs, labels, n - 1);
      InvKept(mcs, cs[n - 1], labels[n - 1]);
    }
  }

  /** Every reachable cluster satisfies the invariant. */
  lemma ReachableInv(mcs: Machines, c: Cluster)
    requires Reachable(mcs, c)
    ensures Inv(mcs, c)
  {
    hide Inv, Initial, Configured, IsRun;
    var cs, labels :| LeadsTo(mcs, cs, labels, c);
    assert IsRun(mcs, cs, labels) && |cs| == |labels| + 1 by { RunLength(mcs, cs, labels); }
    InitialInv(mcs, cs[0]);
    RunKeeps(mcs, cs, labels, |labels|);
  }

  lemma RunLength(mcs: Machines, cs: seq<Cluster>, labels: seq<Label>)
    requires IsRun(mcs, cs, labels)
    ensures |cs| == |labels| + 1
  {
    hide StepTo;
  }
}
