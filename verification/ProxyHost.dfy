/** The backpressure queue between a rank and its transport: bounded in-flight sends, a bounded
    FIFO of small messages, and one slot in which the newest round wins. */
module ProxyHost {
  import opened Wrappers

  /** A queued buffer; arrivals are told apart by their number. */
  type Buf = nat

  /** `throws` says which buffers the transport rejects synchronously. */
  datatype Config = Config(maxInflight: nat, maxQueue: nat, throws: Buf -> bool)

  /** A round as it is sent: the newest round at that moment, and how many small messages wait. */
  datatype Departure = Departure(buf: Buf, newest: Buf, waiting: nat)

  /** What has happened so far. */
  datatype Log = Log(
    small: seq<Buf>, rounds: seq<Buf>,
    sentSmall: seq<Buf>, sentRounds: seq<Departure>,
    open: multiset<Buf>, done: multiset<Buf>, dropped: multiset<Buf>, reports: nat)

  datatype Host = Host(inflight: nat, round: Option<Buf>, small: seq<Buf>, log: Log)

  datatype Event = Arrive(buf: Buf, isRound: bool) | Settle(buf: Buf, ok: bool)

  const Empty := Host(0, None, [], Log([], [], [], [], multiset{}, multiset{}, multiset{}, 0))

  // ── the queue as functions ────────────────────────────────────────────────

  function Waiting(h: Host): nat {
    |h.small| + if h.round.Some? then 1 else 0
  }

  function Depth(h: Host): nat {
    Waiting(h) + h.inflight
  }

  /** Small messages first, then the round. */
  function Take(h: Host): (Buf, Host)
    requires Waiting(h) > 0
  {
    if |h.small| > 0 then
      (h.small[0], h.(small := h.small[1..], log := h.log.(sentSmall := h.log.sentSmall + [h.small[0]])))
    else
      var newest := if |h.log.rounds| > 0 then h.log.rounds[|h.log.rounds| - 1] else 0;
      var sent := Departure(h.round.value, newest, |h.small|);
      (h.round.value, h.(round := None, log := h.log.(sentRounds := h.log.sentRounds + [sent])))
  }

  function Drop(h: Host, b: Buf): Host {
    h.(log := h.log.(dropped := h.log.dropped + multiset{b}, reports := h.log.reports + 1))
  }

  /** Hand one buffer to the transport. */
  function Send(h: Host, cfg: Config): (r: Host)
    requires Waiting(h) > 0
    ensures Waiting(r) == Waiting(h) - 1
  {
    var (next, taken) := Take(h);
    if cfg.throws(next) then Drop(taken, next)
    else taken.(inflight := taken.inflight + 1, log := taken.log.(open := taken.log.open + multiset{next}))
  }

  function Pump(h: Host, cfg: Config): Host
    decreases Waiting(h)
  {
    if h.inflight < cfg.maxInflight && Waiting(h) > 0 then Pump(Send(h, cfg), cfg) else h
  }

  function Enqueue(h: Host, b: Buf, isRound: bool, cfg: Config): Host {
    if isRound then
      var h' := if h.round.Some? then Drop(h, h.round.value) else h;
      h'.(round := Some(b), log := h'.log.(rounds := h'.log.rounds + [b]))
    else
      var h' := if |h.small| >= cfg.maxQueue then Overflow(h) else h;
      h'.(small := h'.small + [b], log := h'.log.(small := h'.log.small + [b]))
  }

  /** Shift out the oldest and report it; shifting an empty queue only reports. */
  function Overflow(h: Host): Host {
    if |h.small| > 0 then Drop(h.(small := h.small[1..]), h.small[0])
    else h.(log := h.log.(reports := h.log.reports + 1))
  }

  function Finish(h: Host, b: Buf, ok: bool): Host
    requires h.inflight > 0
  {
    var h' := h.(inflight := h.inflight - 1, log := h.log.(open := h.log.open - multiset{b}));
    if ok then h'.(log := h'.log.(done := h'.log.done + multiset{b})) else Drop(h', b)
  }

  /** An arrival, or a send settling: the two things that can happen to the queue. */
  predicate Enabled(h: Host, e: Event) {
    e.Settle? ==> e.buf in h.log.open && h.inflight > 0
  }

  function Step(h: Host, e: Event, cfg: Config): Host
    requires Enabled(h, e)
  {
    match e
    case Arrive(b, isRound) => Pump(Enqueue(h, b, isRound, cfg), cfg)
    case Settle(b, ok) => Pump(Finish(h, b, ok), cfg)
  }

  ghost predicate ValidRun(h: Host, events: seq<Event>, cfg: Config)
    decreases |events|
  {
    events == [] || (Enabled(h, events[0]) && ValidRun(Step(h, events[0], cfg), events[1..], cfg))
  }

  ghost function Run(h: Host, events: seq<Event>, cfg: Config): Host
    requires ValidRun(h, events, cfg)
    decreases |events|
  {
    if events == [] then h else Run(Step(h, events[0], cfg), events[1..], cfg)
  }

  // ── what every run keeps ──────────────────────────────────────────────────

  function Slot(h: Host): multiset<Buf> {
    if h.round.Some? then multiset{h.round.value} else multiset{}
  }

  /** Every arrival is waiting, in flight, settled, or dropped: each exactly once. */
  ghost predicate Conserved(h: Host) {
    multiset(h.log.small) + multiset(h.log.rounds) ==
    multiset(h.small) + Slot(h) + h.log.open + h.log.done + h.log.dropped
  }

  /** `a` is obtained from `b` by leaving elements out. */
  ghost predicate Subsequence(a: seq<Buf>, b: seq<Buf>)
    decreases |b|
  {
    a == [] || (b != [] && (Subsequence(a, b[..|b| - 1]) ||
                            (a[|a| - 1] == b[|b| - 1] && Subsequence(a[..|a| - 1], b[..|b| - 1]))))
  }

  /** Small messages go out in arrival order, and the waiting ones follow those sent. */
  ghost predicate InOrder(h: Host) {
    Subsequence(h.log.sentSmall + h.small, h.log.small)
  }

  /** The slot holds the newest round, and every round sent was the newest when it was sent, with no
      small message waiting. */
  ghost predicate NewestWins(h: Host) {
    && (h.round.Some? ==> |h.log.rounds| > 0 && h.round.value == h.log.rounds[|h.log.rounds| - 1])
    && forall i :: 0 <= i < |h.log.sentRounds| ==>
         h.log.sentRounds[i].buf == h.log.sentRounds[i].newest && h.log.sentRounds[i].waiting == 0
  }

  ghost predicate Bounded(h: Host, cfg: Config) {
    && h.inflight == |h.log.open|
    && h.inflight <= cfg.maxInflight
    && |h.small| <= (if cfg.maxQueue == 0 then 1 else cfg.maxQueue)
  }

  /** One report for each drop. */
  ghost predicate Reported(h: Host) {
    h.log.reports == |h.log.dropped|
  }

  /** Nothing waits while a slot is free. */
  ghost predicate NoStall(h: Host, cfg: Config) {
    Waiting(h) == 0 || h.inflight >= cfg.maxInflight
  }

  ghost predicate Inv(h: Host, cfg: Config) {
    Conserved(h) && InOrder(h) && NewestWins(h) && Bounded(h, cfg) && (cfg.maxQueue > 0 ==> Reported(h))
  }

  lemma {:induction false} DropFromMiddle(a: seq<Buf>, x: Buf, c: seq<Buf>, b: seq<Buf>)
    requires Subsequence(a + [x] + c, b)
    ensures Subsequence(a + c, b)
    decreases |b|
  {
    var s := a + [x] + c;
    var front := b[..|b| - 1];
    if Subsequence(s, front) {
      DropFromMiddle(a, x, c, front);
    } else if c == [] {
      assert s[..|s| - 1] == a && a + c == a;
      Weaken(a, b);
    } else {
      assert s[..|s| - 1] == a + [x] + c[..|c| - 1];
      DropFromMiddle(a, x, c[..|c| - 1], front);
      assert (a + c)[..|a + c| - 1] == a + c[..|c| - 1];
    }
  }

  lemma Weaken(a: seq<Buf>, b: seq<Buf>)
    requires b != [] && Subsequence(a, b[..|b| - 1])
    ensures Subsequence(a, b)
  {}

  lemma AppendBoth(a: seq<Buf>, b: seq<Buf>, x: Buf)
    requires Subsequence(a, b)
    ensures Subsequence(a + [x], b + [x])
  {
    assert (a + [x])[..|a|] == a && (b + [x])[..|b|] == b;
  }

  lemma HeadFirst(s: seq<Buf>)
    requires s != []
    ensures s == [s[0]] + s[1..] && multiset(s) == multiset{s[0]} + multiset(s[1..])
  {
    assert s == [s[0]] + s[1..];
  }

  /** Handing a buffer over moves it, whether the transport takes it or throws. */
  lemma SendKeeps(h: Host, cfg: Config)
    requires Inv(h, cfg) && Waiting(h) > 0 && h.inflight < cfg.maxInflight
    ensures Inv(Send(h, cfg), cfg)
    ensures Depth(Send(h, cfg)) <= Depth(h)
  {
    hide Inv, Conserved, InOrder, NewestWins, Subsequence;
    InvParts(h, cfg);
    SendConserves(h, cfg);
    SendOrders(h, cfg);
    InvParts(Send(h, cfg), cfg);
  }

  lemma InvParts(h: Host, cfg: Config)
    ensures Inv(h, cfg) <==> Conserved(h) && InOrder(h) && NewestWins(h) && Bounded(h, cfg) &&
                             (cfg.maxQueue > 0 ==> Reported(h))
  {
    hide Conserved, InOrder, NewestWins, Bounded, Reported;
  }

  lemma SendConserves(h: Host, cfg: Config)
    requires Conserved(h) && Waiting(h) > 0
    ensures Conserved(Send(h, cfg))
  {
    if |h.small| > 0 {
      HeadFirst(h.small);
      HandOver(multiset{h.small[0]}, multiset(h.small[1..]), Slot(h), h.log.open, h.log.done, h.log.dropped);
    } else {
      HandOver(Slot(h), multiset(h.small), multiset{}, h.log.open, h.log.done, h.log.dropped);
    }
  }

  /** Moving a part into the in-flight or the dropped share keeps the total. */
  lemma HandOver(x: multiset<Buf>, a: multiset<Buf>, b: multiset<Buf>, e: multiset<Buf>, f: multiset<Buf>,
                 g: multiset<Buf>)
    ensures x + a + b + e + f + g == a + b + (e + x) + f + g
    ensures a + x + e + f + g == a + multiset{} + (e + x) + f + g
    ensures x + a + b + e + f + g == a + b + e + f + (g + x)
    ensures a + x + e + f + g == a + multiset{} + e + f + (g + x)
  {}

  lemma SendOrders(h: Host, cfg: Config)
    requires InOrder(h) && NewestWins(h) && Waiting(h) > 0
    ensures InOrder(Send(h, cfg)) && NewestWins(Send(h, cfg))
  {
    hide Subsequence;
    if |h.small| > 0 {
      HeadFirst(h.small);
      assert h.log.sentSmall + [h.small[0]] + h.small[1..] == h.log.sentSmall + h.small;
    }
  }

  lemma {:induction false} PumpKeeps(h: Host, cfg: Config)
    requires Inv(h, cfg)
    ensures Inv(Pump(h, cfg), cfg) && NoStall(Pump(h, cfg), cfg)
    ensures Depth(Pump(h, cfg)) <= Depth(h)
    decreases Waiting(h)
  {
    if h.inflight < cfg.maxInflight && Waiting(h) > 0 {
      SendKeeps(h, cfg);
      PumpKeeps(Send(h, cfg), cfg);
    }
  }

  lemma EnqueueKeeps(h: Host, b: Buf, isRound: bool, cfg: Config)
    requires Inv(h, cfg)
    ensures Inv(Enqueue(h, b, isRound, cfg), cfg)
  {
    hide Inv, Conserved, InOrder, NewestWins, Subsequence;
    InvParts(h, cfg);
    EnqueueConserves(h, b, isRound, cfg);
    EnqueueOrders(h, b, isRound, cfg);
    InvParts(Enqueue(h, b, isRound, cfg), cfg);
  }

  lemma EnqueueConserves(h: Host, b: Buf, isRound: bool, cfg: Config)
    requires Conserved(h)
    ensures Conserved(Enqueue(h, b, isRound, cfg))
  {
    hide Conserved, Enqueue;
    if isRound {
      RoundConserves(h, b, cfg);
    } else {
      SmallConserves(h, b, cfg);
    }
  }

  lemma RoundConserves(h: Host, b: Buf, cfg: Config)
    requires Conserved(h)
    ensures Conserved(Enqueue(h, b, true, cfg))
  {
    var h' := if h.round.Some? then Drop(h, h.round.value) else h;
    MoveOne(multiset(h.small), Slot(h), h.log.open, h.log.done, h.log.dropped);
    AddOne(multiset(h.log.rounds), multiset(h.log.small), multiset{}, multiset(h.small),
           h.log.open, h.log.done, h'.log.dropped, b);
  }

  lemma SmallConserves(h: Host, b: Buf, cfg: Config)
    requires Conserved(h)
    ensures Conserved(Enqueue(h, b, false, cfg))
  {
    var h' := if |h.small| >= cfg.maxQueue then Overflow(h) else h;
    OverflowConserves(h);
    AddOne(multiset(h.log.small), multiset(h.log.rounds), multiset(h'.small), Slot(h'),
           h'.log.open, h'.log.done, h'.log.dropped, b);
  }

  lemma OverflowConserves(h: Host)
    requires Conserved(h)
    ensures Conserved(Overflow(h))
  {
    if |h.small| > 0 {
      HeadFirst(h.small);
      HandOver(multiset{h.small[0]}, multiset(h.small[1..]), Slot(h), h.log.open, h.log.done, h.log.dropped);
    }
  }

  lemma AddOne(a: multiset<Buf>, b: multiset<Buf>, c: multiset<Buf>, d: multiset<Buf>,
               e: multiset<Buf>, f: multiset<Buf>, g: multiset<Buf>, x: Buf)
    requires a + b == c + d + e + f + g || b + a == d + c + e + f + g
    ensures (a + multiset{x}) + b == (c + multiset{x}) + d + e + f + g
    ensures b + (a + multiset{x}) == d + (c + multiset{x}) + e + f + g
  {
    assert a + b == b + a && c + d == d + c;
    assert (a + multiset{x}) + b == (a + b) + multiset{x};
    assert b + (a + multiset{x}) == (a + b) + multiset{x};
    assert (c + multiset{x}) + d + e + f + g == (c + d + e + f + g) + multiset{x};
    assert d + (c + multiset{x}) + e + f + g == (c + d + e + f + g) + multiset{x};
  }

  lemma MoveOne(a: multiset<Buf>, s: multiset<Buf>, e: multiset<Buf>, f: multiset<Buf>, g: multiset<Buf>)
    ensures a + s + e + f + g == a + multiset{} + e + f + (g + s)
  {}

  lemma EnqueueOrders(h: Host, b: Buf, isRound: bool, cfg: Config)
    requires InOrder(h) && NewestWins(h)
    ensures InOrder(Enqueue(h, b, isRound, cfg)) && NewestWins(Enqueue(h, b, isRound, cfg))
  {
    hide Subsequence;
    if !isRound {
      var h' := if |h.small| >= cfg.maxQueue then Overflow(h) else h;
      if |h.small| > 0 {
        HeadFirst(h.small);
        assert h.log.sentSmall + h.small == h.log.sentSmall + [h.small[0]] + h.small[1..];
        DropFromMiddle(h.log.sentSmall, h.small[0], h.small[1..], h.log.small);
      }
      AppendBoth(h'.log.sentSmall + h'.small, h'.log.small, b);
      assert h'.log.sentSmall + h'.small + [b] == h'.log.sentSmall + (h'.small + [b]);
    }
  }

  lemma FinishKeeps(h: Host, b: Buf, ok: bool, cfg: Config)
    requires Inv(h, cfg) && b in h.log.open && h.inflight > 0
    ensures Inv(Finish(h, b, ok), cfg) && Depth(Finish(h, b, ok)) == Depth(h) - 1
  {
    hide Inv, InOrder, NewestWins, Conserved, Subsequence;
    InvParts(h, cfg);
    FinishConserves(h, b, ok);
    FinishOrders(h, b, ok);
    InvParts(Finish(h, b, ok), cfg);
  }

  lemma FinishConserves(h: Host, b: Buf, ok: bool)
    requires Conserved(h) && b in h.log.open && h.inflight > 0
    ensures Conserved(Finish(h, b, ok))
  {
    assert h.log.open == h.log.open - multiset{b} + multiset{b};
    var rest := h.log.open - multiset{b};
    var w := multiset(h.small) + Slot(h);
    assert w + (rest + multiset{b}) + h.log.done + h.log.dropped ==
           w + rest + (h.log.done + multiset{b}) + h.log.dropped;
    assert w + (rest + multiset{b}) + h.log.done + h.log.dropped ==
           w + rest + h.log.done + (h.log.dropped + multiset{b});
  }

  lemma FinishOrders(h: Host, b: Buf, ok: bool)
    requires InOrder(h) && NewestWins(h) && h.inflight > 0
    ensures InOrder(Finish(h, b, ok)) && NewestWins(Finish(h, b, ok))
  {
    hide Subsequence;
  }

  lemma StepKeeps(h: Host, e: Event, cfg: Config)
    requires Inv(h, cfg) && Enabled(h, e)
    ensures Inv(Step(h, e, cfg), cfg) && NoStall(Step(h, e, cfg), cfg)
    ensures e.Settle? ==> Depth(Step(h, e, cfg)) < Depth(h)
  {
    hide Inv, NoStall, Pump, Enqueue, Finish;
    match e
    case Arrive(b, isRound) =>
      EnqueueKeeps(h, b, isRound, cfg);
      PumpKeeps(Enqueue(h, b, isRound, cfg), cfg);
    case Settle(b, ok) =>
      FinishKeeps(h, b, ok, cfg);
      PumpKeeps(Finish(h, b, ok), cfg);
  }

  /** Over any interleaving of arrivals and outcomes. */
  lemma {:induction false} RunKeeps(h: Host, events: seq<Event>, cfg: Config)
    requires Inv(h, cfg) && NoStall(h, cfg) && ValidRun(h, events, cfg)
    ensures Inv(Run(h, events, cfg), cfg) && NoStall(Run(h, events, cfg), cfg)
    decreases |events|
  {
    hide Inv, NoStall, Step;
    if events != [] {
      StepKeeps(h, events[0], cfg);
      RunKeeps(Step(h, events[0], cfg), events[1..], cfg);
    }
  }

  /** From an empty queue: conservation, order, newest-wins, bounds, one report per drop, no stall. */
  lemma QueueCorrect(events: seq<Event>, cfg: Config)
    requires ValidRun(Empty, events, cfg)
    ensures Inv(Run(Empty, events, cfg), cfg) && NoStall(Run(Empty, events, cfg), cfg)
  {
    RunKeeps(Empty, events, cfg);
  }

  /** With the arrivals stopped every settlement shortens the queue, and while anything is left
      some send is in flight: if every send settles, the queue drains. */
  lemma {:induction false} Drains(h: Host, events: seq<Event>, cfg: Config)
    requires Inv(h, cfg) && NoStall(h, cfg) && ValidRun(h, events, cfg)
    requires forall i :: 0 <= i < |events| ==> events[i].Settle?
    ensures |events| <= Depth(h) && Depth(Run(h, events, cfg)) <= Depth(h) - |events|
    ensures cfg.maxInflight > 0 && Depth(Run(h, events, cfg)) > 0 ==> |Run(h, events, cfg).log.open| > 0
    decreases |events|
  {
    if events == [] {
    } else {
      StepKeeps(h, events[0], cfg);
      Drains(Step(h, events[0], cfg), events[1..], cfg);
    }
  }

  /** The depth told to the worker counts every arrival that is neither settled nor dropped yet. */
  lemma DepthCounts(h: Host, cfg: Config)
    requires Inv(h, cfg)
    ensures Depth(h) + |h.log.done| + |h.log.dropped| == |h.log.small| + |h.log.rounds|
  {
    hide InOrder, NewestWins;
    assert |multiset(h.log.small) + multiset(h.log.rounds)| == |h.log.small| + |h.log.rounds|;
    assert |multiset(h.small) + Slot(h) + h.log.open + h.log.done + h.log.dropped| ==
           |h.small| + |Slot(h)| + |h.log.open| + |h.log.done| + |h.log.dropped|;
  }

  /** With a queue bound of zero the first small message is reported dropped yet still queued, so
      a bound of at least one is needed. */
  lemma ZeroQueueMisreports(cfg: Config, b: Buf)
    requires cfg.maxQueue == 0
    ensures !Reported(Step(Empty, Arrive(b, false), cfg))
  {
    PumpReports(Enqueue(Empty, b, false, cfg), cfg);
  }

  lemma {:induction false} PumpReports(h: Host, cfg: Config)
    requires h.log.reports > |h.log.dropped|
    ensures Pump(h, cfg).log.reports > |Pump(h, cfg).log.dropped|
    decreases Waiting(h)
  {
    if h.inflight < cfg.maxInflight && Waiting(h) > 0 {
      PumpReports(Send(h, cfg), cfg);
    }
  }

  // ── exactly what one event does ───────────────────────────────────────────

  /** Of the buffers handed over in this order, those the transport takes, and those it rejects. */
  function Accepted(bufs: seq<Buf>, cfg: Config): multiset<Buf> {
    if bufs == [] then multiset{}
    else (if cfg.throws(bufs[0]) then multiset{} else multiset{bufs[0]}) + Accepted(bufs[1..], cfg)
  }

  function Rejected(bufs: seq<Buf>, cfg: Config): multiset<Buf> {
    if bufs == [] then multiset{}
    else (if cfg.throws(bufs[0]) then multiset{bufs[0]} else multiset{}) + Rejected(bufs[1..], cfg)
  }

  /** From a queue of `small` messages and a slot: the oldest messages go first, and the round only when
      none of them is left; whatever is rejected is dropped and reported, and nothing else. */
  ghost predicate Handed(log: Log, small: seq<Buf>, slot: Option<Buf>, s: Host, cfg: Config) {
    var k := |s.log.sentSmall| - |log.sentSmall|;
    && 0 <= k <= |small| && s.log.sentSmall == log.sentSmall + small[..k] && s.small == small[k..]
    && (if s.round == slot then s.log.sentRounds == log.sentRounds
        else
          && s.round.None? && s.small == [] && |s.log.sentRounds| == |log.sentRounds| + 1
          && s.log.sentRounds[..|log.sentRounds|] == log.sentRounds
          && slot == Some(s.log.sentRounds[|log.sentRounds|].buf))
    && Shared(log, small[..k] + if s.round == slot then [] else [slot.value], s, cfg)
  }

  ghost predicate Shared(log: Log, sent: seq<Buf>, s: Host, cfg: Config) {
    && s.log.open == log.open + Accepted(sent, cfg)
    && s.log.dropped == log.dropped + Rejected(sent, cfg)
    && s.log.reports == log.reports + |Rejected(sent, cfg)|
  }

  lemma SharesOne(h: Host, rest: seq<Buf>, s: Host, cfg: Config)
    requires |h.small| > 0 && Shared(Send(h, cfg).log, rest, s, cfg)
    ensures Shared(h.log, [h.small[0]] + rest, s, cfg)
  {
    var sent := [h.small[0]] + rest;
    assert sent[0] == h.small[0] && sent[1..] == rest;
  }

  lemma {:induction false} PumpHands(h: Host, cfg: Config)
    ensures var s := Pump(h, cfg);
            && Handed(h.log, h.small, h.round, s, cfg)
            && s.log.small == h.log.small && s.log.rounds == h.log.rounds && s.log.done == h.log.done
    decreases Waiting(h)
  {
    hide Handed, Send;
    if h.inflight < cfg.maxInflight && Waiting(h) > 0 {
      PumpHands(Send(h, cfg), cfg);
      if |h.small| > 0 { HandsSmall(h, Pump(h, cfg), cfg); } else { HandsRound(h, cfg); }
      SendLogs(h, cfg);
    } else {
      HandsNothing(h, cfg);
    }
  }

  lemma SendLogs(h: Host, cfg: Config)
    requires Waiting(h) > 0
    ensures var s := Send(h, cfg);
            s.log.small == h.log.small && s.log.rounds == h.log.rounds && s.log.done == h.log.done
  {
  }

  lemma HandsNothing(h: Host, cfg: Config)
    ensures Handed(h.log, h.small, h.round, h, cfg)
  {
    assert h.small[..0] + [] == [];
  }

  lemma HandsSmall(h: Host, s: Host, cfg: Config)
    requires |h.small| > 0 && Handed(Send(h, cfg).log, Send(h, cfg).small, Send(h, cfg).round, s, cfg)
    ensures Handed(h.log, h.small, h.round, s, cfg)
  {
    hide Shared;
    var g := Send(h, cfg);
    var j := |s.log.sentSmall| - |g.log.sentSmall|;
    var round := if s.round == h.round then [] else [h.round.value];
    SharesOne(h, g.small[..j] + round, s, cfg);
    assert g.round == h.round && g.small == h.small[1..];
    assert h.small[..j + 1] == [h.small[0]] + g.small[..j];
    assert s.log.sentSmall == h.log.sentSmall + ([h.small[0]] + g.small[..j]);
    assert h.small[..j + 1] + round == [h.small[0]] + (g.small[..j] + round);
  }

  lemma HandsRound(h: Host, cfg: Config)
    requires h.small == [] && h.round.Some? && h.inflight < cfg.maxInflight
    ensures Pump(h, cfg) == Send(h, cfg) && Handed(h.log, h.small, h.round, Send(h, cfg), cfg)
  {
    var sent := [h.round.value];
    assert h.small[..0] + sent == sent && sent[1..] == [];
    assert Accepted(sent[1..], cfg) == multiset{} && Rejected(sent[1..], cfg) == multiset{};
  }

  /** The queue and the slot once an event is taken in, before anything is handed over: the oldest
      message gives way when the queue is full, and an older round to a newer. */
  function Queued(h: Host, e: Event, cfg: Config): seq<Buf> {
    match e
    case Arrive(b, false) => (if |h.small| > 0 && |h.small| >= cfg.maxQueue then h.small[1..] else h.small) + [b]
    case _ => h.small
  }

  function Slotted(h: Host, e: Event): Option<Buf> {
    if e.Arrive? && e.isRound then Some(e.buf) else h.round
  }

  /** What that, or a send that failed, drops. */
  function Forced(h: Host, e: Event, cfg: Config): multiset<Buf> {
    match e
    case Arrive(_, false) => if |h.small| > 0 && |h.small| >= cfg.maxQueue then multiset{h.small[0]} else multiset{}
    case Arrive(_, true) => Slot(h)
    case Settle(b, ok) => if ok then multiset{} else multiset{b}
  }

  /** Every event, exactly: who is queued, who is sent and in which order, who is dropped, who is done. */
  lemma StepIs(h: Host, e: Event, cfg: Config)
    requires Enabled(h, e)
    ensures var s := Step(h, e, cfg);
            && Handed(Taken(h, e, cfg), Queued(h, e, cfg), Slotted(h, e), s, cfg)
            && s.log.small == h.log.small + (if e.Arrive? && !e.isRound then [e.buf] else [])
            && s.log.rounds == h.log.rounds + (if e.Arrive? && e.isRound then [e.buf] else [])
            && s.log.done == h.log.done + if e.Settle? && e.ok then multiset{e.buf} else multiset{}
  {
    hide Handed, Pump, Enqueue, Finish, Queued, Slotted, Forced;
    assert h.log.small + [] == h.log.small && h.log.rounds + [] == h.log.rounds;
    assert h.log.done + multiset{} == h.log.done;
    var g := match e case Arrive(b, isRound) => Enqueue(h, b, isRound, cfg) case Settle(b, ok) => Finish(h, b, ok);
    assert Step(h, e, cfg) == Pump(g, cfg);
    if e.Arrive? { EnqueueLogs(h, e, cfg); } else { FinishLogs(h, e, cfg); }
    PumpHands(g, cfg);
    HandedFrom(g.log, Taken(h, e, cfg), g.small, g.round, Pump(g, cfg), cfg);
  }

  /** The log once an event is taken in; with a bound of zero an arrival at an empty queue reports a
      drop that does not happen. */
  function Taken(h: Host, e: Event, cfg: Config): Log {
    var full := e.Arrive? && !e.isRound && h.small == [] && cfg.maxQueue == 0;
    h.log.(open := if e.Settle? then h.log.open - multiset{e.buf} else h.log.open,
           dropped := h.log.dropped + Forced(h, e, cfg),
           reports := h.log.reports + |Forced(h, e, cfg)| + if full then 1 else 0)
  }

  lemma EnqueueLogs(h: Host, e: Event, cfg: Config)
    requires e.Arrive?
    ensures var g := Enqueue(h, e.buf, e.isRound, cfg);
            && g.small == Queued(h, e, cfg) && g.round == Slotted(h, e)
            && g.log == Taken(h, e, cfg).(small := h.log.small + (if !e.isRound then [e.buf] else []),
                                          rounds := h.log.rounds + if e.isRound then [e.buf] else [])
  {
    assert h.log.dropped + multiset{} == h.log.dropped;
    assert h.log.small + [] == h.log.small && h.log.rounds + [] == h.log.rounds;
  }

  lemma FinishLogs(h: Host, e: Event, cfg: Config)
    requires e.Settle? && Enabled(h, e)
    ensures var g := Finish(h, e.buf, e.ok);
            && g.small == Queued(h, e, cfg) && g.round == Slotted(h, e)
            && g.log == Taken(h, e, cfg).(done := h.log.done + if e.ok then multiset{e.buf} else multiset{})
  {
    assert h.log.dropped + multiset{} == h.log.dropped && h.log.done + multiset{} == h.log.done;
  }

  /** Handing over reads only the four parts of the log that it writes. */
  lemma HandedFrom(log: Log, log': Log, small: seq<Buf>, slot: Option<Buf>, s: Host, cfg: Config)
    requires Handed(log, small, slot, s, cfg)
    requires log'.sentSmall == log.sentSmall && log'.sentRounds == log.sentRounds && log'.open == log.open
    requires log'.dropped == log.dropped && log'.reports == log.reports
    ensures Handed(log', small, slot, s, cfg)
  {
  }

  /** A slot that is freed goes to the oldest small message, if any waits. */
  lemma FreedSlot(h: Host, b: Buf, ok: bool, cfg: Config)
    requires Inv(h, cfg) && Enabled(h, Settle(b, ok)) && |h.small| > 0
    ensures var s := Step(h, Settle(b, ok), cfg);
            |s.log.sentSmall| > |h.log.sentSmall| && s.log.sentSmall[|h.log.sentSmall|] == h.small[0]
  {
    hide Step, Conserved, InOrder, NewestWins;
    var e := Settle(b, ok);
    var s := Step(h, e, cfg);
    StepKeeps(h, e, cfg);
    StepIs(h, e, cfg);
    assert h.small[..0] == [] && |h.log.open - multiset{b}| == |h.log.open| - 1;
  }

  // ── the queue as the source's object ──────────────────────────────────────

  class Proxy {
    const cfg: Config
    var inflight: nat
    var round: Option<Buf>
    var small: seq<Buf>
    /** The depth last reported to the worker. */
    var pressure: nat
    ghost var log: Log

    ghost function State(): Host
      reads this
    {
      Host(inflight, round, small, log)
    }

    constructor (cfg: Config)
      ensures this.cfg == cfg && State() == Empty
    {
      this.cfg := cfg;
      inflight, round, small, pressure := 0, None, [], 0;
      log := Empty.log;
    }

    method ReportPressure()
      modifies this`pressure
      ensures pressure == Depth(State())
    {
      pressure := |small| + (if round.Some? then 1 else 0) + inflight;
    }

    method TakeNext() returns (next: Option<Buf>)
      modifies this`small, this`round, this`log
      ensures Waiting(old(State())) == 0 ==> next == None && State() == old(State())
      ensures Waiting(old(State())) > 0 ==> next == Some(Take(old(State())).0) && State() == Take(old(State())).1
    {
      if |small| > 0 {
        next, small := Some(small[0]), small[1..];
        log := log.(sentSmall := log.sentSmall + [next.value]);
      } else if round.Some? {
        next := round;
        round := None;
        ghost var newest := if |log.rounds| > 0 then log.rounds[|log.rounds| - 1] else 0;
        log := log.(sentRounds := log.sentRounds + [Departure(next.value, newest, |small|)]);
      } else {
        next := None;
      }
    }

    method OnDrop(ghost b: Buf)
      modifies this`log
      ensures State() == Drop(old(State()), b)
    {
      log := log.(dropped := log.dropped + multiset{b}, reports := log.reports + 1);
    }

    method RunPump()
      modifies this
      ensures State() == Pump(old(State()), cfg) && pressure == Depth(State())
    {
      hide Take, Drop, Depth;
      while inflight < cfg.maxInflight
        invariant Pump(State(), cfg) == Pump(old(State()), cfg)
        decreases Waiting(State()), cfg.maxInflight - inflight
      {
        var next := TakeNext();
        if next.None? { break; }
        inflight := inflight + 1;
        if cfg.throws(next.value) {
          inflight := inflight - 1;
          OnDrop(next.value);
        } else {
          log := log.(open := log.open + multiset{next.value});
        }
      }
      ReportPressure();
    }

    /** A message from the worker. */
    method OnMessage(b: Buf, isRound: bool)
      modifies this
      ensures State() == Step(old(State()), Arrive(b, isRound), cfg) && pressure == Depth(State())
    {
      if isRound {
        if round.Some? { OnDrop(round.value); }
        round := Some(b);
        log := log.(rounds := log.rounds + [b]);
      } else {
        if |small| >= cfg.maxQueue {
          if |small| > 0 {
            var oldest := small[0];
            small := small[1..];
            OnDrop(oldest);
          } else {
            log := log.(reports := log.reports + 1);
          }
        }
        small := small + [b];
        log := log.(small := log.small + [b]);
      }
      assert State() == Enqueue(old(State()), b, isRound, cfg);
      RunPump();
    }

    /** A send settled, well or badly. */
    method OnSettled(b: Buf, ok: bool)
      requires Enabled(State(), Settle(b, ok))
      modifies this
      ensures State() == Step(old(State()), Settle(b, ok), cfg) && pressure == Depth(State())
    {
      inflight := inflight - 1;
      log := log.(open := log.open - multiset{b});
      if ok {
        log := log.(done := log.done + multiset{b});
      } else {
        OnDrop(b);
      }
      ReportPressure();
      RunPump();
    }
  }
}
