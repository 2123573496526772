/** Who leads. */
module Election {
  import opened Wrappers
  import opened Reduce
  import opened Policy
  import opened Protocol
  import opened RankSafety

  /** Ranks that see the same cohort do not both lead. */
  lemma OneLeaderPerView(a: Machine, r: Rank, b: Machine, s: Rank, now: real, now': real)
    requires Cohort(a, r) == Cohort(b, s) && Leads(a, r, now) && Leads(b, s, now')
    ensures a.id == b.id
  {
  }

  /** A leader is the least of every rank it knows to be ready and running. */
  lemma LeaderIsLeast(mc: Machine, r: Rank, now: real)
    ensures Leads(mc, r, now) <==>
      && r.running && r.ready && now >= r.deferUntil
      && forall k :: k in r.members && r.members[k].ready && r.members[k].running ==> mc.id <= k
  {
    if r.running && r.ready {
      assert mc.id in Cohort(mc, r);
      forall k
        ensures k in Cohort(mc, r) <==>
                k == mc.id || (k in r.members && r.members[k].ready && r.members[k].running)
      {
      }
    }
  }

  lemma LoopEnters(mc: Machine, r: Rank, now: real, pressure: bool)
    requires !Looping(r) && !r.disposed
    ensures Looping(Loop(mc, r, now, pressure).rank) <==> Leads(mc, Asked(r, now), now)
  {
    hide Leads, NewDrive, Wire, Alive, MinNat;
  }

  /** Asking again, nothing but the clock of the last round changed, gives the same answer. */
  lemma AskedTwice(mc: Machine, a: Rank, t: Rank, now: real)
    requires t == a.(lastOpen := now) && Leads(mc, a, now)
    ensures Leads(mc, Asked(t, now), now)
  {
    LeaderIsLeast(mc, a, now);
    LeaderIsLeast(mc, Asked(t, now), now);
  }
}
