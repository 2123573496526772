# Verified models of the tab cluster, its wire codec, its queue, an MLP backward pass and a highlighter

This project models five components of the repository in Dafny and proves what they are for.

**The elastic data-parallel protocol** (`examples/tab-cluster/cluster-protocol.js`). Any number of
ranks elect the lowest live id; the leader sends one round with parameters and shard assignments,
collects buckets to a quorum or a timeout, averages by sample count, applies, and repeats.
- `Policy.dfy` and `Reduce.dfy`: quorum and timing, windows, the weighted mean.
- `Protocol.dfy`: one rank as a function of its state and one input. An input is a call, a message,
  a timer, or the resumption of an `await`, so everything that may happen at an `await` may happen
  between two inputs. A promise that is resolved may resume at any later time.
- `RankObject.dfy`: the same rank as a class whose handlers update fields in place and whose loops
  are the source's; every method is proved to be the corresponding step of `Protocol.dfy`.
- `RankSafety.dfy`: what every event of one rank keeps and changes. `Effects.dfy`: every field of a
  rank, and every message, under every event, by the roster, the clock and the event alone and without
  the step functions of `Protocol.dfy`.
- `Election.dfy`, `Majority.dfy`, `SplitBrain.dfy` and `Publication.dfy`: who leads, when a round waits
  for a majority, how rival leaders disappear, and how the final model reaches the cohort.
- `StepReuse.dfy` and `OutsideLeader.dfy`: reachable clusters, built event by event, that show what
  reusing a step number does, and what a leader outside its own cohort does.
- `Cluster.dfy` and `Agreement.dfy`: all ranks and a network that keeps every message ever sent and
  may deliver any of them to anyone at any time, which covers loss, duplication, delay and
  reordering. The theorems are about every cluster that some run reaches.

`step` is overwritten when a round is adopted, so a rank's steps can repeat. Three history fields
say which one is meant and are read by no branch: `term` counts a rank's adoptions, `origin` is the
round its parameters came from, and a message or bucket carries the term (and window) it belongs to.
Clocks are per rank; within one event the clock is read once.

**The wire codec** (`examples/tab-cluster/cluster-bus.js`). `Bits.dfy`, `MiniFloat.dfy`,
`HalfPrecision.dfy` (binary16 and round to nearest as in IEEE 754-2019, sections 3.4 and 4.3.1),
`NearestCode.dfy` (the 8-bit formats of the OCP 8-bit Floating Point Specification),
`Quantize.dfy` and `Frame.dfy`. Codes are exact bit arithmetic; scaling is over exact reals, with
the store to f32 before the bit arithmetic modelled. The codec's idempotence is what the protocol's
agreement with the leader rests on: `Agreement.FollowerMatchesLeader` uses `Quantize.OnWireIdempotent`.

**The backpressure queue** (`ProxyHost.dfy`), **the backward pass** of the MNIST asset generator
(`Sums.dfy`, `Mlp.dfy`) and **the lossless highlighter** (`Highlight.dfy`).

Where the code and its own description differ, the code is modelled:
- A rank told to stand down while it waits for the transport opens one more round when the wait
  ends, because leadership is checked before the wait only (`SplitBrain.SuppressedOpens`).
- A leader stopped in that wait opens a round without itself in the cohort
  (`RankSafety.OpensWithItself`, `OutsideLeader.OutsiderAveraged`). Its own batch is still counted in
  the size of the step, so the windows leave a gap (`Reduce.WindowsTile`); its own bucket, computed
  over no window, is still averaged in (`Agreement.BucketSoundness`, `Agreement.GradientConserved`)
  and counts towards a quorum it is not part of, so two sized quorums can miss each other
  (`Policy.QuorumsMeet`, `Policy.FiveSplits`).
- A round whose own gradients fail is abandoned, and a leader stopped then publishes the parameters
  it held before it (`Publication.RoundInFlight`).
- A leader that stands down and is then stopped before its loop has ended still publishes
  (`Publication.StoodDownPublishes`).
- A bucket is matched by step number alone, so one from an earlier leadership term of the same
  leader passes and is averaged in (`StepReuse.StaleTermAveraged`). Every bucket that can be taken is
  of the present term exactly when the number was not reused (`Agreement.TermsMatchIff`).
- For the same reason a bucket of a failed attempt at a step passes into the next attempt, whose
  windows may differ, so samples can be counted twice (`StepReuse.RetryOverlaps`); exactly when not
  is `Agreement.WindowsMatchIff`.
- A contribution under way is sent even after `dispose` (`Publication.DisposedContributes`).
- f32 to f16 is described as round-to-nearest-even; below the normal range ties go away from zero.
- Quantization is idempotent on values, not on 8-bit codes: the positive zero comes back as the
  sign-bit zero (`Quantize.CodesIdempotentIff`).
- An f16 element moves by more than maxAbs·2^-12 when storing it as f32 first puts it on a tie
  (`Quantize.HalfVectorErrorIff`, `Quantize.FloatsDoublyRounded`), and an 8-bit one by more than half
  a step of each format when it is pushed the same way three times (`Quantize.ByteVectorErrorIff`,
  `Quantize.FloatsPushedTwice`).
- With `maxQueue` of zero a message is reported dropped yet queued (`ProxyHost.ZeroQueueMisreports`).

## Model

| member | source | states |
|---|---|---|
| `Policy.QuorumMajority` | examples/tab-cluster/cluster-protocol.js:68-81 | for every cohort of one or more, the quorum is at least one, at most the cohort, and more than half of it |
| `Policy.QuorumIsLeast` | examples/tab-cluster/cluster-protocol.js:73 | up to three ranks the quorum is everyone; from four on it is the least number, two at least, that is three fifths of them |
| `Policy.PolicyTimes` | examples/tab-cluster/cluster-protocol.js:68-81 | beat, drop, takeover and collection time of a cohort of any size, as the nearest, least and greatest numbers that meet what each is for |
| `Policy.DefaultPolicies` | examples/tab-cluster/cluster-protocol.js:47-52 | with the default timing, in numbers: a lone rank, and a cohort of twenty |
| `Policy.QuorumGrows` | examples/tab-cluster/cluster-protocol.js:73 | a larger cohort never needs fewer buckets |
| `Policy.QuorumsMeet` | examples/tab-cluster/cluster-protocol.js:221-248 | every two contributor sets over one cohort that meet their rounds' quorums share a rank, each set holding its leader, inside the cohort or not, if and only if one rank leads both or the two quorums exceed the ranks other than the leaders by more than two |
| `Policy.FreshPolicyMeets` | examples/tab-cluster/cluster-protocol.js:221-228 | policies sized for at least the cohort make them share one: always when both leaders are in it, with one outside for every size but five, with two outside for every size but six |
| `Policy.SizesSuffice` | examples/tab-cluster/cluster-protocol.js:73 | for two ranks or more those sizes are exactly the ones at which the quorum sized for the cohort is large enough |
| `Policy.FiveSplits` | examples/tab-cluster/cluster-protocol.js:221-248 | five does fail: {1,3,4} and {2,5,6} over {2,...,6}, with rank 1 leading from outside |
| `Policy.StalePolicySplits` | examples/tab-cluster/cluster-protocol.js:143-146 | a policy cached for three lets two disjoint halves of six both pass |
| `Policy.PolicySlack` | examples/tab-cluster/cluster-protocol.js:64-81 | a larger cohort beats no faster; eviction needs at least four silent beats and takeover eight |
| `Reduce.WindowsTile` | examples/tab-cluster/cluster-protocol.js:197-209 | the windows of a step are disjoint and lie in `[step·total, (step+1)·total)`, and they tile it exactly when the leader is in its own cohort |
| `Reduce.WindowsDisjoint` | examples/tab-cluster/cluster-protocol.js:204-209 | no sample index belongs to two windows of one round |
| `Reduce.PutKeeps` | examples/tab-cluster/cluster-protocol.js:248 | setting a rank's bucket replaces an earlier one: one bucket a rank, nobody else's touched |
| `Reduce.BlendIsSum` | examples/tab-cluster/cluster-protocol.js:262-269 | the sample-weighted blend of disjoint windows, times the total, is the plain sum over their union, and the union has as many samples as were claimed; buckets without a window enter with the weight of their batch |
| `Reduce.AnswersApart` | examples/tab-cluster/cluster-protocol.js:204-209 | below 2^32, buckets that answer one assignment cover disjoint windows |
| `Reduce.AverageIsPlainMean` | examples/tab-cluster/cluster-protocol.js:259-269 | whichever ranks answered, each coordinate of the weighted average is the plain mean over the disjoint union of their windows, each sample once |
| `RankSafety.ParametersMove` | examples/tab-cluster/cluster-protocol.js:232-242 | for every event: parameters change only together with `step`, by completing an own round or adopting another's; nothing is sent then, and any round sent otherwise carries exactly what the rank holds, never while another is being driven |
| `RankSafety.ValidKept` | examples/tab-cluster/cluster-protocol.js:216-257 | every event keeps the collection invariant: a collection given up is resolved, an open one awaits the own bucket or has its timer armed, and asks for a policy's quorum of its own cohort |
| `RankSafety.InitValid` | examples/tab-cluster/cluster-protocol.js:125-146 | a new rank satisfies it |
| `RankSafety.NeverWedged` | examples/tab-cluster/cluster-protocol.js:250-257 | a suspended loop always has an enabled resumption; a collection ends in at most its timer and its resumption, by completing the round |
| `RankSafety.ReleaseValid` | examples/tab-cluster/cluster-protocol.js:323-327 | clearing `pending` on a fault, a stand-down or a dispose leaves the promise resolved |
| `RankSafety.CollectShape` | examples/tab-cluster/cluster-protocol.js:247-255 | own gradients in: resolved if that was the last bucket needed, timer armed if not |
| `RankSafety.GradValid` | examples/tab-cluster/cluster-protocol.js:430-435 | taking a bucket keeps one per rank, all from the cohort, and never leaves a met quorum unresolved |
| `RankSafety.BucketsMove` | examples/tab-cluster/cluster-protocol.js:430-436 | between two steps a drive is opened afresh and announced, or keeps its cohort and windows and gains at most one bucket: its own, or one for its current step from within its cohort |
| `RankSafety.WorkMoves` | examples/tab-cluster/cluster-protocol.js:414-427 | a contribution starts only as a round is adopted, over the window it assigns and against the parameters it carries |
| `RankSafety.BucketsSent` | examples/tab-cluster/cluster-protocol.js:442-456 | a bucket is sent only when its computation ends and no newer round has been adopted since |
| `RankSafety.RosterMoves` | examples/tab-cluster/cluster-protocol.js:383-392 | the roster changes only by a message, and then only its sender's entry; greetings carry the sender's own batch |
| `RankSafety.ResolvesOnQuorum` | examples/tab-cluster/cluster-protocol.js:430-435 | an unresolved collection resolves on a bucket exactly when it then holds as many ranks as its quorum |
| `RankSafety.QuorumsShareARank` | examples/tab-cluster/cluster-protocol.js:221-248 | two rounds over one cohort that both reached their quorum have a contributor in common if one rank leads both or their quorums together exceed by more than two the ranks of the cohort other than the leaders |
| `RankSafety.SizedQuorumsShareARank` | examples/tab-cluster/cluster-protocol.js:221-228 | under policies sized for that cohort: always when both leaders are in it, otherwise for the sizes that suffice with that many leaders outside |
| `RankSafety.OpensWithItself` | examples/tab-cluster/cluster-protocol.js:163-167 | every round counts its leader in exactly when the leader is running and ready as it opens it; only the end of the transport wait can find it stopped |
| `OutsideLeader.OutsiderAveraged` | examples/tab-cluster/cluster-protocol.js:314-318 | such a round is reached: a cluster, built event by event, whose stopped leader is outside its own cohort and is about to average its own bucket, over no window |
| `OutsideLeader.FiveSplitsRanks` | examples/tab-cluster/cluster-protocol.js:221-248 | two valid ranks that both reached their sized quorum over one cohort of five, one of them from outside, with no contributor in common |
| `RankSafety.OpensSized` | examples/tab-cluster/cluster-protocol.js:221-228 | a round opens asking for the smaller of its cohort and the cached policy's quorum |
| `Cluster.InitialInv` | examples/tab-cluster/cluster-protocol.js:116-146 | a cluster of fresh ranks with any parameters satisfies the cluster invariant |
| `Cluster.StepGrows` | examples/tab-cluster/cluster-protocol.js:281 | a (rank, term, step) is never given two different parameter vectors |
| `Cluster.FollowingKept` | examples/tab-cluster/cluster-protocol.js:294-303 | through any event, a rank that adopted a round and has completed none since still holds what that leader published at that step |
| `Cluster.WorkingKept` | examples/tab-cluster/cluster-protocol.js:442-446 | through any event, a bucket under way is against published parameters, over an assigned window |
| `Cluster.RosterKept` | examples/tab-cluster/cluster-protocol.js:383-392 | through any event, the batches a rank has on record are the real ones, and known for every rank it counts on |
| `Cluster.GatheringKept` | examples/tab-cluster/cluster-protocol.js:430-435 | through any event, every collected bucket but the own is sound and the round was announced with its windows |
| `Cluster.SentSound` | examples/tab-cluster/cluster-protocol.js:232-242 | every message sent is sound: rounds carry what their sender holds, buckets are computed against what was published |
| `RankSafety.CompletedCanonical` | examples/tab-cluster/cluster-protocol.js:274-281 | a completed round leaves parameters the wire does not change |
| `Cluster.CanonicalKept` | examples/tab-cluster/cluster-protocol.js:274-281 | through any event, every step of a term after its first holds parameters the wire does not change |
| `Cluster.InvKept` | examples/tab-cluster/cluster-protocol.js:379-437 | the cluster invariant holds after any event of any rank, on any message ever sent |
| `Cluster.RunKeeps` | examples/tab-cluster/cluster-protocol.js:379-437 | hence over whole runs on a network that loses, repeats, delays and reorders |
| `Agreement.RoundsAgree` | examples/tab-cluster/cluster-protocol.js:232-242 | in every reachable cluster, all rounds of one leader, term and step carry the same parameters: what it held |
| `Agreement.FollowersHold` | examples/tab-cluster/cluster-protocol.js:294-303 | a rank that adopted a round and has completed none since holds exactly what was published |
| `Agreement.FollowersAgree` | examples/tab-cluster/cluster-protocol.js:294-303 | two ranks following one term of one leader at one step hold identical parameters |
| `Agreement.FollowerMatchesLeader` | examples/tab-cluster/cluster-protocol.js:274-281 | a follower at the leader's present term and step holds the leader's parameters as the wire delivers them, and the leader's own once that term has seen a completed round |
| `Agreement.FollowerEqualsLeader` | examples/tab-cluster/cluster-protocol.js:275-280 | with one precision for all, a follower equals its leader from the moment the leader has adopted or completed anything |
| `Cluster.ReachableInv` | examples/tab-cluster/cluster-protocol.js:379-437 | every cluster any run leads to, from any initial parameters, satisfies the invariant |
| `Agreement.AdvanceAppliesAverage` | examples/tab-cluster/cluster-protocol.js:259-281 | any event that moves parameters or step without adopting is the completion of a finishing drive: one step on, the average of exactly the buckets it holds applied once, the result put through the wire |
| `Agreement.BucketSoundness` | examples/tab-cluster/cluster-protocol.js:216-269 | whatever a drive about to complete averages: each rank once, the own bucket always, and every other from the opened cohort, computed over an assigned window against what this leader published for this step number, and against the parameters of the present term if its own term is the present one or the number was not reused; all of it is from the cohort, and the own bucket has a window, if and only if the round counts its leader in |
| `Agreement.OwnWindow` | examples/tab-cluster/cluster-protocol.js:204-209 | the own bucket has a window exactly when the leader is in the cohort of the round |
| `Agreement.OwnBucketCurrent` | examples/tab-cluster/cluster-protocol.js:247-248 | the own bucket is against the published parameters once the leader has completed a round of its term |
| `Agreement.TakenIff` | examples/tab-cluster/cluster-protocol.js:430-435 | exactly which buckets a collection lets in; the leadership term is not among the conditions |
| `Agreement.TermsMatchIff` | examples/tab-cluster/cluster-protocol.js:430-435 | over all buckets a rank could rightly have computed for this leader, sent or not, those the collection would take are all of the present term if and only if the leader never sent, in an earlier term, a round with this step number that assigned a window to another rank of the present cohort |
| `StepReuse.StaleTermAveraged` | examples/tab-cluster/cluster-protocol.js:294-296 | such a bucket is averaged in: a reachable cluster, built event by event, whose leader is about to apply a bucket of an earlier term computed against other parameters |
| `Agreement.WindowsMatchIff` | examples/tab-cluster/cluster-protocol.js:430-435 | over the same buckets, sent or not, those it would take all cover the window assigned now if and only if every round the leader sent with this step number gave the rank that window |
| `Agreement.SameWindowsApart` | examples/tab-cluster/cluster-protocol.js:204-209 | then, below 2^32 and with the leader in its own cohort, the windows averaged are apart and inside `[step·total, (step+1)·total)` |
| `StepReuse.RetryOverlaps` | examples/tab-cluster/cluster-protocol.js:317-328 | otherwise they need not be: a reachable cluster whose leader reopened a step after a fault with one rank more, and is about to average two buckets that both cover one sample |
| `Agreement.GradientConserved` | examples/tab-cluster/cluster-protocol.js:247-269 | in every run, whenever the windows that answered are apart: if the round counts its leader in, the average is the plain mean of the per-sample gradient over their disjoint union, each sample once; if not, the average times the samples counted is the plain sum over that union and, weighed by its batch, the leader's own bucket, which covers no window |
| `Reduce.CountedOnceIff` | examples/tab-cluster/cluster-protocol.js:259-269 | no sample is counted twice if and only if the windows are apart, buckets without a window set aside |
| `Reduce.ApartAverage` | examples/tab-cluster/cluster-protocol.js:259-269 | over windows that are apart the weighted average, times the samples, is the plain sum over their union and what buckets without a window put in; without such buckets it is the plain mean |
| `Election.LeaderIsLeast` | examples/tab-cluster/cluster-protocol.js:171-185 | a rank leads exactly when it runs, is ready, does not defer, and no known ready and running rank is below it |
| `Election.OneLeaderPerView` | examples/tab-cluster/cluster-protocol.js:171-178 | two ranks that see the same cohort do not both lead |
| `Effects.TakeoverIff` | examples/tab-cluster/cluster-protocol.js:526-537 | exactly when an idle rank starts driving on a heartbeat, by the roster and the clock alone: it may lead, and no round was heard for longer than the takeover time for as many peers as were heard within the drop time |
| `Effects.ReadyMoves` | examples/tab-cluster/cluster-protocol.js:495-518 | a rank is ready exactly if it was, or adopts a round, or is alone: at the second look at least at which no live peer holds parameters, as the lowest of them |
| `Effects.OneBootstraps` | examples/tab-cluster/cluster-protocol.js:505-514 | two ranks that have heard each other lately do not both start from their own parameters |
| `Effects.FirstStart` | examples/tab-cluster/cluster-protocol.js:125-146 | a new rank that is started runs at the given rate or 0.05, holds its initial parameters at step zero, and joins |
| `Effects.HappensWhen` | examples/tab-cluster/cluster-protocol.js:305-341 | a call or a message may come at any time; a timer or a resumption exactly when the rank has set it or waits for it |
| `Effects.SettingsMove` | examples/tab-cluster/cluster-protocol.js:528 | under every event, exactly what becomes of running, ready, rate, join, disposal, the contribution under way, the leader followed, the deferral and the policy; the policy only on a heartbeat, and then the one for the rank and as many peers as were heard within the drop time, whatever it was |
| `Effects.PhaseMoves` | examples/tab-cluster/cluster-protocol.js:305-341 | under every event, exactly where the loop goes: who starts it, when it goes on, and that the wait for the transport ends with the pressure or after twenty beats |
| `Effects.OpensOver` | examples/tab-cluster/cluster-protocol.js:196-243 | every round is over exactly the peers heard within the drop time that are ready and running, and the leader if it is: in ascending order, for the batches they announced, over consecutive windows modulo 2^32, with the buckets to wait for that the policy asks of that many |
| `Effects.SentIs` | examples/tab-cluster/cluster-protocol.js:187-193 | every message of every event: who greets and with which flags, when a round, a publication or a bucket goes out, and what it carries, the rate included |
| `Effects.CollectionMoves` | examples/tab-cluster/cluster-protocol.js:216-257 | under every event, exactly what is being collected, and when a round was last heard or opened |
| `Effects.DriveIsKept` | examples/tab-cluster/cluster-protocol.js:430-435 | while a drive lasts, exactly which bucket is added to it and what settles it |
| `Effects.RosterIs` | examples/tab-cluster/cluster-protocol.js:379-392 | under every event, the whole roster: a greeting sets its sender to what it says, a stop included, any other message only refreshes it, a sender unknown before is neither ready nor running, and exactly those silent too long are forgotten |
| `Effects.GreetingCounts` | examples/tab-cluster/cluster-protocol.js:160-167 | after a hello or beat its sender is in the cohort if and only if it said it is ready and running |
| `Effects.ModelMoves` | examples/tab-cluster/cluster-protocol.js:259-303 | parameters, step and term under every event: exactly when a round is completed, exactly when one is adopted, otherwise untouched |
| `Majority.OpensForMajority` | examples/tab-cluster/cluster-protocol.js:216-228 | a round opened on a heartbeat, or under a policy for at least everyone on the roster, waits for more than half of its cohort |
| `Majority.CoverKept` | examples/tab-cluster/cluster-protocol.js:528 | a heartbeat leaves such a policy, and nothing but the first message of a newcomer undoes it |
| `Majority.MajorityAfterHeartbeat` | examples/tab-cluster/cluster-protocol.js:526-537 | so after a heartbeat, over any run in which nobody new is heard, every round opened waits for more than half of its cohort |
| `SplitBrain.RivalStandsDown` | examples/tab-cluster/cluster-protocol.js:485-493 | a round from a lower id ends a rival's claim: collection released and resolved, deferral of a takeover window, own parameters kept, one greeting sent |
| `SplitBrain.LowerStands` | examples/tab-cluster/cluster-protocol.js:408-411 | the lower id ignores the higher one's round |
| `SplitBrain.AdoptsOnlyLowest` | examples/tab-cluster/cluster-protocol.js:419-423 | exactly when a round is adopted: never from above the lowest rank known to be alive, ready and running, the rank itself included |
| `SplitBrain.SuppressedFalls` | examples/tab-cluster/cluster-protocol.js:305-329 | a rank that defers or hears a lower one only gets closer to idle, strictly with each resumption of its own |
| `SplitBrain.SuppressedOpens` | examples/tab-cluster/cluster-protocol.js:309-318 | exactly when such a rank still opens a round: when its wait for the transport ends |
| `SplitBrain.DeferringRivalOpens` | examples/tab-cluster/cluster-protocol.js:314-318 | the input that shows it: told to stand down in that wait, it opens a round of its stale parameters all the same |
| `SplitBrain.DeferringRivalFalls` | examples/tab-cluster/cluster-protocol.js:485-493 | over any run inside the takeover window: at most that one round, then idle after a bounded number of resumptions |
| `SplitBrain.StillKnown` | examples/tab-cluster/cluster-protocol.js:154-158 | a rank heard within the drop time stays known as ready and running through every event but its own word to the contrary |
| `SplitBrain.WordIsHeard` | examples/tab-cluster/cluster-protocol.js:383-392 | a ready and running rank's hello or beat makes it known and timely |
| `SplitBrain.DeferralMoves` | examples/tab-cluster/cluster-protocol.js:485-493 | the deferral moves exactly when a leading rank hears a round from below, and then to a takeover window from that moment |
| `SplitBrain.RunKnows` | examples/tab-cluster/cluster-protocol.js:383-392 | along any such run everyone goes on knowing the lowest id as ready and running |
| `SplitBrain.RivalFalls` | examples/tab-cluster/cluster-protocol.js:171-185 | in any cluster run in which the lowest id is heard, at every point each other rank's distance to idle shrinks by each of its own resumptions |
| `SplitBrain.RivalsFallToZero` | examples/tab-cluster/cluster-protocol.js:305-329 | so rivals only drop out, and none is left once each has had the resumptions its loop owed |
| `Publication.StopSends` | examples/tab-cluster/cluster-protocol.js:551-561 | stopping publishes at once exactly when an idle leader stops; a driving one leaves it to its loop |
| `Publication.ExitPublishes` | examples/tab-cluster/cluster-protocol.js:330-340 | a stopped rank's loop ends at its next condition and publishes what it then holds, with no assignment |
| `Publication.StoppedStep` | examples/tab-cluster/cluster-protocol.js:305-341 | for a stopped rank, rounds sent and rounds owed balance over every event |
| `Publication.FinalPublication` | examples/tab-cluster/cluster-protocol.js:330-341 | over any run after the stop: the last round sent, and the only one unless stopped in the transport wait, is the assignment-free publication of exactly what the rank holds as its loop ends |
| `Publication.StoppedRound` | examples/tab-cluster/cluster-protocol.js:305-329 | a stopped rank stays in its round until it completes it or its own gradients fail; otherwise nothing moves |
| `Publication.RoundInFlight` | examples/tab-cluster/cluster-protocol.js:330-341 | what it then holds: with a round in flight and no fault of its own gradients, exactly what completing that round applied, one step on; otherwise exactly what it held at the stop |
| `Publication.FinalModel` | examples/tab-cluster/cluster-protocol.js:465-483 | so any rank that adopts that last round holds, bit for bit, the leader's own final parameters, the flight's update applied |
| `Publication.NothingMore` | examples/tab-cluster/cluster-protocol.js:330-341 | once the loop has ended nothing more is published |
| `Publication.StoppedLoopEnds` | examples/tab-cluster/cluster-protocol.js:305-329 | the loop ends after a bounded number of its own resumptions |
| `Publication.StoodDownPublishes` | examples/tab-cluster/cluster-protocol.js:330-339 | a rival that stood down and is then stopped, its loop still alive, ends by publishing what it holds |
| `Publication.DisposedContributes` | examples/tab-cluster/cluster-protocol.js:446-456 | a bucket under way when its rank is disposed is sent all the same |
| `Publication.PublicationAdopted` | examples/tab-cluster/cluster-protocol.js:471-483 | whoever adopts a publication holds what its sender does as the wire delivers it, at its step, and is asked for nothing |
| `RankObject.TotalOf` | examples/tab-cluster/cluster-protocol.js:198-200 | the round size: own batch, then everyone else's |
| `RankObject.BatchesFor` | examples/tab-cluster/cluster-protocol.js:198-199 | the batch of each rank of the cohort, the own one when a member's is unknown |
| `RankObject.AssignWindows` | examples/tab-cluster/cluster-protocol.js:204-209 | the loop over the cohort yields the specified windows |
| `RankObject.AverageBuckets` | examples/tab-cluster/cluster-protocol.js:262-269 | the nested loops yield the sample-weighted mean |
| `RankObject.AddShare` | examples/tab-cluster/cluster-protocol.js:268 | one bucket's share is added to every coordinate and nothing else changes |
| `RankObject.Gather` | examples/tab-cluster/cluster-protocol.js:163-167 | exactly the ready and running members, and the rank itself if it is |
| `RankObject.LowestEligible` | examples/tab-cluster/cluster-protocol.js:171-178 | the lowest of them |
| `RankObject.RankObject.constructor` | examples/tab-cluster/cluster-protocol.js:125-146 | a new rank is in the initial state |
| `RankObject.RankObject.Turn` | examples/tab-cluster/cluster-protocol.js:116-573 | whatever wakes it, the object takes exactly the step of the protocol, sends exactly what that step sends, and keeps the invariant all safety theorems rest on |
| `RankObject.RankObject.Prune` | examples/tab-cluster/cluster-protocol.js:154-158 | in place, exactly the members silent too long go |
| `RankObject.RankObject.CohortIds` | examples/tab-cluster/cluster-protocol.js:163-167 | the cohort in ascending order, after pruning |
| `RankObject.RankObject.LeaderId` | examples/tab-cluster/cluster-protocol.js:171-178 | the least of the cohort, after pruning |
| `RankObject.RankObject.IsLeader` | examples/tab-cluster/cluster-protocol.js:184-185 | whether this rank leads; prunes only when it gets as far as electing |
| `RankObject.RankObject.DriveRound` | examples/tab-cluster/cluster-protocol.js:196-243 | up to the first await: cohort, windows, collection installed before the one announcement |
| `RankObject.RankObject.OnOwnGradients` | examples/tab-cluster/cluster-protocol.js:247-254 | resumption with the own bucket is the specified step |
| `RankObject.RankObject.AwaitBuckets` | examples/tab-cluster/cluster-protocol.js:250-254 | resolved on quorum, timer armed otherwise |
| `RankObject.RankObject.CompleteRound` | examples/tab-cluster/cluster-protocol.js:259-287 | average, apply, adopt the wire's result, advance |
| `RankObject.RankObject.OnCollected` | examples/tab-cluster/cluster-protocol.js:254-257 | resumption after the collection is the specified step |
| `RankObject.RankObject.ReleaseCollection` | examples/tab-cluster/cluster-protocol.js:324 | timer cleared, promise resolved, collection dropped |
| `RankObject.RankObject.OnFault` | examples/tab-cluster/cluster-protocol.js:320-327 | a fault releases the collection and backs off |
| `RankObject.RankObject.RunLoop` | examples/tab-cluster/cluster-protocol.js:309-340 | one turn of the loop condition is the specified step, publication on exit included |
| `RankObject.RankObject.StartLoop` | examples/tab-cluster/cluster-protocol.js:305-308 | at most one loop at a time |
| `RankObject.RankObject.OnTransport` | examples/tab-cluster/cluster-protocol.js:314-318 | the wait is re-evaluated for at most twenty beats |
| `RankObject.RankObject.SendFinal` | examples/tab-cluster/cluster-protocol.js:471-483 | the assignment-free round |
| `RankObject.RankObject.Receive` | examples/tab-cluster/cluster-protocol.js:379-437 | handling a message is the specified step |
| `RankObject.RankObject.ReceiveRound` | examples/tab-cluster/cluster-protocol.js:401-427 | handling a round is the specified step |
| `RankObject.RankObject.TakeParameters` | examples/tab-cluster/cluster-protocol.js:294-303 | adopting: parameters, step, ready, joining over |
| `RankObject.RankObject.StepAside` | examples/tab-cluster/cluster-protocol.js:485-493 | standing down is the specified step |
| `RankObject.RankObject.ReceiveGrad` | examples/tab-cluster/cluster-protocol.js:430-436 | a bucket is taken under exactly the specified conditions |
| `RankObject.RankObject.BeginContribution` | examples/tab-cluster/cluster-protocol.js:442-446 | at most one contribution under way |
| `RankObject.RankObject.OnContribution` | examples/tab-cluster/cluster-protocol.js:446-461 | the bucket goes out unless superseded |
| `RankObject.RankObject.Tick` | examples/tab-cluster/cluster-protocol.js:526-537 | the heartbeat is the specified step |
| `RankObject.RankObject.JoinTick` | examples/tab-cluster/cluster-protocol.js:503-517 | one turn of the joining timer is the specified step |
| `RankObject.RankObject.Start` | examples/tab-cluster/cluster-protocol.js:543-550 | starting is the specified step |
| `RankObject.RankObject.Stop` | examples/tab-cluster/cluster-protocol.js:551-561 | stopping is the specified step |
| `RankObject.RankObject.Dispose` | examples/tab-cluster/cluster-protocol.js:563-569 | disposing is the specified step |
| `MiniFloat.DecodeIsMagnitude` | examples/tab-cluster/cluster-bus.js:113-126 | a code is finite exactly below the format's limit, and its value is the signed magnitude of its sign-less part |
| `MiniFloat.MagnitudeIncreasing` | examples/tab-cluster/cluster-bus.js:113-126 | for arbitrary exponent, mantissa and bias, the decoder is strictly increasing in the sign-less code |
| `MiniFloat.RoundCodeNearest` | examples/tab-cluster/cluster-bus.js:64-80 | conversion returns a finite code of least distance |
| `MiniFloat.RoundCodeOverflow` | examples/tab-cluster/cluster-bus.js:65-78 | conversion overflows exactly from the midpoint above the largest finite value (65520 in f16) |
| `MiniFloat.RoundCodeMono` | examples/tab-cluster/cluster-bus.js:64-80 | a larger magnitude never gets a smaller code |
| `MiniFloat.RoundCodeExact` | examples/tab-cluster/cluster-bus.js:83-91 | every finite value converts back to its own code |
| `MiniFloat.Embeds` | examples/tab-cluster/cluster-bus.js:103-108 | every finite value of a format is one of any wider format |
| `HalfPrecision.F32ToF16` | examples/tab-cluster/cluster-bus.js:53-81 | the bit arithmetic gives, for every f32 word, the code its exact value rounds to; ties to even in the normal range, away from zero below it; NaN stays NaN |
| `HalfPrecision.RoundWord` | examples/tab-cluster/cluster-bus.js:64-80 | the four branches of the rounding |
| `HalfPrecision.F16IsMini` | examples/tab-cluster/cluster-bus.js:84-91 | the f16 decoder agrees with the generic one on every code |
| `HalfPrecision.HalfRoundTrip` | examples/tab-cluster/cluster-bus.js:53-91 | encoding the decoded value of any non-NaN code gives the code back |
| `MiniFloat.RoundCodeTies` | examples/tab-cluster/cluster-bus.js:64-80 | of two codes equally near, conversion takes the larger one where subnormals round away from zero, and an even one elsewhere |
| `HalfPrecision.HalfTies` | examples/tab-cluster/cluster-bus.js:66-79 | so does the bit arithmetic: away from zero below 2^-14, even from there on |
| `HalfPrecision.NaNStaysNaN` | examples/tab-cluster/cluster-bus.js:60-63 | no NaN word becomes a number |
| `NearestCode.TableIsTheSort` | examples/tab-cluster/cluster-bus.js:135-149 | the table is the one and only stable sort of the finite codes by value |
| `NearestCode.BuildTable` | examples/tab-cluster/cluster-bus.js:135-149 | the filling and sorting loops build that table |
| `NearestCode.Search` | examples/tab-cluster/cluster-bus.js:152-170 | the binary search returns the specified code for every input, NaN and both ends included |
| `NearestCode.EncodeNearest` | examples/tab-cluster/cluster-bus.js:151-170 | the code is finite and no finite code is closer, saturation included |
| `NearestCode.EncodeTiesToEven` | examples/tab-cluster/cluster-bus.js:164-169 | a tie between different values goes to an even code |
| `NearestCode.SpecialsEncode` | examples/tab-cluster/cluster-bus.js:152-156 | NaN encodes to a NaN, and an infinity to the finite value furthest out on its side |
| `NearestCode.EncodeExact` | examples/tab-cluster/cluster-bus.js:152-170 | every finite value encodes to a code of the same value |
| `NearestCode.ZeroTakesTheSign` | examples/tab-cluster/cluster-bus.js:138-142 | both zeros are in the table and both encode to the sign-bit zero |
| `NearestCode.BuildBridge` | examples/tab-cluster/cluster-bus.js:182-191 | the bridge holds the nearest 8-bit code of every one of 65,536 f16 codes |
| `Quantize.KnownBytes` | examples/tab-cluster/cluster-bus.js:103-126 | the 8-bit formats in numbers: the codes of one, of the largest value (448 and 57344) and of the smallest |
| `Quantize.KnownHalves` | examples/tab-cluster/cluster-bus.js:84-91 | f16 in numbers: the codes of one, of 65504 and of 2^-24 |
| `Quantize.LargestPlaced` | examples/tab-cluster/cluster-bus.js:199-204 | the largest magnitude of a message is sent as 1024, or 192 in E4M3; a message of zeros keeps the scale one |
| `Quantize.MaxAbsKept` | examples/tab-cluster/cluster-bus.js:199-204 | the largest magnitude survives the wire, so the scale is reproduced |
| `Quantize.ElementIdempotent` | examples/tab-cluster/cluster-bus.js:206-221 | a scaled element that went through once comes back unchanged |
| `Quantize.OnWireIdempotent` | examples/tab-cluster/cluster-bus.js:306-312 | for every vector and every format, a second trip through the wire changes nothing |
| `Quantize.CodesIdempotentIff` | examples/tab-cluster/cluster-bus.js:206-221 | on 8-bit codes a second trip changes something exactly for elements whose f16 value is negative and within half the smallest 8-bit value of zero |
| `Quantize.PositiveZeroIff` | examples/tab-cluster/cluster-bus.js:155-169 | exactly which reals an 8-bit format takes for the positive zero, the tie included |
| `Quantize.TinyNegativeBecomesZero` | examples/tab-cluster/cluster-bus.js:206-221 | such inputs exist: the smallest negative f16 |
| `Quantize.ElementBounded` | examples/tab-cluster/cluster-bus.js:193-213 | nothing is read back beyond the target: no overflow, no saturation |
| `Quantize.ElementError` | examples/tab-cluster/cluster-bus.js:193-224 | a scaled element moves by at most what its store to f32 moves it, half an f16 step, and in the 8-bit formats half an 8-bit step |
| `Quantize.VectorElementError` | examples/tab-cluster/cluster-bus.js:198-224 | the same on a vector of any length, divided by its scale; nothing overflows or saturates |
| `Quantize.ByteMovesMoreIff` | examples/tab-cluster/cluster-bus.js:193-224 | an 8-bit element moves by more than the two half steps exactly when its stored word is an f16 tie, the f16 value an 8-bit tie, both go the same way, and the element lies strictly beyond the word on the other side |
| `Quantize.ByteVectorErrorIff` | examples/tab-cluster/cluster-bus.js:198-224 | the same on a vector of any length, divided by its scale |
| `Quantize.FloatsPushedTwice` | examples/tab-cluster/cluster-bus.js:198-224 | which f32 vectors meet: in E4M3 the second of [9343, 6621] is scaled just above 136.0625 and reads back as 128 over the scale |
| `Quantize.HalfVectorError` | examples/tab-cluster/cluster-bus.js:198-224 | in f16 every element moves by at most maxAbs·(2^-12 + 2^-25) |
| `Quantize.HalfVectorErrorIff` | examples/tab-cluster/cluster-bus.js:198-224 | and by more than maxAbs·2^-12 exactly when its scaled f32 word is an f16 tie of the top binade and the element lies strictly beyond it |
| `Quantize.FloatsDoublyRounded` | examples/tab-cluster/cluster-bus.js:198-224 | which f32 vectors meet: of [10239, 5122] the second reads back as 5119.5 |
| `Quantize.HalfVectorRelative` | examples/tab-cluster/cluster-bus.js:198-224 | in f16 an element of at least maxAbs·2^-24 keeps its relative size to 2^-11 |
| `Quantize.HalfRelativeError` | examples/tab-cluster/cluster-bus.js:53-81 | a scaled element of at least 2^-14 moves by at most 2^-11 of itself, both roundings included |
| `Quantize.StoredElementError` | examples/tab-cluster/cluster-bus.js:53-81 | a scaled element moves by at most 2^-2 plus what its store to f32 moved it |
| `Quantize.MovesMoreIff` | examples/tab-cluster/cluster-bus.js:53-81 | exactly when a scaled element moves by more than the 2^-2 of one rounding, as a test on the stored word |
| `Quantize.LargestMagnitude` | examples/tab-cluster/cluster-bus.js:199-203 | the loop finds the largest magnitude |
| `Quantize.QuantizeVector` | examples/tab-cluster/cluster-bus.js:198-213 | the loops fill exactly the specified codes and scale |
| `Quantize.DequantizeVector` | examples/tab-cluster/cluster-bus.js:215-224 | the loops fill exactly the specified values |
| `Frame.PayloadAligned` | examples/tab-cluster/cluster-bus.js:254-261 | the payload always starts at a multiple of four |
| `Frame.FrameRoundTrip` | examples/tab-cluster/cluster-bus.js:235-296 | decoding an encoded message, whatever the receiver is set to, gives it back, exactly at f32 and with the array as the wire makes it otherwise, if and only if its own fields leave the reserved names alone in the stated way |
| `Frame.SomeCodecReads` | examples/tab-cluster/cluster-bus.js:254-279 | what is assumed of JSON text, for the one header at hand, can be met for every header |
| `Frame.HeaderReads` | examples/tab-cluster/cluster-bus.js:239-252 | the receiver finds format and scale in the header, and exactly when removing the working fields leaves the sender's own |
| `Frame.ViewOfLayout` | examples/tab-cluster/cluster-bus.js:266-271 | a typed array read back at its own width is the array written |
| `Frame.FrameBytes` | examples/tab-cluster/cluster-bus.js:254-271 | the bytes of a frame: the length in four bytes, lowest first, the header text, 0x20 up to the least multiple of four, and every element in four, two or one byte, lowest first |
| `Frame.HeaderNames` | examples/tab-cluster/cluster-bus.js:239-252 | the names and values added to the header, as spelled |
| `Frame.FieldsRead` | examples/tab-cluster/cluster-bus.js:280-283 | which values of the working fields name an array and a format, as spelled |
| `Frame.DecodesTo` | examples/tab-cluster/cluster-bus.js:275-296 | for any bytes at all, whoever laid them out: exactly when they are rejected, and otherwise the value of every element from its own bytes |
| `Frame.EncodeFrame` | examples/tab-cluster/cluster-bus.js:235-273 | the buffer writes produce the specified frame |
| `Frame.DecodeFrame` | examples/tab-cluster/cluster-bus.js:275-296 | the buffer reads return what the specification decodes |
| `ProxyHost.QueueCorrect` | examples/tab-cluster/cluster-bus.js:415-473 | over any interleaving of arrivals and send outcomes: every message is exactly one of waiting, in flight, settled or dropped; small messages reach `send` in order; every round sent is the newest so far, with no small message waiting; bounds hold; one report a drop; nothing waits while a slot is free |
| `ProxyHost.StepIs` | examples/tab-cluster/cluster-bus.js:422-473 | every event exactly: waiting small messages go out oldest first, a round only once none of them is left, a full queue loses its oldest and a waiting round its place to a newer one, and nothing else is dropped but what the transport rejects |
| `ProxyHost.FreedSlot` | examples/tab-cluster/cluster-bus.js:422-430 | a slot that is freed goes to the oldest small message whenever one waits |
| `ProxyHost.DepthCounts` | examples/tab-cluster/cluster-bus.js:419-420 | the depth reported is the number of arrivals neither settled nor dropped |
| `ProxyHost.StepKeeps` | examples/tab-cluster/cluster-bus.js:432-454 | every event keeps all of it, and every settlement shortens the queue |
| `ProxyHost.PumpKeeps` | examples/tab-cluster/cluster-bus.js:432-454 | pumping keeps the invariant and ends with nothing waiting or every slot busy |
| `ProxyHost.Drains` | examples/tab-cluster/cluster-bus.js:445-452 | once arrivals stop, settlements empty the queue |
| `ProxyHost.ZeroQueueMisreports` | examples/tab-cluster/cluster-bus.js:466-470 | with a queue bound of zero a message is reported dropped yet kept |
| `ProxyHost.Proxy.constructor` | examples/tab-cluster/cluster-bus.js:415-417 | a new queue is empty |
| `ProxyHost.Proxy.TakeNext` | examples/tab-cluster/cluster-bus.js:422-430 | small messages first, then the waiting round |
| `ProxyHost.Proxy.RunPump` | examples/tab-cluster/cluster-bus.js:432-454 | the pump loop performs the specified sends |
| `ProxyHost.Proxy.OnMessage` | examples/tab-cluster/cluster-bus.js:457-473 | an arrival is the specified step |
| `ProxyHost.Proxy.OnSettled` | examples/tab-cluster/cluster-bus.js:445-452 | a settlement is the specified step |
| `Mlp.LayerAdjoint` | android/rlx-jni/examples/gen_mnist_assets.rs:172-189 | pairing the error with a layer's response to a move is pairing the outer products and column sums with the move |
| `Mlp.ErrorMovesBack` | android/rlx-jni/examples/gen_mnist_assets.rs:190-203 | moving the error back through the second layer is the adjoint of moving hidden values forward |
| `Mlp.SecondLayerGradient` | android/rlx-jni/examples/gen_mnist_assets.rs:172-189 | for all dimensions and moves: error against the second layer's response is batch times (dw2, db2) against the move |
| `Mlp.FirstLayerGradient` | android/rlx-jni/examples/gen_mnist_assets.rs:190-221 | the same through the ReLU mask for (dw1, db1) |
| `Mlp.BackpropSecondLayer` | android/rlx-jni/examples/gen_mnist_assets.rs:142-189 | the backward pass gives the exact change of the logits paired with the error, for every move of the second layer |
| `Mlp.BackpropFirstLayer` | android/rlx-jni/examples/gen_mnist_assets.rs:142-221 | and for every move of the first layer that crosses no ReLU kink |
| `Mlp.StepDescends` | android/rlx-jni/examples/gen_mnist_assets.rs:223-234 | a move of minus lr times a gradient pairs with it to minus lr times its squares |
| `Mlp.SecondLayerStep` | android/rlx-jni/examples/gen_mnist_assets.rs:138-235 | the step a mini-batch takes in the second layer's buffers moves the logits against their error, by exactly batch·lr times the squares of that layer's gradients |
| `Mlp.FirstLayerStep` | android/rlx-jni/examples/gen_mnist_assets.rs:138-235 | and so does the step in the first layer's buffers, while it crosses no ReLU kink |
| `Mlp.MatMul` | android/rlx-jni/examples/gen_mnist_assets.rs:70-82 | the triple loop computes the matrix product into the flat buffer |
| `Mlp.AddBiasRows` | android/rlx-jni/examples/gen_mnist_assets.rs:84-90 | the bias is added to every row in place |
| `Mlp.ReluInplace` | android/rlx-jni/examples/gen_mnist_assets.rs:92-98 | negatives become zero in place, nothing else changes |
| `Mlp.Forward` | android/rlx-jni/examples/gen_mnist_assets.rs:100-107 | the buffers compute the two-layer network |
| `Mlp.WeightGradient` | android/rlx-jni/examples/gen_mnist_assets.rs:174-182 | the loops compute the averaged outer product |
| `Mlp.BiasGradient` | android/rlx-jni/examples/gen_mnist_assets.rs:183-189 | the loops compute the averaged column sums |
| `Mlp.HiddenError` | android/rlx-jni/examples/gen_mnist_assets.rs:190-203 | the loops compute the masked error moved back |
| `Mlp.Backward` | android/rlx-jni/examples/gen_mnist_assets.rs:172-221 | the four gradient buffers are those of the specification |
| `Mlp.BatchBackward` | android/rlx-jni/examples/gen_mnist_assets.rs:142-221 | forward and backward over one mini-batch |
| `Mlp.Update` | android/rlx-jni/examples/gen_mnist_assets.rs:223-234 | each weight moves by minus lr times its gradient, in place |
| `Mlp.TrainBatch` | android/rlx-jni/examples/gen_mnist_assets.rs:138-235 | one mini-batch steps all four weight buffers against their gradients |
| `Highlight.DecodeEscape` | examples/tab-cluster/highlight.js:79-84 | escaping is undone by decoding entities |
| `Highlight.EscapeIsClean` | examples/tab-cluster/highlight.js:79-84 | escaped text holds no markup character |
| `Highlight.PiecesAreTheCode` | examples/tab-cluster/highlight.js:87-101 | the pieces concatenate to the source: nothing lost, nothing twice |
| `Highlight.HighlightLossless` | examples/tab-cluster/highlight.js:110-114 | for any ordered match list, stripping tags and decoding entities of the output gives the source, and no markup character survives outside tags |
| `Highlight.HighlightLinesLossless` | examples/tab-cluster/highlight.js:125-135 | the same for the joined lines, tokens split across newlines included |
| `Highlight.EachLineReadsBack` | examples/tab-cluster/highlight.js:125-135 | there are as many line spans as source lines, and each reads back as its own line |
| `Highlight.HighlightColors` | examples/tab-cluster/highlight.js:103-114 | read as a browser does, the output shows the source with every character of a match in a span of class `tok-` and its kind, and every other in none |
| `Highlight.HighlightLinesColors` | examples/tab-cluster/highlight.js:116-135 | the same line by line: every character inside the span of its line and there in the class of its match, also where a match runs over several lines; line breaks in no span |
| `Highlight.SplitJoin` | examples/tab-cluster/highlight.js:128 | joining parts without breaks and splitting gives them back |
| `Highlight.OneSpanPerLine` | examples/tab-cluster/highlight.js:125-135 | one span per source line |
| `Highlight.JoinSplit` | examples/tab-cluster/highlight.js:128 | splitting at newlines and joining gives the text back |
| `Highlight.Tokenize` | examples/tab-cluster/highlight.js:87-101 | the loop produces the specified pieces |
| `Highlight.HighlightCode` | examples/tab-cluster/highlight.js:110-114 | the loop produces the specified markup |
| `Highlight.AddToken` | examples/tab-cluster/highlight.js:127-133 | one token is spread over the lines as specified |
| `Highlight.HighlightLines` | examples/tab-cluster/highlight.js:125-135 | the loop produces the specified lines |

## Left out

- The WebRTC, DOM, worker and BroadcastChannel plumbing, and the wasm rank behind it: `grads`,
  `apply`, `params` and `set_params` are unknown functions of parameters, windows and rates.
- Faults of `apply`, `set_params` and of the bus inside `driveRound`, and the loss, throughput and
  state reports; a report is modelled only by the pruning of silent members it performs. The `step`
  and `backend` a member announces, which no decision reads, and the `cohort`, `loss` and `samples`
  fields of a round go with them.
- Pacing: how long a beat, a timer or the yield to the message queue takes.
- f32 and f64 rounding of scaling, averaging and of the backward pass, which are over reals; step
  numbers and window arithmetic beyond 2^53.
- NaN and infinite elements of a vector, beyond the encoder's own branches.
- JSON text and UTF-8: a codec that reads back the one header in question, trailing spaces or not.
- Frame.DecodeFrame: a reduced array whose scale is missing, not a number or zero is an error, where
  the source fills it with non-finite or converted values; format ids that name built-in object
  properties, and text that is no JSON object, are not modelled.
- The regular expressions of the grammars: any ordered match list is taken as input, and
  `highlightAll`, which only walks the page, is left out.
- `he_init`, softmax, the shuffle, accuracy and file reading of the asset generator: the error of
  the logits is any function of them.
- Agreement.GradientConserved: assumes that a bucket over a window is the mean over it, which the wasm
  rank is not here to show, and at reduced precision the wire rounds each bucket first; of a bucket
  without a window nothing is assumed.
- Reduce.Share: a weight with no samples at all is zero, not NaN; a completed round always holds
  the leader's own bucket, whose batch is positive.
- Reduce.At: a bucket shorter than `bucketLen` counts as zero beyond its end, not as NaN.
- RankObject.RankObject.ReceiveGrad: a bucket that arrives with a collection pending but no round
  driven does nothing; `RankSafety.ValidKept` shows that this cannot happen.
- HalfPrecision.F32ToF16 and several nested loops are split in two methods each, and sorting is
  modelled by its result (the cohort) or by insertion (the value table).
