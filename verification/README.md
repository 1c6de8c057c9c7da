# Verified model of the yggss channel selection and tunnel

yggss carries shadowsocks streams over two channels: a direct QUIC connection
over UDP ("h3") and a QUIC connection inside a Yggdrasil mesh session ("h2").
User streams take the direct channel only while a background prober vouches for
it. This project models that protocol and the code around it, and proves what it
guarantees in every run. `dafny verify dfyconfig.toml` checks everything.

## What is modelled

* **The concurrent core.** `DirectSlot` is `directClient`'s connection slot
  under `d.mu`, `MeshSlot` the cached mesh connection under `c.mu`, and
  `Channel` the whole client: one prober, any number of handlers, one watcher
  per connection and `Close`, over both slots, the Alt-Svc cache
  (`verifiedUntil`) and the displayed state. A step is one critical section or
  one decision between two; lock holders are explicit, because `openStream`
  keeps its lock while it dials. The scheduler and the environment choose freely
  among the enabled steps: connections die at any time, peerings come and go,
  dials, stream opens and echoes end any way. A `Run` is a sequence of states
  and the labels that link them; the theorems in `Ownership`, `Verification`,
  `Downgrades`, `Drops`, `Cooldowns`, `Dials`, `Probes`, `Streaks`,
  `IdleShutdown`, `InFlight`, `Delivery` and `Progress` are about every run, `Fairness` is about runs without
  end, and `Witnesses` holds runs that show what can happen.
* **The same code as objects.** `DirectClients.DirectClient`,
  `MeshClients.Client` and `Tunnel.TunnelClient` are the program's objects with
  methods that update their fields. A ghost copy of the slot machine rides along.
  Each method of the two slots is proved to perform exactly the machine's steps,
  its return included, with the answers of the environment as they were given, and
  so to keep the machine's invariants; the callers can call again, as the accept
  loop does.
* **Forwarding.** `Streams` is the server side of a stream (probe detection,
  replay of the peeked bytes, the copy loop), for every chunking, deadline and
  short write; `Pipe` is `pipe` with its two copiers and its caller under every
  interleaving, and `Traffic` any number of pipes over the counters they share.
* **Decision logic and arithmetic.** `Rtt` (degradation detector), `Failover`
  (hysteresis loop), `Status` (transit estimate, byte formatting), `Options`
  (plugin option string).

Time is in nanoseconds on one monotone clock. In `Channel`, `Marks` is the step
that runs `MarkVerified` and `Clears` a step that runs `MarkFailed`.

## Where the code and its comments differ

The model follows the code.

* `internal/yggss/direct.go:773-774` says that after a slow round trip "the fast
  cadence keeps checking". It never does: in every run the slow cadence is on after
  such a downgrade (`Streaks.CadenceAfterDowngrade`; `Witnesses.SlowRoundTripDowngrade`
  is a run with one). Nor does a streak downgrade reset the failure streak.
* "Verified" does not imply that a connection is there.
  `InFlight.VerifiedWithoutConnectionExactly` says exactly when a verified path has
  an empty slot, and `InFlight.WhyNoConnection` why: the probe that verified the path
  outlived its connection, or the slot was emptied after the verification, by `Close`
  (which leaves the cache as it is) or by a goroutine that has yet to run its
  `MarkFailed`. `Witnesses` has a run for each of these.
* `internal/yggss/direct.go:440-442` says that `dropConnLocked` is only called for dead
  connections. The prober's `dropAndFail` calls it for living ones too: after a streak
  or a slow round trip by design (`Witnesses.SlowConnectionDropped`), and for all three
  reasons because the reason is found in one critical section and the drop is another,
  so that a connection which a handler has dialled in between is ended for the fault of
  its predecessor (`Witnesses.FreshConnectionDropped`). `Drops.DropEndsExactly` says
  exactly which living connections a drop ends.
* `internal/yggss/direct.go:526-528` says that d.mu is held only for the dial and that
  streams on a working path never queue, and `internal/yggss/tunnel.go:375-378` that
  user traffic never waits for the direct path. The code holds d.mu while it opens a
  stream on a healthy connection, so a user stream of a verified path can wait behind
  another one for as long as that takes: `Witnesses.VerifiedHandlerWaits`.
* `internal/yggss/tunnel.go:298-299` speaks of activity as a new stream "or traffic
  through one"; only a new stream (and the start of the client) is recorded.
* Both directions of `pipe` count through `addTx`, while the status line reads the
  `rx` field of its first counter: `Traffic.ReceivedIsNeverCounted`.

## Model

| member | source | states |
|---|---|---|
| DirectSlot.InvStep | internal/yggss/direct.go:440-598 | every critical section of `openStream`, `watchConn`, `dropAndFail` and `Close` keeps single ownership of connection and transport, mutual exclusion on d.mu, the cooldown bounds and "exactly one watcher per connection" |
| DirectSlot.WatchStep | internal/yggss/direct.go:479-495 | every dialled connection keeps having exactly one watcher, started or about to be started by exactly one caller |
| MeshSlot.InvStep | internal/yggss/tunnel.go:400-481 | every step of the mesh half keeps mutual exclusion on c.mu, "nothing lives but the cached or just dialled connection" and "a cached connection is watched" |
| Channel.EffectsOfStep | internal/yggss/direct.go:333-352 | clock, cache, displayed state and activity stamp change only through the steps that own them, and exactly as these say: the cache is set by the prober's MarkVerified and zeroed by exactly the four kinds of MarkFailed step; h2+h3 is shown by the prober alone, the fallback state by the four kinds of downgrade |
| Channel.SlotsOfStep | internal/yggss/tunnel.go:380-469 | each step of the client is at most one step of the direct slot and one of the mesh slot |
| Channel.RunInv | internal/yggss/direct.go:618-799 | in every reachable state of every run the slot invariants hold, exactly one cadence is on, and the prober's knowledge at each point of its iteration is sound |
| Phases.EdgeOfStep | internal/yggss/direct.go:653-797 | the prober's iteration moves only along its edges: the way to a verification is earned by a peering, recent activity, the exact echo and a healthy verdict, in this order |
| Ownership.SingleOwnership | internal/yggss/direct.go:443-452 | in every run at most one direct connection lives and at most one transport is open; while d.mu is free, every transport ever created is the slot's or closed, and the slot holds connection and transport or neither |
| Ownership.WhoEndsALiveConnection | internal/yggss/direct.go:522-565 | only the environment, the prober's `dropAndFail` or `Close` ends a live direct connection; `openStream`, failed stream opens included, and watchers never do |
| Ownership.SupersededWatcherTouchesNothing | internal/yggss/direct.go:479-495 | in every run, the watcher of a connection that somebody else removed from the slot changes nothing but its own place when it wakes, however much later |
| Ownership.SlotConnectionIsWatched | internal/yggss/direct.go:583-589 | the slot's connection has exactly one unfired watcher, running or about to be spawned by one caller |
| Ownership.DeadSlotConnectionIsCleared | internal/yggss/direct.go:476-489 | once the slot's connection is dead and d.mu free, its watcher can empty the slot, close the transport and start the cooldown, or can be spawned at once |
| Ownership.ConnectionNeverReturns | internal/yggss/direct.go:583-584 | a connection that has left the slot never comes back |
| Ownership.SingleMeshConnection | internal/yggss/tunnel.go:400-481 | at most one mesh connection lives; while c.mu is free it is the cached one, and a dead cached one can be cleared by its watcher |
| Ownership.MeshStreamIsPeered | internal/yggss/tunnel.go:407-469 | a mesh stream belongs to the connection cached when it is returned, and the same call saw a peering up at a step that had one |
| Ownership.HandlerFailsOnlyWithItsMeshAttempt | internal/yggss/tunnel.go:380-469 | `client.openStream` fails only if its own mesh attempt failed (no peering, no dial or no stream), however the direct attempt went |
| Delivery.CallGetsResult | internal/yggss/direct.go:534-594 | a call of `directClient.openStream` gets a stream iff its stream open succeeded, on that connection; the cooldown error iff the path cools down when it takes the lock; and a failure iff its stream open failed on a living connection, its first stream open on a new one failed, or its own dial failed |
| Delivery.FailedCallDialled | internal/yggss/direct.go:567-582 | the failure after a failed dial comes after a failed dial of the same call |
| Delivery.LivingConnectionIsUsed | internal/yggss/direct.go:546-556 | outside a cooldown a caller that takes the lock opens its stream on the living connection, and nobody dials while it lives |
| Delivery.MeshCallGetsResult | internal/yggss/tunnel.go:400-469 | the mesh half gives a stream iff it was opened, and an error iff no peering was up, the dial failed or the first stream open failed |
| Delivery.WhoEndsALiveMeshConnection | internal/yggss/tunnel.go:403-430 | a living mesh connection ends iff the environment ends it, a caller finds no peering, or a stream open on it fails |
| Delivery.LivingMeshConnectionIsUsed | internal/yggss/tunnel.go:407-430 | a caller that sees a peering opens its stream on the living cached connection; it comes to dial only without one, without a peering, or after its stream open failed |
| Delivery.DirectStreamIsDelivered | internal/yggss/tunnel.go:383-386 | once a handler's own direct call has a stream, its next step delivers that stream |
| Delivery.MeshHasReason | internal/yggss/tunnel.go:382-398 | a handler takes the mesh only after an unverified check or a failed direct call; after the failure it keeps the cache if a connection lives and clears it first if none does |
| Delivery.OutcomeIsEarned | internal/yggss/tunnel.go:380-469 | what a handler ends with is what the half it was in gave it |
| Verification.MarkIsSupported | internal/yggss/direct.go:662-783 | every MarkVerified has, within one iteration, a passed mesh gate, a passed idle gate, the exact echo and a healthy verdict before it |
| Verification.VerifiedSinceMark | internal/yggss/direct.go:333-360 | a verified path was marked less than 2 * retryPeriod ago and nobody ran MarkFailed since |
| Verification.VerifiedExactly | internal/yggss/direct.go:333-360 | `IsVerified` is true iff some earlier MarkVerified is less than 2 * retryPeriod old and no MarkFailed came after it |
| Verification.TTLInNumbers | internal/yggss/direct.go:355-625 | a verification counts for twice the configured retry period, or for a minute if that is unset |
| Verification.HandlerCheckHasEvidence | internal/yggss/tunnel.go:382-383 | whenever a handler is routed to the direct path, both hold: full evidence from one probe iteration, fresh within 2 * retryPeriod, with no MarkFailed since |
| Verification.PathStateMeans | internal/yggss/direct.go:405-417 | `PathState` says h2+h3 while a verification counts, and otherwise what was shown last, mesh only at the start |
| Verification.DowngradeIsSticky | internal/yggss/direct.go:460-472 | from a downgrade by the prober (`dropAndFail`, idle shutdown or stale-display sync) until its next MarkVerified no `IsVerified` check passes and `PathState` never says h2+h3, whatever the others do |
| IdleShutdown.NoProbeWhileIdle | internal/yggss/direct.go:668-681 | with no new stream, no probe passes the idle gate after the last activity plus `probeIdleLimit` |
| IdleShutdown.AtMostOneLateCall | internal/yggss/direct.go:605-690 | after that moment the prober calls `openStream` at most once |
| IdleShutdown.AtMostOneLateDial | internal/yggss/direct.go:605-690 | and starts at most one dial, so that UDP traffic of the prober does not go on while the user is away |
| IdleShutdown.AtMostOneLateMark | internal/yggss/direct.go:668-783 | after that moment at most one MarkVerified happens, of a probe in flight |
| IdleShutdown.IdlePathExpires | internal/yggss/direct.go:668-783 | from one TTL after that moment on the path is verified only within the TTL of that single late mark |
| Downgrades.NoDowngradeWithoutCause | internal/yggss/direct.go:460-583 | every MarkFailed ends one downgrade, in which its goroutine has been without a break since the cause: the caller's own dial failed, the watcher found its dead connection in the slot, the handler found no living connection after its direct attempt, or the prober found idleness, a streak of at least two, a vanished connection or an unhealthy round trip of a verified path; a transient error on a living connection is no cause |
| Downgrades.OneMarkFailedPerCause | internal/yggss/direct.go:460-583 | no cause explains two MarkFailed: nothing downgrades twice for one reason |
| Drops.DropEndsExactly | internal/yggss/direct.go:440-472 | a drop of the prober, for any of its three reasons, ends a living connection iff it lived when the reason was found and has been spared by the environment and `Close` since, or a handler dialled it after that and it has been spared since; when the reason is a vanished connection only the second is possible |
| Downgrades.FallbackIsShownSinceDowngrade | internal/yggss/direct.go:460-494 | while the fallback state is displayed, a downgrade showed it and nothing else was shown since |
| Progress.NoDeadlock | internal/yggss/direct.go:534-594 | in every reachable state the holder of d.mu, and that of c.mu, can take its next step, whatever the answer it waits for |
| Progress.CallTakesFewSteps | internal/yggss/direct.go:534-594 | a call of `directClient.openStream` has its result after at most six steps of its caller |
| Progress.HandlerTakesFewSteps | internal/yggss/tunnel.go:380-469 | a handler takes at most 17 steps of its own in `client.openStream`, whatever the others do |
| Fairness.LockIsFreed | internal/yggss/direct.go:534-587 | under fair scheduling d.mu is free again and again |
| Fairness.MeshLockIsFreed | internal/yggss/tunnel.go:400-469 | and so is c.mu |
| Fairness.EveryHandlerGetsDone | internal/yggss/tunnel.go:360-469 | under fair scheduling every handler gets done, with a stream or an error, however dials, stream opens, deaths and locks fall out |
| Cooldowns.FailureStep | internal/yggss/direct.go:460-487 | `failUntil` becomes now plus the cooldown exactly at a failed dial, a watcher's drop or `dropAndFail`, and is otherwise untouched |
| Cooldowns.FailUntilMonotone | internal/yggss/direct.go:310-313 | `failUntil` never decreases |
| Cooldowns.DialWaitsForCooldown | internal/yggss/direct.go:534-575 | every direct dial starts at least the cooldown after every failure recorded before it, by whomever |
| Cooldowns.QueuedCallersDoNotDial | internal/yggss/direct.go:535-539 | a caller served within the cooldown after a recorded failure leaves at once with the cooldown error and dials nothing |
| Cooldowns.FailedDialsSpreadOut | internal/yggss/direct.go:366-370 | n failed dials span at least 2(n-1) seconds |
| Dials.ProberCallIsGated | internal/yggss/direct.go:662-690 | each call of `openStream` by the prober follows, in one iteration, a mesh gate passed with a peering up and an idle gate passed with recent activity |
| Dials.ProberDialIsGated | internal/yggss/direct.go:614-690 | so does each dial of the prober: UDP traffic of the prober starts only on top of the mesh |
| Dials.HandlerDialIsChecked | internal/yggss/tunnel.go:380-383 | each direct dial of a handler follows a passed `IsVerified` check of the same call, and with it a full prober iteration (peering included) less than 2 * retryPeriod before that check |
| Loop.LoopOfStep | internal/yggss/direct.go:652-798 | each step of the loop moves the prober only as the branches of the loop allow, and streak, timers and baseline change exactly at the steps that own them |
| Probes.TickersWakeExactly | internal/yggss/direct.go:646-661 | at its select the slow ticker can wake the prober iff the path was verified with neither an idle shutdown nor a vanished connection since, and the fast one iff not |
| Probes.FastTickerSparesVerifiedPath | internal/yggss/direct.go:646-661 | the fast ticker never begins an iteration on a verified path |
| Probes.TimerWakesExactly | internal/yggss/direct.go:631-658 | the startup timer can wake the prober iff it has not done so and the path has never been verified |
| Probes.StopsExactly | internal/yggss/direct.go:654-656 | the prober can stop iff `Close` was called, and a stopped prober takes no step |
| Probes.ElapsedIsProbeTime | internal/yggss/direct.go:689-769 | the time judged runs from the begin of the probe, before its call of `openStream`, to its echo on the stream of that call |
| Probes.WasVerifiedMeansSo | internal/yggss/direct.go:682 | an iteration counts as one of a verified path only if the path was verified when it looked |
| Probes.FailuresAreReal | internal/yggss/direct.go:690-764 | a probe is taken for failed iff its call failed other than by cooldown, or not exactly the ping came back |
| Probes.CooldownIsNoFailure | internal/yggss/direct.go:691-694 | an iteration that finds the path cooling down changes nothing |
| Probes.IdleIterationClears | internal/yggss/direct.go:668-681 | an iteration that finds the client idle runs MarkFailed, shows "probing" and returns to the fast cadence iff the path is verified when it looks |
| Probes.BaselineFollowsProbes | internal/yggss/direct.go:502-520 | the running client's baseline is the detector's, fed with the judged round trips in order |
| Streaks.StreakCountsFailures | internal/yggss/direct.go:695-769 | `failStreak` is the number of failures on a living connection since the last good round trip or vanished connection |
| Streaks.StreakDropsExactlyFromTwo | internal/yggss/direct.go:706-708 | a failure on a living connection downgrades exactly when it is at least the second of its streak, and nothing else starts a streak downgrade |
| Streaks.OneLostProbeNeverDowngrades | internal/yggss/direct.go:372-376 | between a success and a streak downgrade lies another failure |
| Streaks.OneCadence | internal/yggss/direct.go:646-651 | exactly one cadence is on, and it is the slow one iff the path was verified with neither an idle shutdown nor a vanished connection since |
| Streaks.VerifiedIsSlow | internal/yggss/direct.go:646-797 | a verified path is on the slow cadence, but for the moment before its verification is shown |
| Streaks.CadenceAfterDowngrade | internal/yggss/direct.go:706-781 | after a vanished connection the streak is 0 and the fast cadence on; after a slow round trip of a verified path the streak is 0 and the slow cadence on, always; after a streak both stay as they are |
| InFlight.WhyNoConnection | internal/yggss/direct.go:443-603 | when a verified path has an empty slot, the step that emptied it last came while the probe that verified the path was in flight, or after the verification and then was `Close`, or that of a watcher, a redialling caller or the prober that still owes its MarkFailed |
| InFlight.VerifiedWithoutConnectionExactly | internal/yggss/direct.go:443-603 | a path is verified with an empty slot iff a MarkVerified still counts and nobody has dialled a connection since a step that emptied the slot |
| InFlight.SettledVerifiedHasConnection | internal/yggss/direct.go:443-603 | without `Close`, with no MarkFailed owed and with a connection at the time of the mark, a verified path has a connection |
| InFlight.ClearedUntilDialled | internal/yggss/direct.go:682-783 | with an empty slot, a cleared cache and no probe in flight, the path is not verified again before somebody's dial succeeds |
| Witnesses.VerifiedByProbeInFlight | internal/yggss/direct.go:488-492 | there is a run in which a probe verifies the path after the watcher cleared slot and cache |
| Witnesses.VerifiedAfterClose | internal/yggss/direct.go:597-603 | there is a run in which the path is verified after `Close`, with no probe in flight |
| Witnesses.VerifiedUntilWatcherClears | internal/yggss/direct.go:482-492 | there is a run in which it is, between a watcher's drop and its MarkFailed |
| Witnesses.VerifiedWhileRedialling | internal/yggss/direct.go:546-575 | there is a run in which it is, while a handler redials over a dead connection |
| Witnesses.VerifiedUntilProberClears | internal/yggss/direct.go:460-465 | there is a run in which it is, between the prober's drop and its MarkFailed |
| Witnesses.SlowRoundTripDowngrade | internal/yggss/direct.go:770-781 | there is a run with a downgrade after a slow round trip; it leaves the slow cadence on |
| Witnesses.SlowConnectionDropped | internal/yggss/direct.go:770-776 | there is a run in which the drop after a slow round trip ends the connection that was slow, alive |
| Witnesses.FreshConnectionDropped | internal/yggss/direct.go:695-776 | for each of the three reasons there is a run in which the drop ends a living connection that a handler has dialled since the reason was found |
| Witnesses.VerifiedHandlerWaits | internal/yggss/direct.go:526-556 | for every duration there is a run in which a handler of a verified path waits that long, unable to move, while another one opens a stream on the living connection |
| Witnesses.FairRunExists | internal/yggss/tunnel.go:360-469 | the fairness theorems are about something: there is a fair run without end in which a handler calls `openStream` |
| DirectClients.OnlyTheEnvironmentEnds | internal/yggss/direct.go:522-533 | a connection alive before a call of `openStream` and dead after it was ended by the environment |
| DirectClients.DirectClient.ConnAlive | internal/yggss/direct.go:421-438 | true iff the slot machine's connection lives |
| DirectClients.DirectClient.DropConnLocked | internal/yggss/direct.go:443-452 | connection and transport are closed and forgotten, and nothing else is |
| DirectClients.DirectClient.DropAndFail | internal/yggss/direct.go:460-472 | performs the machine's drop step, clears the cache and shows the fallback state |
| DirectClients.DirectClient.WatchConn | internal/yggss/direct.go:479-495 | performs the watcher's steps; only for the current connection are slot, cache and display touched |
| DirectClients.DirectClient.Close | internal/yggss/direct.go:597-603 | performs the machine's close step |
| DirectClients.DirectClient.ProbeHealthy | internal/yggss/direct.go:502-520 | verdict and new baseline are those of `Rtt.Judge` |
| DirectClients.DirectClient.Reuse | internal/yggss/direct.go:535-565 | the first half of `openStream`: cooldown error iff cooling down, a stream of the slot's connection iff the stream open succeeded, a transient error, or an emptied slot with the lock held for a dial; a living connection is tried |
| DirectClients.DirectClient.Connect | internal/yggss/direct.go:281-286 | a failed handshake closes its transport, a good one fills the slot |
| DirectClients.DirectClient.DialTransport | internal/yggss/direct.go:224-288 | a socket and a handshake: a new connection in the slot, or nothing left open and a failure to record |
| DirectClients.DirectClient.Dial | internal/yggss/direct.go:567-585 | a failed dial leaves the slot empty, cools down, clears the cache and shows the fallback state |
| DirectClients.DirectClient.OpenStream | internal/yggss/direct.go:534-594 | the whole call is a run of the caller's own steps of the slot machine up to its return with the same result; it keeps the machine's invariants, leaves all other callers and watchers where they were and the caller free to call again; a stream comes iff one was opened and belongs to the slot's connection, a living connection is tried, the cooldown error comes iff cooling down, and the cache is cleared iff a dial failed |
| DirectClients.CalmSlotIsWatched | internal/yggss/direct.go:583-589 | while no call is in progress the slot's connection has a waiting watcher |
| MeshClients.Client.Reuse | internal/yggss/tunnel.go:403-430 | a stream of the cached connection iff its stream open succeeded, or nothing cached and the lock still held; a living connection under a peering is tried |
| MeshClients.Client.Dial | internal/yggss/tunnel.go:452-468 | the new connection is cached and watched iff a stream opened on it |
| MeshClients.Client.OpenMeshStream | internal/yggss/tunnel.go:400-469 | the mesh half is a run of the caller's own steps of the mesh machine up to its return with the same result; it keeps the machine's invariants and leaves the caller free to call again; afterwards the returned stream's connection is cached, and after an error none is; a stream comes iff one was opened, and a usable cached connection is tried and, if that succeeds, is the one |
| MeshClients.WhatEnds | internal/yggss/tunnel.go:407-466 | a connection alive before a call of the mesh half and dead after it was ended by the environment, for want of a peering, or by a failed stream open |
| MeshClients.Client.WatchMeshConn | internal/yggss/tunnel.go:474-481 | performs the watcher's step: the cache is cleared iff it still holds that connection |
| Tunnel.TunnelClient.TryDirect | internal/yggss/tunnel.go:382-398 | one call of the direct half, whose stream is the result iff it opened one; after a failure the cache is kept only with a living connection in the slot, and cleared with the fallback shown otherwise |
| Tunnel.TunnelClient.OpenStream | internal/yggss/tunnel.go:380-469 | a verified path is tried, and the outcome is direct iff that call gave a stream, which is the outcome; an unverified path is not touched; otherwise the outcome is that of one call of the mesh half; whoever could call before can call again |
| Tunnel.TunnelClient.RunWatchers | internal/yggss/tunnel.go:474-481 | after the watchers of dead connections ran, neither slot holds a dead connection, and a direct one that was dead has cleared the cache and started the cooldown |
| Tunnel.TunnelClient.AcceptLoop | internal/yggss/tunnel.go:350-370 | over any number of user connections, with the environment and the watchers before each, an unverified path without a prober stays unverified: no stream goes direct, and the direct slot sees no step but those of the environment and the watchers |
| Rtt.JudgeInNumbers | internal/yggss/direct.go:505-519 | a round trip is healthy iff there is no baseline, or it is at most three times the baseline or at most a second; a healthy one moves the baseline by three tenths, rounded down, and an unhealthy one not at all |
| Rtt.RejectedSamplesLeaveNoTrace | internal/yggss/direct.go:509-518 | later verdicts and the baseline are as if the rejected samples had never been measured |
| Rtt.BaselineBetweenAcceptedSamples | internal/yggss/direct.go:505-518 | from a fresh start the first sample is accepted and the baseline stays between the least and greatest accepted sample, never back at "no baseline" |
| Rtt.DriftBound | internal/yggss/direct.go:509-518 | after n accepted samples 5^n * T_n <= 8^n * T_0 for the threshold T |
| Rtt.ConvergesToConstant | internal/yggss/direct.go:509-518 | a constant round trip accepted once is accepted for ever; the baseline comes within 3 ns of it, with a geometric bound, and stays there |
| Rtt.ConstantAboveThresholdIsNeverAccepted | internal/yggss/direct.go:509-515 | a constant round trip above the threshold is rejected for ever |
| Failover.DirectLinkLatency | internal/yggss/failover.go:136-143 | finds the first up peering with the server's key, and so decides "up and fast enough" for every limit |
| Failover.Run | internal/yggss/failover.go:81-132 | at every tick a removal is tried iff it and the two ticks before lie in one DIRECT stint and are all bad, a restore iff it and the one before lie in one MESH stint and are both good, for all samples and operation errors |
| Failover.NoFlapping | internal/yggss/failover.go:19-23 | successful removals R and restores A alternate, a removal first, and 3R + 2A never exceeds the number of ticks |
| Status.FormatBytes | internal/yggss/stats.go:207-218 | counts below 1024 are plain; otherwise the divisor is 1024^(exp+1) with div <= b < 1024*div, no 64-bit overflow and a unit letter in range |
| Status.FormatIsUnique | internal/yggss/stats.go:207-218 | no other power of 1024 satisfies that bound |
| Status.DeltaIsExact | internal/yggss/stats.go:166-167 | the wrapped 64-bit difference is the true one iff the true one fits int64 |
| Status.StatusLogger.ReportTransit | internal/yggss/stats.go:157-180 | remembers the totals and warns exactly about the volume `Warning` defines, without overflow in the subtraction |
| Status.StatusLogger.Report | internal/yggss/stats.go:76-85 | a report without peers restarts the estimate, any other runs it |
| Status.WarnsExactly | internal/yggss/stats.go:157-176 | in the true growth of the counters: a warning is due iff a previous report exists, neither counter was reset, and the links carried more than a mebibyte, and more than a fifth of their traffic, beyond the sessions; it names that excess |
| Status.WarningIsBounded | internal/yggss/stats.go:169-175 | a warned volume exceeds the threshold and is at most the link delta |
| Status.WarnedWithinLinkTraffic | internal/yggss/stats.go:157-180 | over any reports the warned volumes sum to at most the positive link deltas |
| Status.WarnedWithinCarried | internal/yggss/stats.go:157-180 | over reports with peers and growing counters they sum to at most what the links carried in all |
| Options.ParsePluginOptions | internal/yggss/sip003.go:51-62 | the loop computes the fold that `Parse` defines |
| Options.ParseConcat | internal/yggss/sip003.go:51-62 | parsing a + ";" + b is parsing a overridden by parsing b |
| Options.ParsePrint | internal/yggss/sip003.go:51-62 | printed canonical entries parse to the map they stand for, the last of equal keys winning |
| Options.RoundTrip | internal/yggss/sip003.go:51-62 | any canonical option map, printed in any order, parses back to itself |
| Options.ParseYieldsExactlyCanonical | internal/yggss/sip003.go:51-62 | a map is the parse of some string iff its keys are trimmed, lower-case and free of ';' and '=', and its values trimmed and free of ';' |
| Options.ParseMeans | internal/yggss/sip003.go:51-62 | for every string, a key has a value iff some piece sets it, and the last such piece decides |
| Options.KeysMeetExactly | internal/yggss/sip003.go:58-59 | two keys name the same option iff they differ in nothing but ASCII case, and values are kept as they are |
| Options.FlagPiece | internal/yggss/sip003.go:58-59 | a piece without "=" is a key with an empty value |
| Options.BlankIsNothing | internal/yggss/sip003.go:54-57 | white space sets nothing |
| Options.TrimMeans | internal/yggss/sip003.go:54-59 | trimming takes away all surrounding white space and nothing else |
| Options.ParseOfTrim | internal/yggss/sip003.go:51-74 | surrounding space never changes the options |
| Options.ConfigPathOf | internal/yggss/sip003.go:73-88 | for every string: the trimmed string itself if it has no "=" and ends in .json in any case, otherwise a non-empty "config" value, else the "c" value, of the options as they stand |
| Options.DocumentedForms | internal/yggss/sip003.go:64-72 | "c=path" and "config=path", alone or behind any other options, yield the path; "c" yields to another non-empty "config" |
| Streams.ReadLosesNothing | internal/yggss/tunnel.go:209-219 | one read and what is left make up the stream, whatever the buffer and the deadline, and an error is reported exactly when all before it has been delivered |
| Streams.ReadFull | internal/yggss/tunnel.go:212 | the peek takes the prompt bytes up to the buffer size and loses none |
| Streams.HandleProbeStream | internal/yggss/tunnel.go:209-219 | handled iff the first two bytes arrived in time and are the ping; then the ping is sent back as far as the peer takes it; otherwise nothing is, and the consumed bytes and the rest make up the stream |
| Streams.PrefixReader.Read | internal/yggss/tunnel.go:221-231 | the reader yields the peeked bytes and then the stream, loses nothing and reports the end exactly when both are used up |
| Streams.CopyCount | internal/yggss/tunnel.go:133-150 | exactly what comes before the first error arrives, as far as the destination takes it, and the copy ends with that error or the failed write; while other streams add to the same counter, its share grows by the bytes read and exceeds the bytes written by at most one buffer |
| Streams.HandleStream | internal/yggss/tunnel.go:233-250 | a probe is echoed and not forwarded; of any other stream nothing is echoed and exactly its content, peeked bytes included, reaches the upstream as far as that takes it, whatever deadlines the peek missed; the end is that of the stream |
| Pipe.PrefixAndCount | internal/yggss/tunnel.go:131-157 | under every interleaving, in each direction, written is a prefix of read, short by at most one buffer, and a copier with a counter has added the bytes read to it but for a chunk about to be counted |
| Pipe.NothingInvented | internal/yggss/tunnel.go:133-150 | what the target has taken is the first bytes of what the reads have brought, in order and without a gap |
| Pipe.StopsExactly | internal/yggss/tunnel.go:135-149 | a copier is on its way to the end iff a read of it ended with an error (end of file included) or a write of it failed |
| Pipe.NoReadAfterError | internal/yggss/tunnel.go:141-149 | after that it reads no more |
| Pipe.ClosesOnlyAfterError | internal/yggss/tunnel.go:151-155 | the endpoints are closed only after a direction has come to its end that way |
| Pipe.NothingLostWithoutWriteFailure | internal/yggss/tunnel.go:133-150 | a finished direction without a failed write has delivered all it read |
| Pipe.SendNeverBlocks | internal/yggss/tunnel.go:132-149 | neither copier ever blocks on `done` |
| Pipe.PipeReturns | internal/yggss/tunnel.go:117-157 | termination: once a direction has finished, no behaviour that does not starve the caller goes on for ever, and one that has ended, however silent the peers, has returned with both copiers finished |
| Pipe.PipeEndsAfterError | internal/yggss/tunnel.go:117-157 | termination from the error on: once a read has ended with an error or a write has failed, no behaviour that starves neither the caller nor that copier goes on for ever, and one that has ended has returned with both copiers finished and both ends closed |
| Pipe.FewStepsAfterClosing | internal/yggss/tunnel.go:153-157 | after both ends are closed at most nine steps are left |
| Traffic.SharedCounterIsTraffic | internal/yggss/tunnel.go:111-150 | over any number of pipes on the same counters, under every interleaving, a direction's counter has grown modulo 2^64 by the bytes all pipes have read in it but for the chunks about to be counted; that is between the bytes written and one buffer per pipe more |
| Traffic.ReceivedIsNeverCounted | internal/yggss/stats.go:92-95 | no pipe changes the `rx` field of a shared counter, which the status line reports as received |

## Left out

- QUIC, TLS, certificates and key pinning (`directServerTLS`, `tlsConfig`, `chromeTransportParams`): connections and transports are ids that live or are closed; how dials, stream opens and echoes end is the environment's choice.
- `startProber`: the loop is given by the steps of `Channel` and not also as a method, because what matters about it is the interleaving; the instants at which its timer and tickers fire are free.
- `DirectClients.DirectClient`: its methods run alone with the environment; interleaving with other goroutines is the subject of `Channel`, which has the same steps.
- `Fairness`: that no goroutine is starved (a mutex that is free again and again is granted, and every wait for the network ends, as the timeouts of dials and stream opens see to) is a hypothesis about Go and QUIC.
- `Tunnel.TunnelClient.AcceptLoop`: the handlers run one after the other, without the prober; their interleaving is the subject of `Channel`. Piping the accepted connections is `Pipe`.
- `Pipe`: that closing an endpoint makes its pending and later reads and writes fail is a hypothesis about the QUIC and TCP libraries.
- `Pipe.PipeReturns`: that the caller is not starved is a hypothesis about the Go scheduler; `Pipe.PipeEndsAfterError` needs that the copier is not starved and its last write is answered.
- `Streams.CopyCount`: a source whose deliveries run out is closed under the reader; a stream that stays silent for ever just keeps the copier waiting.
- `Streams.TunnelCounters`: wrap-around at 2^64 bytes is modelled in `Traffic` only.
- `Rtt.Judge`: the floating-point update is the exact floor((7b + 3r) / 10).
- `Status.FormatBytes`: the rendering of the quotient with one decimal; the caller's sums over peers and sessions are inputs.
- `Options.Lower`: lower-casing is that of ASCII; other letters are left alone.
- `serveDirectConn` and `handleConn`: the accept loops; each stream they accept is `Streams.HandleStream`, without counters on the direct path.
- A client without a direct endpoint: its handlers go straight to the mesh half.
- Test-only branches (no node, no mesh transport) and the `directDial` wrapper.
- The Yggdrasil node: only the number of peerings, its peer and session totals and the outcome of adding or removing a peering appear.
- `newFailoverMonitor`, `detectSIP003`, flag, JSON and environment handling, address parsing and listening, logging and status text.
