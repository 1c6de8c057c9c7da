/** The prober's loop, read backwards: where it stands is explained by the step that led
    there, and what a step does to its counters, timers and baseline depends on where it
    stood. */
module Loop {
  import opened Types
  import opened Channel
  import D = DirectSlot
  import Rtt

  // ------------------------------------------------------------ what steps find

  /** The prober saw a peering up. */
  predicate PassesMeshGate(s: State, l: Label) {
    l == Probe && s.prober.pc == MeshGate && s.peers > 0
  }

  /** The prober found recent activity. */
  predicate PassesIdleGate(s: State, l: Label) {
    l == Probe && s.prober.pc == IdleGate && s.d.now - s.lastActive <= PROBE_IDLE_LIMIT
  }

  /** The two bytes that came back are the ping. */
  predicate GetsEcho(s: State, l: Label) {
    l == Echo(Echoed(PROBE_PING)) && s.prober.pc.RoundTrip?
  }

  /** `probeHealthy` accepts the round trip. */
  predicate JudgesHealthy(s: State, l: Label) {
    l == Probe && s.prober.pc.Judging? && Rtt.Judge(s.probeRTT, s.prober.pc.elapsed).healthy
  }

  /** A probe failed and the connection still lives. */
  predicate LivingFailure(s: State, l: Label) {
    l == Probe && s.prober.pc == AfterFailure && D.ConnAlive(s.d)
  }

  /** The prober finds the client idle for too long. */
  predicate FindsIdle(s: State, l: Label) {
    l == Probe && s.prober.pc == IdleGate && s.d.now - s.lastActive > PROBE_IDLE_LIMIT
  }

  /** The prober's reason to drop: at least the second failure of a streak on a living
      connection, a failed probe without a living connection, or an unhealthy round trip
      of a path that was verified when the iteration began. */
  predicate ReasonToDrop(s: State, l: Label, kind: DropKind) {
    match kind
    case Streak => LivingFailure(s, l) && s.prober.failStreak + 1 >= PROBE_FAIL_STREAK_LIMIT
    case Gone => l == Probe && s.prober.pc == AfterFailure && !D.ConnAlive(s.d)
    case SlowRtt =>
      l == Probe && s.prober.pc.Judging? && s.prober.pc.was
      && !Rtt.Judge(s.probeRTT, s.prober.pc.elapsed).healthy
  }

  /** A successful round trip, or the end of the downgrade of a vanished connection. */
  predicate EndsStreak(s: State, l: Label) {
    GetsEcho(s, l) || (l == Probe && s.prober.pc == DropShow(Gone))
  }

  /** The path was verified: from here on the prober is on the slow cadence. */
  predicate SlowsDown(s: State, l: Label) {
    l == Probe && s.prober.pc == ShowVerified
  }

  /** Idle shutdown or a vanished connection: back to the fast cadence. */
  predicate SpeedsUp(s: State, l: Label) {
    l == Probe && (s.prober.pc == IdleShow || s.prober.pc == DropShow(Gone))
  }

  /** The prober's own call of `openStream` has this result. */
  predicate CallGave(s: State, res: D.OpResult) {
    Prober in s.d.ops && s.d.ops[Prober] == D.Returned(res)
  }

  /** The round trip fails: not exactly the ping comes back. */
  predicate LosesEcho(s: State, l: Label) {
    l.Echo? && s.prober.pc.RoundTrip? && l.echo != Echoed(PROBE_PING)
  }

  predicate FailsCall(s: State, l: Label) {
    l == Probe && s.prober.pc.InOpen? && CallGave(s, D.Failed)
  }

  predicate WakesUp(s: State, src: WakeUp) {
    match src
    case Timer => s.prober.timerOn
    case Fast => s.prober.fastOn
    case Slow => s.prober.slowOn
    case Stop => s.stopped
  }

  /** The step ends an iteration. */
  predicate EndsIteration(s: State) {
    match s.prober.pc
    case MeshGate => s.peers == 0
    case IdleCheck => !IsVerified(s)
    case IdleShow => true
    case InOpen(_, _) => CallGave(s, D.Cooldown)
    case AfterFailure => D.ConnAlive(s.d) && s.prober.failStreak + 1 < PROBE_FAIL_STREAK_LIMIT
    case Judging(was, elapsed) => !was && !Rtt.Judge(s.probeRTT, elapsed).healthy
    case ShowVerified => true
    case DropShow(_) => true
    case _ => false
  }

  // --------------------------------------------------------------- the table

  /** How the prober comes to stand at `pc`. */
  predicate ProbeArrives(s: State, l: Label, pc: ProbePc) {
    var from := s.prober.pc;
    match pc
    case Select => l == Probe && EndsIteration(s)
    case MeshGate => l.Wake? && from == Select && l.src != Stop && WakesUp(s, l.src)
    case Stopped => l == Wake(Stop) && from == Select && WakesUp(s, Stop)
    case IdleGate => PassesMeshGate(s, l)
    case IdleCheck => FindsIdle(s, l)
    case IdleMark => l == Probe && from == IdleCheck && IsVerified(s)
    case IdleShow => l == Probe && from == IdleMark
    case ReadVerified => PassesIdleGate(s, l)
    case SyncVerified => l == Probe && from == ReadVerified && !IsVerified(s)
    case SyncState => l == Probe && from == SyncVerified && !IsVerified(s)
    case SyncShow =>
      l == Probe && ((from == SyncVerified && IsVerified(s)) || (from == SyncState && s.probeState == H2H3))
    case Begin(was) =>
      l == Probe && (if was then from == ReadVerified && IsVerified(s)
                     else from == SyncShow || (from == SyncState && s.probeState != H2H3))
    case InOpen(was, start) => l == Probe && from == Begin(was) && start == s.d.now
    case RoundTrip(was, start, conn) => l == Probe && from == InOpen(was, start) && CallGave(s, D.Stream(conn))
    case AfterFailure => FailsCall(s, l) || LosesEcho(s, l)
    case Judging(was, elapsed) =>
      GetsEcho(s, l) && from.was == was && elapsed == s.d.now - from.start
    case Dropping(kind) => ReasonToDrop(s, l, kind)
    case DropMark(kind) => l == Probe && from == Dropping(kind)
    case DropShow(kind) => l == Probe && from == DropMark(kind)
    case Verifying => JudgesHealthy(s, l)
    case ShowVerified => Marks(s, l)
  }

  /** What a step does to the rest of the loop's state. */
  ghost predicate LoopEffects(s: State, l: Label, t: State) {
    && t.prober.failStreak ==
       (if EndsStreak(s, l) then 0 else if LivingFailure(s, l) then s.prober.failStreak + 1 else s.prober.failStreak)
    && t.prober.timerOn == (s.prober.timerOn && l != Wake(Timer) && !SlowsDown(s, l))
    && t.prober.slowOn == (if SlowsDown(s, l) then true else if SpeedsUp(s, l) then false else s.prober.slowOn)
    && t.prober.fastOn == (if SlowsDown(s, l) then false else if SpeedsUp(s, l) then true else s.prober.fastOn)
    && t.probeRTT == (if l == Probe && s.prober.pc.Judging? then Rtt.Judge(s.probeRTT, s.prober.pc.elapsed).base
                      else s.probeRTT)
  }

  /** A step of the prober moves it as the table says, and every other leaves it alone. */
  ghost predicate LoopStep(s: State, l: Label, t: State) {
    && (if OfProber(l) then t.prober.pc != s.prober.pc && ProbeArrives(s, l, t.prober.pc) else t.prober == s.prober)
    && LoopEffects(s, l, t)
  }

  // The table and the effects, step by step of the loop.

  lemma ArrivesOnWakeUp(s: State, l: Label, t: State)
    requires Step(s, l) == Some(t) && (l.Wake? || l.Echo?)
    ensures t.prober.pc != s.prober.pc && ProbeArrives(s, l, t.prober.pc)
  {
  }

  lemma EffectsOnWakeUp(s: State, l: Label, t: State)
    requires Step(s, l) == Some(t) && (l.Wake? || l.Echo?)
    ensures LoopEffects(s, l, t)
  {
  }

  lemma ArrivesAtGates(s: State, t: State)
    requires StepGates(s) == Some(t)
    ensures t.prober.pc != s.prober.pc && ProbeArrives(s, Probe, t.prober.pc)
  {
  }

  lemma EffectsAtGates(s: State, t: State)
    requires StepGates(s) == Some(t)
    ensures LoopEffects(s, Probe, t)
  {
  }

  lemma ArrivesInSync(s: State, t: State)
    requires StepSync(s) == Some(t)
    ensures t.prober.pc != s.prober.pc && ProbeArrives(s, Probe, t.prober.pc)
  {
  }

  lemma EffectsInSync(s: State, t: State)
    requires StepSync(s) == Some(t)
    ensures LoopEffects(s, Probe, t)
  {
  }

  lemma ArrivesAfterCall(s: State, t: State)
    requires StepProbe(s) == Some(t) && (s.prober.pc.InOpen? || s.prober.pc.AfterFailure?)
    ensures t.prober.pc != s.prober.pc && ProbeArrives(s, Probe, t.prober.pc)
  {
  }

  lemma EffectsAfterCall(s: State, t: State)
    requires StepProbe(s) == Some(t) && (s.prober.pc.InOpen? || s.prober.pc.AfterFailure?)
    ensures LoopEffects(s, Probe, t)
  {
  }

  lemma ArrivesInVerdict(s: State, t: State)
    requires StepVerdict(s) == Some(t)
    ensures t.prober.pc != s.prober.pc && ProbeArrives(s, Probe, t.prober.pc)
  {
  }

  lemma EffectsInVerdict(s: State, t: State)
    requires StepVerdict(s) == Some(t)
    ensures LoopEffects(s, Probe, t)
  {
  }

  lemma LoopOfProbe(s: State, t: State)
    requires StepProbe(s) == Some(t)
    ensures LoopStep(s, Probe, t)
  {
    if s.prober.pc.InOpen? || s.prober.pc.AfterFailure? {
      ArrivesAfterCall(s, t);
      EffectsAfterCall(s, t);
    } else if StepGates(s) == Some(t) {
      ArrivesAtGates(s, t);
      EffectsAtGates(s, t);
    } else if StepSync(s) == Some(t) {
      ArrivesInSync(s, t);
      EffectsInSync(s, t);
    } else {
      ArrivesInVerdict(s, t);
      EffectsInVerdict(s, t);
    }
  }

  lemma LoopOfStep(s: State, l: Label, t: State)
    requires Step(s, l) == Some(t)
    ensures LoopStep(s, l, t)
  {
    if l.Probe? {
      LoopOfProbe(s, t);
    } else if OfProber(l) {
      ArrivesOnWakeUp(s, l, t);
      EffectsOnWakeUp(s, l, t);
    } else {
      EffectsOfStep(s, l, t);
    }
  }

  lemma LoopAt(r: Run, i: nat)
    requires IsRun(r) && i < |r.labels|
    ensures LoopStep(r.states[i], r.labels[i], r.states[i + 1])
  {
    assert Linked(r, i);
    LoopOfStep(r.states[i], r.labels[i], r.states[i + 1]);
  }

  /** The prober stands where it stands because of one earlier step; only its start is
      without a cause. */
  lemma ProberCameFrom(r: Run, k: nat) returns (i: nat)
    requires IsRun(r) && k < |r.states| && r.states[k].prober.pc != Select
    ensures i < k && ProbeArrives(r.states[i], r.labels[i], r.states[k].prober.pc)
    ensures forall x :: i < x <= k ==> r.states[x].prober.pc == r.states[k].prober.pc
  {
    var pc := r.states[k].prober.pc;
    i := LastRise(r, (s: State) => s.prober.pc == pc, k);
    LoopAt(r, i);
  }
}
