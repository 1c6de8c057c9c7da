/** One iteration of the prober, read backwards: where the loop stands is explained by the
    step that led there, and so are the wake-ups, the measured times, the counted failures
    and the idle shutdown. */
module Probes {
  import opened Types
  import opened Channel
  import D = DirectSlot
  import opened Callers
  import opened Loop
  import opened Phases
  import opened Streaks
  import Rtt

  // ----------------------------------------------------------- what is measured

  /** The time that `probeHealthy` judges runs from the begin of the probe, before its call of
      `openStream`, to its echo; and the iteration counts as one of a verified path exactly
      if the path was verified when it looked. */
  lemma ElapsedIsProbeTime(r: Run, k: nat) returns (call: nat, stream: nat, echo: nat)
    requires IsRun(r) && k < |r.states| && r.states[k].prober.pc.Judging?
    ensures call < stream < echo < k && r.labels[call] == Probe && r.labels[stream] == Probe
    ensures r.states[call].prober.pc == Begin(r.states[k].prober.pc.was)
    ensures r.states[stream].prober.pc.InOpen? && r.states[echo].prober.pc.RoundTrip?
    ensures CallGave(r.states[stream], D.Stream(r.states[echo].prober.pc.conn))
    ensures GetsEcho(r.states[echo], r.labels[echo])
    ensures r.states[k].prober.pc.elapsed == r.states[echo].d.now - r.states[call].d.now
  {
    echo := ProberCameFrom(r, k);
    stream := ProberCameFrom(r, echo);
    call := ProberCameFrom(r, stream);
  }

  lemma WasVerifiedMeansSo(r: Run, k: nat) returns (read: nat)
    requires IsRun(r) && k < |r.states| && r.states[k].prober.pc == Begin(true)
    ensures read < k && r.labels[read] == Probe
    ensures r.states[read].prober.pc == ReadVerified && IsVerified(r.states[read])
    ensures forall x :: read < x <= k ==> r.states[x].prober.pc == Begin(true)
  {
    read := ProberCameFrom(r, k);
  }

  // ------------------------------------------------------------ what is counted

  /** A probe is taken for failed exactly if its call failed (and did not just find the path
      cooling down) or not exactly the ping came back. */
  lemma FailuresAreReal(r: Run, i: nat)
    requires IsRun(r) && i < |r.labels| && r.states[i].prober.pc != AfterFailure
    ensures r.states[i + 1].prober.pc == AfterFailure <==>
              FailsCall(r.states[i], r.labels[i]) || LosesEcho(r.states[i], r.labels[i])
  {
    LoopAt(r, i);
    if FailsCall(r.states[i], r.labels[i]) || LosesEcho(r.states[i], r.labels[i]) {
      FailureMoves(r.states[i], r.labels[i], r.states[i + 1]);
    }
  }

  lemma FailureMoves(s: State, l: Label, t: State)
    requires LoopStep(s, l, t) && (FailsCall(s, l) || LosesEcho(s, l))
    ensures t.prober.pc == AfterFailure
  {
  }

  /** An iteration that finds the path cooling down changes nothing of the loop. */
  lemma CooldownIsNoFailure(r: Run, i: nat)
    requires IsRun(r) && i < |r.labels| && r.labels[i] == Probe
    requires r.states[i].prober.pc.InOpen? && CallGave(r.states[i], D.Cooldown)
    ensures r.states[i + 1].prober == r.states[i].prober.(pc := Select)
    ensures r.states[i + 1].probeState == r.states[i].probeState
    ensures r.states[i + 1].verifiedUntil == r.states[i].verifiedUntil
  {
    assert Linked(r, i);
  }

  // ------------------------------------------------------------- idle shutdown

  lemma {:induction false} StaysInIdleExit(r: Run, i: nat, k: nat)
    requires IsRun(r) && i <= k < |r.states| && PhaseOf(r.states[i]) == IdleExit
    requires forall x :: i < x <= k ==> PhaseOf(r.states[x]) != AtSelect
    ensures PhaseOf(r.states[k]) == IdleExit
  {
    if i < k {
      StaysInIdleExit(r, i, k - 1);
      EdgeAt(r, k - 1);
    }
  }

  /** An iteration that finds the client idle looks at the cache: if the path is verified then,
      it runs MarkFailed before the loop goes on, and shows that it is probing again; if not,
      it changes nothing. */
  lemma IdleIterationClears(r: Run, i: nat, k: nat) returns (read: nat, clear: nat)
    requires IsRun(r) && i < k < |r.labels| && FindsIdle(r.states[i], r.labels[i])
    requires PhaseOf(r.states[k + 1]) == AtSelect && forall x :: i < x <= k ==> PhaseOf(r.states[x]) != AtSelect
    ensures i < read <= k && r.labels[read] == Probe && r.states[read].prober.pc == IdleCheck
    ensures if IsVerified(r.states[read]) then
              && read < clear < k && Clears(r.states[clear], r.labels[clear]) && r.labels[clear] == Probe
              && ShowsProbing(r.states[k], r.labels[k]) && SpeedsUp(r.states[k], r.labels[k])
            else read == k
  {
    LoopAt(r, i);
    FoundIdle(r, i);
    StaysInIdleExit(r, i + 1, k);
    EdgeAt(r, k);
    LoopAt(r, k);
    if r.states[k].prober.pc == IdleCheck {
      read, clear := k, 0;
    } else {
      clear := ProberCameFrom(r, k);
      read := ProberCameFrom(r, clear);
      assert read > i by {
        assert r.states[i].prober.pc == IdleGate;
        var gate := ProberCameFrom(r, read);
        assert gate >= i;
      }
    }
  }

  lemma FoundIdle(r: Run, i: nat)
    requires IsRun(r) && i < |r.labels| && FindsIdle(r.states[i], r.labels[i])
    ensures r.states[i + 1].prober.pc == IdleCheck
  {
    assert Linked(r, i);
  }

  // ------------------------------------------------------------------ wake-ups

  /** By the history of the run the prober is on the slow cadence: the path was verified with
      neither an idle shutdown nor a vanished connection since. */
  ghost predicate Slowed(r: Run, k: nat)
    requires k <= |r.labels| < |r.states|
  {
    exists j :: 0 <= j < k && SlowsDown(r.states[j], r.labels[j])
             && forall i :: j < i < k ==> !SpeedsUp(r.states[i], r.labels[i])
  }

  lemma WakesExactly(s: State, src: WakeUp)
    ensures Step(s, Wake(src)).Some? <==> s.prober.pc == Select && WakesUp(s, src)
  {
  }

  /** Which ticker wakes the prober: at its select, the slow one can if and only if the run is
      slowed down, and the fast one if and only if it is not; never both. */
  lemma TickersWakeExactly(r: Run, k: nat)
    requires IsRun(r) && k < |r.states| && r.states[k].prober.pc == Select
    ensures Step(r.states[k], Wake(Slow)).Some? <==> Slowed(r, k)
    ensures Step(r.states[k], Wake(Fast)).Some? <==> !Slowed(r, k)
  {
    OneCadence(r, k);
    WakesExactly(r.states[k], Slow);
    WakesExactly(r.states[k], Fast);
  }

  /** So the fast ticker never begins an iteration on a verified path. */
  lemma FastTickerSparesVerifiedPath(r: Run, i: nat)
    requires IsRun(r) && i < |r.labels| && r.labels[i] == Wake(Fast)
    ensures !Slowed(r, i) && !IsVerified(r.states[i])
  {
    assert Linked(r, i);
    WakesExactly(r.states[i], Fast);
    TickersWakeExactly(r, i);
    if IsVerified(r.states[i]) {
      VerifiedIsSlow(r, i);
    }
  }

  lemma {:induction false} TimerRuns(r: Run, k: nat)
    requires IsRun(r) && k < |r.states|
    ensures r.states[k].prober.timerOn <==>
              forall j :: 0 <= j < k ==> r.labels[j] != Wake(Timer) && !SlowsDown(r.states[j], r.labels[j])
    decreases k
  {
    if k > 0 {
      TimerRuns(r, k - 1);
      LoopAt(r, k - 1);
    }
  }

  /** The startup timer wakes the prober at its select as long as it has not done so and the
      path has not been verified: once, then never again. */
  lemma TimerWakesExactly(r: Run, k: nat)
    requires IsRun(r) && k < |r.states| && r.states[k].prober.pc == Select
    ensures Step(r.states[k], Wake(Timer)).Some? <==>
              forall j :: 0 <= j < k ==> r.labels[j] != Wake(Timer) && !SlowsDown(r.states[j], r.labels[j])
  {
    TimerRuns(r, k);
    WakesExactly(r.states[k], Timer);
  }

  lemma {:induction false} StoppedByClose(r: Run, k: nat)
    requires IsRun(r) && k < |r.states|
    ensures r.states[k].stopped <==> exists j :: 0 <= j < k && r.labels[j] == Close
    decreases k
  {
    if k > 0 {
      StoppedByClose(r, k - 1);
      EffectsAt(r, k - 1);
      assert r.labels[k - 1] == Close ==> 0 <= k - 1 < k;
    }
  }

  /** `Close`, and nothing else, stops the prober, at its next select; a stopped prober never
      takes another step. */
  lemma StopsExactly(r: Run, k: nat)
    requires IsRun(r) && k < |r.states|
    ensures r.states[k].prober.pc == Select ==>
              (Step(r.states[k], Wake(Stop)).Some? <==> exists j :: 0 <= j < k && r.labels[j] == Close)
    ensures r.states[k].prober.pc == Stopped && k < |r.labels| ==> r.states[k + 1].prober.pc == Stopped
  {
    StoppedByClose(r, k);
    WakesExactly(r.states[k], Stop);
    if k < |r.labels| && r.states[k].prober.pc == Stopped {
      LoopAt(r, k);
      assert Linked(r, k);
    }
  }

  // ------------------------------------------------------------------ baseline

  /** Times do not run backwards within a probe. */
  predicate TimesInv(s: State) {
    && (s.prober.pc.InOpen? || s.prober.pc.RoundTrip? ==> s.prober.pc.start <= s.d.now)
    && (s.prober.pc.Judging? ==> s.prober.pc.elapsed >= 0)
  }

  lemma {:induction false} TimesRunInv(r: Run, k: nat)
    requires IsRun(r) && k < |r.states|
    ensures TimesInv(r.states[k])
  {
    if k > 0 {
      TimesRunInv(r, k - 1);
      LoopAt(r, k - 1);
      EffectsAt(r, k - 1);
    }
  }

  predicate Judges(s: State, l: Label) {
    l == Probe && s.prober.pc.Judging?
  }

  /** The round trips that `probeHealthy` has judged so far, in order. */
  ghost function Samples(r: Run, k: nat): seq<nat>
    requires IsRun(r) && k <= |r.labels|
    decreases k
  {
    if k == 0 then []
    else if Judges(r.states[k - 1], r.labels[k - 1]) then
      (TimesRunInv(r, k - 1); Samples(r, k - 1) + [r.states[k - 1].prober.pc.elapsed])
    else Samples(r, k - 1)
  }

  /** The baseline of the running client is that of the detector fed with the measured round
      trips, so that all that is proved of the detector holds of the client. */
  lemma {:induction false} BaselineFollowsProbes(r: Run, k: nat)
    requires IsRun(r) && k < |r.states|
    ensures r.states[k].probeRTT == Rtt.Final(Rtt.NO_BASELINE, Samples(r, k))
    decreases k
  {
    if k > 0 {
      BaselineFollowsProbes(r, k - 1);
      LoopAt(r, k - 1);
      if Judges(r.states[k - 1], r.labels[k - 1]) {
        TimesRunInv(r, k - 1);
        var elapsed: nat := r.states[k - 1].prober.pc.elapsed;
        Rtt.Concat(Rtt.NO_BASELINE, Samples(r, k - 1), [elapsed]);
        assert [elapsed][1..] == [];
      }
    }
  }
}
