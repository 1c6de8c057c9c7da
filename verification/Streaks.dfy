/** The prober's failure streak and its two cadences, over every run. */
module Streaks {
  import opened Types
  import opened Channel
  import opened Loop
  import D = DirectSlot

  /** The number of probe failures on a living connection among the steps [lo, hi). */
  ghost function LivingFailures(r: Run, lo: nat, hi: nat): nat
    requires lo <= hi <= |r.labels| < |r.states|
    decreases hi
  {
    if lo == hi then 0
    else LivingFailures(r, lo, hi - 1) + (if LivingFailure(r.states[hi - 1], r.labels[hi - 1]) then 1 else 0)
  }

  /** The step after the last one before k that ended a streak; 0 if there is none. */
  ghost function StreakStart(r: Run, k: nat): (lo: nat)
    requires k <= |r.labels| < |r.states|
    ensures lo <= k
    ensures lo > 0 ==> EndsStreak(r.states[lo - 1], r.labels[lo - 1])
    ensures forall i :: lo <= i < k ==> !EndsStreak(r.states[i], r.labels[i])
  {
    if k == 0 then 0 else if EndsStreak(r.states[k - 1], r.labels[k - 1]) then k else StreakStart(r, k - 1)
  }

  /** `failStreak` is the number of living-connection failures since the last success
      or vanished connection; nothing else moves it. */
  lemma {:induction false} StreakCountsFailures(r: Run, k: nat)
    requires IsRun(r) && k < |r.states|
    ensures r.states[k].prober.failStreak == LivingFailures(r, StreakStart(r, k), k)
  {
    if k > 0 {
      StreakCountsFailures(r, k - 1);
      LoopAt(r, k - 1);
    }
  }

  /** A failure on a living connection downgrades exactly when it is at least the
      second one of its streak, and no other step starts a streak downgrade. */
  lemma StreakDropsExactlyFromTwo(r: Run, i: nat)
    requires IsRun(r) && i < |r.labels|
    ensures LivingFailure(r.states[i], r.labels[i]) ==>
              (r.states[i + 1].prober.pc == Dropping(Streak) <==> LivingFailures(r, StreakStart(r, i), i + 1) >= 2)
    ensures r.states[i + 1].prober.pc == Dropping(Streak) && r.states[i].prober.pc != Dropping(Streak) ==>
              LivingFailure(r.states[i], r.labels[i])
  {
    LoopAt(r, i);
    StreakCountsFailures(r, i);
  }

  lemma {:induction false} FailureAmong(r: Run, lo: nat, hi: nat) returns (j: nat)
    requires lo <= hi <= |r.labels| < |r.states| && LivingFailures(r, lo, hi) > 0
    ensures lo <= j < hi && LivingFailure(r.states[j], r.labels[j])
    decreases hi
  {
    if LivingFailure(r.states[hi - 1], r.labels[hi - 1]) {
      j := hi - 1;
    } else {
      j := FailureAmong(r, lo, hi - 1);
    }
  }

  /** One lost probe after a success never downgrades: a streak downgrade that starts
      at step i after a success at step e has another failure between the two. */
  lemma OneLostProbeNeverDowngrades(r: Run, e: nat, i: nat) returns (j: nat)
    requires IsRun(r) && e < i < |r.labels| && EndsStreak(r.states[e], r.labels[e])
    requires r.states[i].prober.pc != Dropping(Streak) && r.states[i + 1].prober.pc == Dropping(Streak)
    ensures e < j < i && LivingFailure(r.states[j], r.labels[j])
  {
    StreakDropsExactlyFromTwo(r, i);
    j := FailureAmong(r, StreakStart(r, i), i);
  }

  /** Exactly one cadence is enabled at any time, and it is the slow one exactly when
      the path was verified at some step with neither an idle shutdown nor a vanished
      connection since: a streak or a slow round trip does not bring the fast one back. */
  lemma OneCadence(r: Run, k: nat)
    requires IsRun(r) && k < |r.states|
    ensures r.states[k].prober.fastOn != r.states[k].prober.slowOn
    ensures r.states[k].prober.slowOn <==>
            exists j :: 0 <= j < k && SlowsDown(r.states[j], r.labels[j])
                     && forall i :: j < i < k ==> !SpeedsUp(r.states[i], r.labels[i])
  {
    RunInv(r, k);
    if r.states[k].prober.slowOn {
      var j := LastRise(r, (s: State) => s.prober.slowOn, k);
      LoopAt(r, j);
      forall i | j < i < k ensures !SpeedsUp(r.states[i], r.labels[i]) {
        LoopAt(r, i);
      }
    }
    forall j | 0 <= j < k && SlowsDown(r.states[j], r.labels[j])
             && forall i :: j < i < k ==> !SpeedsUp(r.states[i], r.labels[i])
      ensures r.states[k].prober.slowOn
    {
      StaysSlow(r, j, k);
    }
  }

  lemma {:induction false} StaysSlow(r: Run, j: nat, k: nat)
    requires IsRun(r) && j < k < |r.states| && SlowsDown(r.states[j], r.labels[j])
    requires forall i :: j < i < k ==> !SpeedsUp(r.states[i], r.labels[i])
    ensures r.states[k].prober.slowOn
  {
    LoopAt(r, k - 1);
    if j + 1 < k {
      StaysSlow(r, j, k - 1);
    }
  }

  /** The iteration found the path verified when it began, or is past a slow round trip
      of such a path. */
  predicate ActsOnVerified(pc: ProbePc) {
    match pc
    case Begin(was) => was
    case InOpen(was, _) => was
    case RoundTrip(was, _, _) => was
    case Judging(was, _) => was
    case Dropping(kind) => kind == SlowRtt
    case DropMark(kind) => kind == SlowRtt
    case DropShow(kind) => kind == SlowRtt
    case _ => false
  }

  /** The round trip of this iteration succeeded. */
  predicate PastRoundTrip(pc: ProbePc) {
    || pc.Judging? || pc.Verifying? || pc.ShowVerified?
    || pc == Dropping(SlowRtt) || pc == DropMark(SlowRtt) || pc == DropShow(SlowRtt)
  }

  /** A path that is or was just verified is on the slow cadence. */
  predicate SlowInv(s: State) {
    && (s.verifiedUntil > 0 && s.prober.pc != ShowVerified ==> s.prober.slowOn)
    && (ActsOnVerified(s.prober.pc) ==> s.prober.slowOn)
    && (PastRoundTrip(s.prober.pc) ==> s.prober.failStreak == 0)
  }

  lemma SlowInvStep(s: State, l: Label, t: State)
    requires Effects(s, l, t) && LoopStep(s, l, t) && SlowInv(s) && ProberInv(s)
    ensures SlowInv(t)
  {
  }

  lemma SlowInvAt(r: Run, i: nat)
    requires IsRun(r) && i < |r.labels| && SlowInv(r.states[i])
    ensures SlowInv(r.states[i + 1])
  {
    RunInv(r, i);
    EffectsAt(r, i);
    LoopAt(r, i);
    SlowInvStep(r.states[i], r.labels[i], r.states[i + 1]);
  }

  lemma {:induction false} SlowRunInv(r: Run, k: nat)
    requires IsRun(r) && k < |r.states|
    ensures SlowInv(r.states[k])
  {
    if k > 0 {
      SlowRunInv(r, k - 1);
      SlowInvAt(r, k - 1);
    }
  }

  /** A verified path is never on the fast cadence, but for the moment before the prober
      shows its verification. */
  lemma VerifiedIsSlow(r: Run, k: nat)
    requires IsRun(r) && k < |r.states| && IsVerified(r.states[k]) && r.states[k].prober.pc != ShowVerified
    ensures r.states[k].prober.slowOn && !r.states[k].prober.fastOn
  {
    SlowRunInv(r, k);
    RunInv(r, k);
  }

  /** How a downgrade by the prober leaves its loop. Only the one after a vanished
      connection brings the fast cadence back and resets the streak. After a slow round
      trip the slow cadence is on, always, and after a streak the cadence and the count
      stay, so that the next failure on a living connection downgrades again. */
  lemma CadenceAfterDowngrade(r: Run, i: nat)
    requires IsRun(r) && i < |r.labels| && r.labels[i] == Probe && r.states[i].prober.pc.DropShow?
    ensures var p, q := r.states[i].prober, r.states[i + 1].prober;
            && q.pc == Select && !IsVerified(r.states[i + 1])
            && match p.pc.kind
               case Gone => q.failStreak == 0 && q.fastOn && !q.slowOn
               case SlowRtt => q.failStreak == 0 && q.slowOn && !q.fastOn
               case Streak => q.failStreak == p.failStreak && q.slowOn == p.slowOn && q.fastOn == p.fastOn
  {
    RunInv(r, i);
    SlowRunInv(r, i);
    assert Linked(r, i);
  }
}
