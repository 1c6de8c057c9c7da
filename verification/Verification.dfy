/** What a verified direct path means, over every run of the channel system. */
module Verification {
  import opened Types
  import opened Channel
  import opened Loop
  import opened Phases

  // ------------------------------------------------ one iteration, step by step

  predicate PastMeshGate(s: State) {
    PhaseOf(s) != AtSelect && PhaseOf(s) != AtMeshGate
  }

  /** On the way from the idle gate to MarkVerified. */
  predicate PastIdleGate(s: State) {
    PhaseOf(s) == Trying || PastEcho(s)
  }

  predicate PastEcho(s: State) {
    PhaseOf(s) == Answered || PhaseOf(s) == Passed
  }

  /** The steps of one prober iteration that lead to a MarkVerified at step `mark`. */
  datatype Evidence = Evidence(mesh: nat, idle: nat, echo: nat, healthy: nat, mark: nat)

  ghost predicate Supports(r: Run, e: Evidence) {
    && e.mesh < e.idle < e.echo < e.healthy < e.mark < |r.labels| < |r.states|
    && PassesMeshGate(r.states[e.mesh], r.labels[e.mesh])
    && PassesIdleGate(r.states[e.idle], r.labels[e.idle])
    && GetsEcho(r.states[e.echo], r.labels[e.echo])
    && JudgesHealthy(r.states[e.healthy], r.labels[e.healthy])
    && Marks(r.states[e.mark], r.labels[e.mark])
    // one iteration: the loop is not back at its select in between
    && (forall i :: e.mesh < i <= e.mark ==> PastMeshGate(r.states[i]))
  }

  lemma MarkIsSupported(r: Run, mark: nat) returns (e: Evidence)
    requires IsRun(r) && mark < |r.labels| && Marks(r.states[mark], r.labels[mark])
    ensures Supports(r, e) && e.mark == mark
  {
    var healthy := LastRise(r, (s: State) => PhaseOf(s) == Passed, mark);
    EdgeAt(r, healthy);
    var echo := LastRise(r, (s: State) => PastEcho(s), healthy);
    EdgeAt(r, echo);
    var idle := LastRise(r, (s: State) => PastIdleGate(s), echo);
    EdgeAt(r, idle);
    var mesh := LastRise(r, (s: State) => PastMeshGate(s), idle);
    EdgeAt(r, mesh);
    e := Evidence(mesh, idle, echo, healthy, mark);
    forall i | mesh < i <= mark
      ensures PastMeshGate(r.states[i])
    {
      if idle < i <= echo {
        assert PastIdleGate(r.states[i]);
      } else if echo < i <= healthy {
        assert PastEcho(r.states[i]);
      } else if healthy < i {
        assert PhaseOf(r.states[i]) == Passed;
      }
    }
  }

  // -------------------------------------------------- where verification comes from

  /** Whenever the path counts as verified, the prober marked it less than the TTL
      (twice the retry period) ago and no MarkFailed by anybody happened since. */
  lemma VerifiedSinceMark(r: Run, k: nat) returns (j: nat)
    requires IsRun(r) && k < |r.states| && IsVerified(r.states[k])
    ensures j < k && Marks(r.states[j], r.labels[j])
    ensures r.states[j].d.now <= r.states[k].d.now < r.states[j].d.now + 2 * r.states[0].retryPeriod
    ensures forall i :: j < i < k ==> !Clears(r.states[i], r.labels[i])
  {
    var v := r.states[k].verifiedUntil;
    RunInv(r, 0);
    j := LastRise(r, (s: State) => s.verifiedUntil == v, k);
    EffectsAt(r, j);
    ClockMonotone(r, 0, j);
    ClockMonotone(r, j, k);
    forall i | j < i < k
      ensures !Clears(r.states[i], r.labels[i])
    {
      EffectsAt(r, i);
    }
  }

  /** Step j's MarkVerified still counts at k: its TTL runs and nobody ran MarkFailed. */
  ghost predicate Vouches(r: Run, j: nat, k: nat) {
    && j < k <= |r.labels| < |r.states|
    && Marks(r.states[j], r.labels[j])
    && r.states[k].d.now < r.states[j].d.now + 2 * r.states[0].retryPeriod
    && forall i :: j < i < k ==> !Clears(r.states[i], r.labels[i])
  }

  lemma VouchStep(s: State, l: Label, t: State, until: int)
    requires Effects(s, l, t) && !Clears(s, l) && until <= s.d.now + VerifyTTL(s)
    requires Marks(s, l) || until <= s.verifiedUntil
    ensures until <= t.verifiedUntil
  {
  }

  lemma VouchAt(r: Run, i: nat, until: int)
    requires IsRun(r) && i < |r.labels| && !Clears(r.states[i], r.labels[i])
    requires until <= r.states[i].d.now + VerifyTTL(r.states[i])
    requires Marks(r.states[i], r.labels[i]) || until <= r.states[i].verifiedUntil
    ensures until <= r.states[i + 1].verifiedUntil
  {
    EffectsAt(r, i);
    VouchStep(r.states[i], r.labels[i], r.states[i + 1], until);
  }

  lemma {:induction false} VouchedUntil(r: Run, j: nat, k: nat)
    requires IsRun(r) && j < k < |r.states| && Marks(r.states[j], r.labels[j])
    requires forall i :: j < i < k ==> !Clears(r.states[i], r.labels[i])
    ensures r.states[j].d.now + VerifyTTL(r.states[j]) <= r.states[k].verifiedUntil
  {
    if j + 1 < k {
      VouchedUntil(r, j, k - 1);
    }
    ClockMonotone(r, j, k - 1);
    VouchAt(r, k - 1, r.states[j].d.now + VerifyTTL(r.states[j]));
  }

  /** The TTL in terms of the configured retry period: twice that, or a minute if it is unset. */
  lemma TTLInNumbers(s: State, configured: int)
    requires s.retryPeriod == EffectiveRetry(configured)
    ensures VerifyTTL(s) == if configured > 0 then 2 * configured else 60_000_000_000
  {
  }

  /** The Alt-Svc cache means exactly this: the path is verified if and only if some
      earlier MarkVerified still counts. */
  lemma VerifiedExactly(r: Run, k: nat)
    requires IsRun(r) && k < |r.states|
    ensures IsVerified(r.states[k]) <==> exists j: nat :: Vouches(r, j, k)
  {
    if IsVerified(r.states[k]) {
      var j := VerifiedSinceMark(r, k);
      assert Vouches(r, j, k);
    }
    forall j: nat | Vouches(r, j, k)
      ensures IsVerified(r.states[k])
    {
      VouchedUntil(r, j, k);
      RunInv(r, 0);
      ClockMonotone(r, 0, j);
    }
  }

  /** A user handler's stream is routed to the direct path only with fresh evidence:
      when its check of `IsVerified` passes, one earlier prober iteration saw a peering
      and recent activity, got exactly the ping back, found the round trip healthy and
      marked the path verified less than 2 * retryPeriod ago, with no MarkFailed since. */
  lemma HandlerCheckHasEvidence(r: Run, k: nat, t: Tid) returns (e: Evidence)
    requires IsRun(r) && k < |r.labels| && r.labels[k] == Handle(t)
    requires t in r.states[k].handlers && r.states[k].handlers[t] == Check
    requires r.states[k + 1].handlers == r.states[k].handlers[t := InDirect]
    ensures Supports(r, e) && e.mark < k
    ensures r.states[e.mark].d.now <= r.states[k].d.now < r.states[e.mark].d.now + 2 * r.states[0].retryPeriod
    ensures forall i :: e.mark < i < k ==> !Clears(r.states[i], r.labels[i])
  {
    CheckPasses(r, k, t);
    var j := VerifiedSinceMark(r, k);
    e := MarkIsSupported(r, j);
  }

  lemma CheckPasses(r: Run, k: nat, t: Tid)
    requires IsRun(r) && k < |r.labels| && r.labels[k] == Handle(t)
    requires t in r.states[k].handlers && r.states[k].handlers[t] == Check
    requires r.states[k + 1].handlers == r.states[k].handlers[t := InDirect]
    ensures IsVerified(r.states[k])
  {
    assert Linked(r, k);
    assert r.states[k + 1].handlers[t] == InDirect;
  }

  // --------------------------------------------------------- what PathState reports

  /** The state that was shown last; the client starts as mesh only. */
  ghost function LastShown(r: Run, k: nat): PathState
    requires k <= |r.labels| < |r.states|
  {
    if k == 0 then MeshOnly
    else
      var s, l := r.states[k - 1], r.labels[k - 1];
      if ShowsVerified(s, l) then H2H3
      else if ShowsFallback(s, l) then MeshFallback
      else if ShowsProbing(s, l) then MeshProbing
      else LastShown(r, k - 1)
  }

  lemma {:induction false} DisplayIsLastShown(r: Run, k: nat)
    requires IsRun(r) && k < |r.states|
    ensures r.states[k].probeState == LastShown(r, k)
    decreases k
  {
    if k > 0 {
      DisplayIsLastShown(r, k - 1);
      EffectsAt(r, k - 1);
    }
  }

  /** `PathState` says h2+h3 while a verification counts, and otherwise what was shown last. */
  lemma PathStateMeans(r: Run, k: nat)
    requires IsRun(r) && k < |r.states|
    ensures Shown(r.states[k]) == if exists j: nat :: Vouches(r, j, k) then H2H3 else LastShown(r, k)
  {
    VerifiedExactly(r, k);
    DisplayIsLastShown(r, k);
  }

  // ------------------------------------------------------- downgrades are sticky

  /** The prober's own downgrade: the end of `dropAndFail`, the idle shutdown, or the
      sync of a stale display in an unverified iteration. */
  predicate Downgrades(s: State, l: Label) {
    && l == Probe
    && (s.prober.pc.DropShow? || s.prober.pc == IdleShow || s.prober.pc == SyncState || s.prober.pc == SyncShow)
  }

  /** Neither the cache nor the display vouches for the direct path, and the prober is
      not about to show it. */
  predicate Down(s: State) {
    !IsVerified(s) && s.probeState != H2H3 && PhaseOf(s) != Showing
  }

  lemma DowngradeStep(s: State, l: Label, t: State)
    requires ProberInv(s) && s.d.now >= 0 && Step(s, l) == Some(t) && Downgrades(s, l)
    ensures Down(t) || t.prober.pc == SyncShow
  {
  }

  lemma DownStep(s: State, l: Label, t: State)
    requires Step(s, l) == Some(t) && Down(s) && !Marks(s, l)
    ensures Down(t)
  {
    EffectsOfStep(s, l, t);
    EdgeOfStep(s, l, t);
  }

  /** After a downgrade by the prober and until its own next MarkVerified, no check of
      `IsVerified` passes and the displayed state is not h2+h3, whatever handlers,
      watchers and `Close` do; nor can a `PathState` whose two reads (at i and k) both
      fall into that time report h2+h3. */
  lemma DowngradeIsSticky(r: Run, a: nat, i: nat, k: nat)
    requires IsRun(r) && a < i <= k < |r.states|
    requires Downgrades(r.states[a], r.labels[a]) && r.states[a + 1].prober.pc != SyncShow
    requires forall j :: a < j < k ==> !Marks(r.states[j], r.labels[j])
    ensures !IsVerified(r.states[i]) && !IsVerified(r.states[k])
    ensures Shown(r.states[k]) != H2H3
    ensures (if IsVerified(r.states[i]) then H2H3 else r.states[k].probeState) != H2H3
  {
    StaysDown(r, a, i);
    StaysDown(r, a, k);
  }

  lemma {:induction false} StaysDown(r: Run, a: nat, k: nat)
    requires IsRun(r) && a < k < |r.states|
    requires Downgrades(r.states[a], r.labels[a]) && r.states[a + 1].prober.pc != SyncShow
    requires forall j :: a < j < k ==> !Marks(r.states[j], r.labels[j])
    ensures Down(r.states[k])
  {
    assert Linked(r, k - 1);
    if k == a + 1 {
      RunInv(r, a);
      DowngradeStep(r.states[a], r.labels[a], r.states[a + 1]);
    } else {
      StaysDown(r, a, k - 1);
      DownStep(r.states[k - 1], r.labels[k - 1], r.states[k]);
    }
  }
}
