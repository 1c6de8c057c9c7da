/** Idle shutdown: what is left of probing once no user stream has arrived for the idle
    limit, over every run. */
module IdleShutdown {
  import opened Types
  import opened Channel
  import opened Loop
  import opened Phases
  import opened Verification
  import opened Cooldowns
  import opened Callers
  import opened Dials

  ghost predicate QuietFrom(r: Run, i: nat) {
    forall j :: i <= j < |r.labels| ==> !r.labels[j].Start?
  }

  lemma {:induction false} ActivityFrozen(r: Run, i: nat, k: nat)
    requires IsRun(r) && i <= k < |r.states| && QuietFrom(r, i)
    ensures r.states[k].lastActive == r.states[i].lastActive
  {
    if i < k {
      ActivityFrozen(r, i, k - 1);
      EffectsAt(r, k - 1);
    }
  }

  /** With no new stream from step i on, no probe passes the idle gate once the idle
      limit is over. */
  lemma NoProbeWhileIdle(r: Run, i: nat, k: nat)
    requires IsRun(r) && i <= k < |r.labels| && QuietFrom(r, i)
    requires PassesIdleGate(r.states[k], r.labels[k])
    ensures r.states[k].d.now <= r.states[i].lastActive + PROBE_IDLE_LIMIT
    ensures PROBE_IDLE_LIMIT == 600_000_000_000
  {
    ActivityFrozen(r, i, k);
  }

  // ------------------------------------------------------------ calls and dials

  ghost predicate Late(r: Run, i: nat, j: nat) {
    i <= j < |r.labels| < |r.states| && r.states[i].lastActive + PROBE_IDLE_LIMIT < r.states[j].d.now
  }

  /** The prober calls `openStream` after the idle limit, counted from the activity seen at
      step i. */
  ghost predicate LateCall(r: Run, i: nat, j: nat) {
    Late(r, i, j) && Calls(r.states[j], r.labels[j], Prober)
  }

  /** No call comes after a late moment at which the prober was not on its way to one. */
  lemma NoLateCallAfter(r: Run, i: nat, j: nat, k: nat)
    requires IsRun(r) && QuietFrom(r, i) && Late(r, i, j) && j < k < |r.labels| && !BeforeCall(r.states[j + 1])
    ensures !BeforeCall(r.states[k])
  {
    if BeforeCall(r.states[k]) {
      var gate := GateOfCall(r, k);
      assert gate > j;
      ClockMonotone(r, j, gate);
      NoProbeWhileIdle(r, i, gate);
      assert false;
    }
  }

  lemma CallLeavesTheWay(r: Run, j: nat)
    requires IsRun(r) && j < |r.labels| && r.labels[j] == Probe && r.states[j].prober.pc.Begin?
    ensures !BeforeCall(r.states[j + 1])
  {
    assert Linked(r, j);
  }

  /** With no new stream from step i on, the prober calls `openStream` at most once after
      the idle limit is over. */
  lemma AtMostOneLateCall(r: Run, i: nat, j: nat, k: nat)
    requires IsRun(r) && QuietFrom(r, i) && j <= k && LateCall(r, i, j) && LateCall(r, i, k)
    ensures j == k
  {
    if j < k {
      CallLeavesTheWay(r, j);
      NoLateCallAfter(r, i, j, k);
      assert false;
    }
  }

  /** The prober starts to dial after the idle limit. */
  ghost predicate LateDial(r: Run, i: nat, j: nat) {
    Late(r, i, j) && StartsDial(r.states[j], r.states[j + 1], Prober)
  }

  /** ... and it dials at most once after it: the background traffic ends with the probe
      that was on its way. */
  lemma AtMostOneLateDial(r: Run, i: nat, j: nat, k: nat)
    requires IsRun(r) && QuietFrom(r, i) && j <= k && LateDial(r, i, j) && LateDial(r, i, k)
    ensures j == k
  {
    if j < k {
      var call := CallOfDial(r, k, Prober);
      CallRunInv(r, j + 1);
      assert call > j;
      NoLateCallAfter(r, i, j, call);
      assert false;
    }
  }

  // ------------------------------------------------------------ verifications

  lemma MarkEndsIteration(r: Run, j: nat)
    requires IsRun(r) && j < |r.labels| && Marks(r.states[j], r.labels[j])
    ensures PhaseOf(r.states[j + 1]) == Showing
  {
    assert Linked(r, j);
  }

  /** A MarkVerified after the idle limit, counted from the activity seen at step i. */
  ghost predicate LateMark(r: Run, i: nat, j: nat) {
    && i <= j < |r.labels| < |r.states|
    && Marks(r.states[j], r.labels[j])
    && r.states[i].lastActive + PROBE_IDLE_LIMIT < r.states[j].d.now
  }

  /** ... so at most one MarkVerified, of a probe already in flight, happens after it. */
  lemma AtMostOneLateMark(r: Run, i: nat, j: nat, k: nat)
    requires IsRun(r) && QuietFrom(r, i) && j <= k && LateMark(r, i, j) && LateMark(r, i, k)
    ensures j == k
  {
    if j < k {
      MarkEndsIteration(r, j);
      var idle := LastRise(r, (s: State) => PastIdleGate(s), k);
      EdgeAt(r, idle);
      assert idle > j;
      ClockMonotone(r, j, idle);
      NoProbeWhileIdle(r, i, idle);
      assert false;
    }
  }

  /** ... and from a TTL after the idle limit on, the path is verified only while the
      TTL of that one late mark lasts. */
  lemma IdlePathExpires(r: Run, i: nat, k: nat) returns (late: nat)
    requires IsRun(r) && i <= k < |r.states| && QuietFrom(r, i)
    requires r.states[i].d.now <= r.states[i].lastActive + PROBE_IDLE_LIMIT
    requires r.states[i].lastActive + PROBE_IDLE_LIMIT + 2 * r.states[0].retryPeriod <= r.states[k].d.now
    requires IsVerified(r.states[k])
    ensures late < k && LateMark(r, i, late)
    ensures r.states[k].d.now < r.states[late].d.now + 2 * r.states[0].retryPeriod
    ensures forall j: nat :: LateMark(r, i, j) ==> j == late
  {
    late := VerifiedSinceMark(r, k);
    if late < i {
      ClockMonotone(r, late, i);
      assert false;
    }
    forall j: nat | LateMark(r, i, j)
      ensures j == late
    {
      if j <= late {
        AtMostOneLateMark(r, i, j, late);
      } else {
        AtMostOneLateMark(r, i, late, j);
      }
    }
  }
}
