/** No dial stampede: what the failure cooldown guarantees over every run. */
module Cooldowns {
  import opened Types
  import opened Channel
  import D = DirectSlot

  /** The step records a failure of the direct path: a failed dial, a watcher that
      finds its connection gone from the slot, or `dropAndFail`. */
  predicate RecordsFailure(s: State, l: Label) {
    match DirectLabel(s, l)
    case Some(Socket(_, ok)) => !ok
    case Some(Handshake(_, ok)) => !ok
    case Some(WatchFire(c)) => s.d.qconn == Some(c)
    case Some(DropAndFail) => true
    case _ => false
  }

  predicate FailsDial(l: Label) {
    l.Op? && (l.op.Socket? || l.op.Handshake?) && !l.op.ok
  }

  /** The caller is about to create a socket, or waits for the handshake. */
  predicate DialsIn(d: D.Slot, w: Who) {
    w in d.ops && (d.ops[w].Dialing? || d.ops[w].Handshaking?)
  }

  predicate DialsAt(s: State, w: Who) {
    DialsIn(s.d, w)
  }

  predicate StartsDial(s: State, t: State, w: Who) {
    !DialsAt(s, w) && DialsAt(t, w)
  }

  lemma FailureStep(s: State, l: Label, t: State)
    requires Step(s, l) == Some(t)
    ensures t.d.failUntil == (if RecordsFailure(s, l) then s.d.now + DIRECT_FAIL_COOLDOWN else s.d.failUntil)
  {
    SlotsOfStep(s, l, t);
  }

  lemma FailureAt(r: Run, i: nat)
    requires IsRun(r) && i < |r.labels|
    ensures r.states[i + 1].d.failUntil
         == (if RecordsFailure(r.states[i], r.labels[i]) then r.states[i].d.now + DIRECT_FAIL_COOLDOWN
             else r.states[i].d.failUntil)
  {
    assert Linked(r, i);
    FailureStep(r.states[i], r.labels[i], r.states[i + 1]);
  }

  /** `failUntil` never decreases. */
  lemma {:induction false} FailUntilMonotone(r: Run, i: nat, k: nat)
    requires IsRun(r) && i <= k < |r.states|
    ensures r.states[i].d.failUntil <= r.states[k].d.failUntil
  {
    if i < k {
      FailUntilMonotone(r, i, k - 1);
      RunInv(r, k - 1);
      FailureAt(r, k - 1);
    }
  }

  lemma DialStartStep(d: D.Slot, l: D.Label, w: Who)
    requires D.Step(d, l).Some? && D.LockInv(d) && D.CooldownInv(d)
    requires !DialsIn(d, w) && DialsIn(D.Step(d, l).value, w)
    ensures d.failUntil <= d.now
  {
  }

  lemma DialStartAt(r: Run, k: nat, w: Who)
    requires IsRun(r) && k < |r.labels| && StartsDial(r.states[k], r.states[k + 1], w)
    ensures r.states[k].d.failUntil <= r.states[k].d.now
  {
    RunInv(r, k);
    assert Linked(r, k);
    SlotsOfStep(r.states[k], r.labels[k], r.states[k + 1]);
    DialStartStep(r.states[k].d, DirectLabel(r.states[k], r.labels[k]).value, w);
  }

  /** Every direct dial starts at least a cooldown after every failure recorded
      before it, by whomever. */
  lemma DialWaitsForCooldown(r: Run, i: nat, k: nat, w: Who)
    requires IsRun(r) && i < k < |r.labels|
    requires RecordsFailure(r.states[i], r.labels[i]) && StartsDial(r.states[k], r.states[k + 1], w)
    ensures r.states[k].d.now >= r.states[i].d.now + DIRECT_FAIL_COOLDOWN
  {
    FailureAt(r, i);
    FailUntilMonotone(r, i + 1, k);
    DialStartAt(r, k, w);
  }

  /** Of the callers queued on d.mu, one that is served within the cooldown after a
      recorded failure leaves at once with the cooldown error and dials nothing. */
  lemma QueuedCallersDoNotDial(r: Run, i: nat, k: nat, w: Who)
    requires IsRun(r) && i < k < |r.labels|
    requires RecordsFailure(r.states[i], r.labels[i]) && r.labels[k] == Op(D.Acquire(w))
    requires r.states[k].d.now < r.states[i].d.now + DIRECT_FAIL_COOLDOWN
    ensures r.states[k + 1] == r.states[k].(d := r.states[k].d.(ops := r.states[k].d.ops[w := D.Returned(D.Cooldown)]))
  {
    FailureAt(r, i);
    FailUntilMonotone(r, i + 1, k);
    assert Linked(r, k);
  }

  // ------------------------------------------------------ failed dials spread out

  ghost function FailedDials(r: Run, i: nat, k: nat): nat
    requires i <= k <= |r.labels|
    decreases k
  {
    if i == k then 0 else FailedDials(r, i, k - 1) + (if FailsDial(r.labels[k - 1]) then 1 else 0)
  }

  lemma FailedDialStep(s: State, l: Label, t: State)
    requires Step(s, l) == Some(t) && D.Inv(s.d) && FailsDial(l)
    ensures RecordsFailure(s, l) && DialsAt(s, l.op.who)
    ensures forall w :: !DialsAt(t, w)
  {
    SlotsOfStep(s, l, t);
  }

  /** Two failed dials are at least a cooldown apart. */
  lemma FailedDialAfterAnother(r: Run, j: nat, k: nat)
    requires IsRun(r) && j < k < |r.labels| && FailsDial(r.labels[j]) && FailsDial(r.labels[k])
    ensures r.states[k].d.now >= r.states[j].d.now + DIRECT_FAIL_COOLDOWN
  {
    RunInv(r, j);
    RunInv(r, k);
    assert Linked(r, j) && Linked(r, k);
    FailedDialStep(r.states[j], r.labels[j], r.states[j + 1]);
    FailedDialStep(r.states[k], r.labels[k], r.states[k + 1]);
    var w := r.labels[k].op.who;
    var b := LastRise(r, (s: State) => DialsAt(s, w), k);
    assert b > j by {
      assert !DialsAt(r.states[j + 1], w);
    }
    DialWaitsForCooldown(r, j, b, w);
    ClockMonotone(r, b, k);
  }

  lemma {:induction false} LastFailedDial(r: Run, i: nat, k: nat) returns (j: nat)
    requires IsRun(r) && i < k <= |r.labels| && FailsDial(r.labels[i])
    ensures i <= j < k && FailsDial(r.labels[j])
    ensures r.states[j].d.now - r.states[i].d.now >= DIRECT_FAIL_COOLDOWN * (FailedDials(r, i, k) - 1)
    decreases k
  {
    if k == i + 1 {
      j := i;
      assert FailedDials(r, i, i) == 0;
    } else {
      j := LastFailedDial(r, i, k - 1);
      if FailsDial(r.labels[k - 1]) {
        FailedDialAfterAnother(r, j, k - 1);
        j := k - 1;
      }
    }
  }

  /** n failed dials, the first at step i and the last at step k, span at least
      2 * (n - 1) seconds. */
  lemma FailedDialsSpreadOut(r: Run, i: nat, k: nat)
    requires IsRun(r) && i <= k < |r.labels| && FailsDial(r.labels[i]) && FailsDial(r.labels[k])
    ensures r.states[k].d.now - r.states[i].d.now >= 2_000_000_000 * (FailedDials(r, i, k + 1) - 1)
  {
    var j := LastFailedDial(r, i, k + 1);
    ClockMonotone(r, j, k);
  }
}
