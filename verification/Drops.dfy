/** Which living connections the prober's `dropAndFail` ends. The prober finds its reason
    to drop in one critical section and drops in a later one; in between the connection
    may die and another may be dialled. */
module Drops {
  import opened Types
  import opened Channel
  import opened Callers
  import D = DirectSlot
  import opened Downgrades
  import opened Loop
  import opened Ownership

  // ------------------------------------------------- from the reason to the drop

  /** The drop at step i is for the reason found at step `reason`; ever since the prober has
      been about to take the lock. */
  ghost predicate Decided(r: Run, reason: nat, i: nat, kind: DropKind) {
    && reason < i < |r.labels| < |r.states|
    && ReasonToDrop(r.states[reason], r.labels[reason], kind)
    && r.labels[i] == Probe
    && forall x :: reason < x <= i ==> r.states[x].prober.pc == Dropping(kind)
  }

  lemma DropGoesOn(s: State, l: Label, t: State, kind: DropKind)
    requires LoopStep(s, l, t) && t.prober.pc == Dropping(kind)
    ensures s.prober.pc != DropMark(kind)
    ensures s.prober.pc == Dropping(kind) ==> l != Probe
  {
  }

  lemma ReasonAt(r: Run, j: nat, kind: DropKind)
    requires IsRun(r) && j < |r.labels|
    requires r.states[j + 1].prober.pc == Dropping(kind) && r.states[j].prober.pc != Dropping(kind)
    ensures ReasonToDrop(r.states[j], r.labels[j], kind)
  {
    LoopAt(r, j);
    DropGoesOn(r.states[j], r.labels[j], r.states[j + 1], kind);
    ProberStepHasReason(r.states[j], r.labels[j], r.states[j + 1], kind);
  }

  lemma DropIsDecided(r: Run, i: nat, kind: DropKind) returns (reason: nat)
    requires IsRun(r) && i < |r.labels| && r.labels[i] == Probe && r.states[i].prober.pc == Dropping(kind)
    ensures Decided(r, reason, i, kind)
  {
    reason := LastRise(r, (s: State) => s.prober.pc == Dropping(kind), i);
    ReasonAt(r, reason, kind);
  }

  // ------------------------------------------------------ births and deaths between

  /** The caller's handshake succeeds and yields connection c. */
  predicate Establishes(s: State, l: Label, c: ConnId) {
    l.Op? && l.op.Handshake? && l.op.ok && c == s.d.nextConn
  }

  lemma SlotEstablishes(d: D.Slot, l: D.Label, c: ConnId)
    requires D.Step(d, l).Some?
    ensures c !in d.alive && c in D.Step(d, l).value.alive ==> l.Handshake? && l.ok && c == d.nextConn
    ensures l.Handshake? && l.ok && c == d.nextConn ==> c in D.Step(d, l).value.alive
  {
  }

  lemma EstablishedAt(r: Run, j: nat, c: ConnId)
    requires IsRun(r) && j < |r.labels|
    ensures c !in r.states[j].d.alive && c in r.states[j + 1].d.alive ==> Establishes(r.states[j], r.labels[j], c)
    ensures Establishes(r.states[j], r.labels[j], c) ==> c in r.states[j + 1].d.alive
  {
    DirectStepAt(r, j);
    if DirectLabel(r.states[j], r.labels[j]).Some? {
      SlotEstablishes(r.states[j].d, DirectLabel(r.states[j], r.labels[j]).value, c);
    }
  }

  /** Neither the environment nor `Close` ends c among the steps [a, i). */
  ghost predicate Spared(r: Run, c: ConnId, a: nat, i: nat)
    requires i <= |r.labels|
  {
    forall x :: a <= x < i ==> r.labels[x] != KillDirect(c) && r.labels[x] != Close
  }

  lemma KilledAt(r: Run, x: nat, c: ConnId)
    requires IsRun(r) && x < |r.labels| && (r.labels[x] == KillDirect(c) || r.labels[x] == Close)
    ensures c !in r.states[x + 1].d.alive
  {
    RunInv(r, x);
    DirectStepAt(r, x);
  }

  lemma AliveIsSpared(r: Run, c: ConnId, a: nat, i: nat)
    requires IsRun(r) && a <= i < |r.states| && forall x :: a <= x <= i ==> c in r.states[x].d.alive
    ensures Spared(r, c, a, i)
  {
    forall x | a <= x < i ensures r.labels[x] != KillDirect(c) && r.labels[x] != Close {
      if r.labels[x] == KillDirect(c) || r.labels[x] == Close {
        KilledAt(r, x, c);
      }
    }
  }

  /** Nothing else ends it while the prober is on its way to the drop. */
  lemma {:induction false} SparedIsAlive(r: Run, c: ConnId, a: nat, k: nat, reason: nat, i: nat, kind: DropKind)
    requires IsRun(r) && Decided(r, reason, i, kind) && reason <= a <= k <= i
    requires c in r.states[a].d.alive && Spared(r, c, a, k)
    ensures c in r.states[k].d.alive
  {
    if a < k {
      SparedIsAlive(r, c, a, k - 1, reason, i, kind);
      if c !in r.states[k].d.alive {
        WhoEndsALiveConnection(r, k - 1, c);
        LoopAt(r, k - 1);
        DropGoesOn(r.states[k - 1], r.labels[k - 1], r.states[k], kind);
        assert false;
      }
    }
  }

  // ------------------------------------------------------------------- results

  lemma DropEndsAll(r: Run, i: nat, kind: DropKind)
    requires IsRun(r) && i < |r.labels| && r.labels[i] == Probe && r.states[i].prober.pc == Dropping(kind)
    ensures r.states[i + 1].d.alive == {}
  {
    RunInv(r, i);
    DirectStepAt(r, i);
  }

  lemma NothingAlive(r: Run, k: nat)
    requires IsRun(r) && k < |r.states| && !D.ConnAlive(r.states[k].d)
    ensures r.states[k].d.alive == {}
  {
    RunInv(r, k);
  }

  /** c lived when the prober found its reason, and was spared until the drop. */
  ghost predicate LivedOn(r: Run, c: ConnId, reason: nat, i: nat)
    requires reason < i < |r.labels| < |r.states|
  {
    c in r.states[reason].d.alive && Spared(r, c, reason, i)
  }

  /** c was dialled at step `dialled`, after the prober found its reason, and spared since. */
  ghost predicate DialledSince(r: Run, c: ConnId, dialled: nat, reason: nat, i: nat)
    requires reason < i < |r.labels| < |r.states|
  {
    reason < dialled < i && Establishes(r.states[dialled], r.labels[dialled], c) && Spared(r, c, dialled + 1, i)
  }

  lemma AliveAtDrop(r: Run, reason: nat, i: nat, c: ConnId)
    requires IsRun(r) && reason < i < |r.labels| && r.labels[reason] == Probe && c in r.states[i].d.alive
    ensures LivedOn(r, c, reason, i) || exists dialled: nat :: DialledSince(r, c, dialled, reason, i)
  {
    if x: nat :| reason <= x < i && c !in r.states[x].d.alive {
      var dialled := LastRiseFrom(r, (s: State) => c in s.d.alive, x, i);
      EstablishedAt(r, dialled, c);
      AliveIsSpared(r, c, dialled + 1, i);
      assert DialledSince(r, c, dialled, reason, i);
    } else {
      AliveIsSpared(r, c, reason, i);
    }
  }

  lemma EstablisherIsInside(s: State, l: Label, c: ConnId)
    requires Step(s, l).Some? && Establishes(s, l, c)
    ensures l.op.who in s.d.ops
  {
  }

  /** The prober is busy with its drop, so it was a handler that dialled. */
  lemma DialledByHandler(r: Run, c: ConnId, dialled: nat, reason: nat, i: nat, kind: DropKind)
    requires IsRun(r) && Decided(r, reason, i, kind) && DialledSince(r, c, dialled, reason, i)
    ensures r.labels[dialled].op.who.Handler?
  {
    CallRunInv(r, dialled);
    assert Linked(r, dialled);
    EstablisherIsInside(r.states[dialled], r.labels[dialled], c);
  }

  /** Exactly which living connections a drop of the prober ends, for each of its three
      reasons: one that lived when the reason was found and has been spared since, or one
      that was dialled after that and has been spared since, by a handler, and
      never had the fault that is the reason. When the reason is a vanished connection only
      the second is possible. */
  lemma DropEndsExactly(r: Run, i: nat, kind: DropKind, c: ConnId) returns (reason: nat)
    requires IsRun(r) && i < |r.labels| && r.labels[i] == Probe && r.states[i].prober.pc == Dropping(kind)
    ensures Decided(r, reason, i, kind)
    ensures c in r.states[i].d.alive <==>
              LivedOn(r, c, reason, i) || exists dialled: nat :: DialledSince(r, c, dialled, reason, i)
    ensures kind == Gone ==> !LivedOn(r, c, reason, i)
    ensures forall dialled: nat :: DialledSince(r, c, dialled, reason, i) ==> r.labels[dialled].op.who.Handler?
    ensures c !in r.states[i + 1].d.alive
  {
    reason := DropIsDecided(r, i, kind);
    DropEndsAll(r, i, kind);
    if kind == Gone {
      NothingAlive(r, reason);
    }
    if c in r.states[i].d.alive {
      AliveAtDrop(r, reason, i, c);
    }
    if LivedOn(r, c, reason, i) {
      SparedIsAlive(r, c, reason, i, reason, i, kind);
    }
    forall dialled: nat | DialledSince(r, c, dialled, reason, i)
      ensures c in r.states[i].d.alive && r.labels[dialled].op.who.Handler?
    {
      DialledByHandler(r, c, dialled, reason, i, kind);
      EstablishedAt(r, dialled, c);
      SparedIsAlive(r, c, dialled + 1, i, reason, i, kind);
    }
  }
}
