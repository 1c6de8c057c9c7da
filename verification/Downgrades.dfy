/** No downgrade without a cause: why the Alt-Svc cache is ever cleared, in every run. */
module Downgrades {
  import opened Types
  import opened Channel
  import D = DirectSlot
  import opened Loop
  import opened Cooldowns

  /** The watcher finds its own dead connection in the slot. */
  predicate FindsItsConnectionDead(s: State, l: Label, c: ConnId) {
    l == Watch(c) && s.d.qconn == Some(c) && c !in s.d.alive
  }

  /** Handler t, whose direct attempt failed, finds no living connection. */
  predicate FindsNoConnection(s: State, l: Label, t: Tid) {
    l == Handle(t) && t in s.handlers && s.handlers[t] == CheckAlive && !D.ConnAlive(s.d)
  }

  predicate InDrop(s: State, kind: DropKind) {
    s.prober.pc == Dropping(kind) || s.prober.pc == DropMark(kind)
  }

  predicate InIdleExit(s: State) {
    s.prober.pc == IdleCheck || s.prober.pc == IdleMark
  }

  lemma ProberStepHasReason(s: State, l: Label, t: State, kind: DropKind)
    requires LoopStep(s, l, t)
    ensures InDrop(t, kind) && !InDrop(s, kind) ==> ReasonToDrop(s, l, kind)
    ensures InIdleExit(t) && !InIdleExit(s) ==> FindsIdle(s, l)
  {
  }

  lemma SlotStepHasCause(d: D.Slot, l: D.Label, w: Who, c: ConnId)
    requires D.Step(d, l).Some?
    ensures var e := D.Step(d, l).value;
            && (OpIs(e, w, D.MarkingFailed) && !OpIs(d, w, D.MarkingFailed) ==>
                  l == D.Socket(w, false) || l == D.Handshake(w, false))
            && (Clearing(e, c) && !Clearing(d, c) ==> l == D.WatchFire(c) && d.qconn == Some(c) && c !in d.alive)
  {
  }

  predicate OpIs(d: D.Slot, w: Who, pc: D.OpPc) {
    w in d.ops && d.ops[w] == pc
  }

  predicate Clearing(d: D.Slot, c: ConnId) {
    c in d.watchers && d.watchers[c] == D.Clearing
  }

  lemma SlotCauseAt(r: Run, j: nat, w: Who, c: ConnId)
    requires IsRun(r) && j < |r.labels|
    ensures OpIs(r.states[j + 1].d, w, D.MarkingFailed) && !OpIs(r.states[j].d, w, D.MarkingFailed) ==>
              FailsDial(r.labels[j]) && r.labels[j].op.who == w
    ensures Clearing(r.states[j + 1].d, c) && !Clearing(r.states[j].d, c) ==>
              FindsItsConnectionDead(r.states[j], r.labels[j], c)
  {
    assert Linked(r, j);
    var s, l, t := r.states[j], r.labels[j], r.states[j + 1];
    SlotsOfStep(s, l, t);
    if DirectLabel(s, l).Some? {
      SlotStepHasCause(s.d, DirectLabel(s, l).value, w, c);
    }
  }

  predicate HandlerMarking(s: State, t: Tid) {
    t in s.handlers && s.handlers[t] == MarkingFailed
  }

  lemma HandlerStepHasCause(s: State, l: Label, s': State, t: Tid)
    requires Step(s, l) == Some(s') && HandlerMarking(s', t) && !HandlerMarking(s, t)
    ensures FindsNoConnection(s, l, t)
  {
  }

  /** The cause of a MarkFailed step, at an earlier step. */
  ghost predicate Causes(s: State, l: Label, s': State, l': Label) {
    match l'
    case Op(op) => op.Advance? && FailsDial(l) && l.op.who == op.who
    case Watch(c) => FindsItsConnectionDead(s, l, c)
    case Handle(t) => FindsNoConnection(s, l, t)
    case _ => if s'.prober.pc.DropMark? then ReasonToDrop(s, l, s'.prober.pc.kind) else FindsIdle(s, l)
  }

  /** The goroutine whose step l' is a MarkFailed in state s' is within that downgrade. */
  predicate Within(s: State, s': State, l': Label) {
    match l'
    case Op(op) => op.Advance? && OpIs(s.d, op.who, D.MarkingFailed)
    case Watch(c) => Clearing(s.d, c)
    case Handle(t) => HandlerMarking(s, t)
    case _ => if s'.prober.pc.DropMark? then InDrop(s, s'.prober.pc.kind) else InIdleExit(s)
  }

  /** Step j is the cause of the MarkFailed at step k: from j on, the goroutine that runs
      it has been in this one downgrade. */
  ghost predicate Explains(r: Run, j: nat, k: nat) {
    && j < k < |r.labels| < |r.states|
    && Clears(r.states[k], r.labels[k])
    && Causes(r.states[j], r.labels[j], r.states[k], r.labels[k])
    && forall i :: j < i <= k ==> Within(r.states[i], r.states[k], r.labels[k])
  }

  /** Every MarkFailed ends a downgrade that has a cause: the same caller's dial failed, the
      watcher found its own connection dead in the slot, the handler found no living
      connection after its direct attempt, or the prober found idleness or a reason to
      drop. A transient error on a living connection is none of these. */
  lemma NoDowngradeWithoutCause(r: Run, k: nat) returns (j: nat)
    requires IsRun(r) && k < |r.labels| && Clears(r.states[k], r.labels[k])
    ensures Explains(r, j, k)
  {
    match r.labels[k] {
      case Op(op) =>
        j := LastRise(r, (s: State) => OpIs(s.d, op.who, D.MarkingFailed), k);
        SlotCauseAt(r, j, op.who, 0);
      case Watch(c) =>
        j := LastRise(r, (s: State) => Clearing(s.d, c), k);
        SlotCauseAt(r, j, Prober, c);
      case Handle(t) =>
        j := LastRise(r, (s: State) => HandlerMarking(s, t), k);
        assert Linked(r, j);
        HandlerStepHasCause(r.states[j], r.labels[j], r.states[j + 1], t);
      case _ =>
        j := ProberDowngradeHasCause(r, k);
    }
  }

  lemma ProberDowngradeHasCause(r: Run, k: nat) returns (j: nat)
    requires IsRun(r) && k < |r.labels| && Clears(r.states[k], r.labels[k]) && r.labels[k].Probe?
    ensures Explains(r, j, k)
  {
    if r.states[k].prober.pc.DropMark? {
      var kind := r.states[k].prober.pc.kind;
      j := LastRise(r, (s: State) => InDrop(s, kind), k);
      LoopAt(r, j);
      ProberStepHasReason(r.states[j], r.labels[j], r.states[j + 1], kind);
    } else {
      j := LastRise(r, (s: State) => InIdleExit(s), k);
      LoopAt(r, j);
      ProberStepHasReason(r.states[j], r.labels[j], r.states[j + 1], Gone);
    }
  }

  lemma ProberClearsOnce(s: State, t: State, s': State, l': Label)
    requires Step(s, Probe) == Some(t) && Clears(s, Probe) && Clears(s', l') && l'.Probe?
    ensures !Within(t, s', l')
  {
  }

  lemma OtherClearsOnce(s: State, l: Label, t: State, s': State, l': Label)
    requires Step(s, l) == Some(t) && Clears(s, l) && !l.Probe? && l' == l
    ensures !Within(t, s', l')
  {
  }

  lemma SameGoroutine(s: State, l: Label, a: State, la: Label, s': State, l': Label)
    requires Clears(s, l) && Clears(s', l') && Causes(a, la, s, l) && Causes(a, la, s', l')
    ensures l == l'
  {
  }

  /** One cause, one MarkFailed: nothing downgrades twice for the same reason. */
  lemma OneMarkFailedPerCause(r: Run, j: nat, k: nat, k': nat)
    requires IsRun(r) && Explains(r, j, k) && Explains(r, j, k') && k <= k'
    ensures k == k'
  {
    if k < k' {
      assert Linked(r, k);
      SameGoroutine(r.states[k], r.labels[k], r.states[j], r.labels[j], r.states[k'], r.labels[k']);
      if r.labels[k].Probe? {
        ProberClearsOnce(r.states[k], r.states[k + 1], r.states[k'], r.labels[k']);
      } else {
        OtherClearsOnce(r.states[k], r.labels[k], r.states[k + 1], r.states[k'], r.labels[k']);
      }
      assert false;
    }
  }

  /** A displayed fallback state means that a downgrade was shown, and nothing else was
      shown since. */
  lemma FallbackIsShownSinceDowngrade(r: Run, k: nat) returns (j: nat)
    requires IsRun(r) && k < |r.states| && r.states[k].probeState == MeshFallback
    ensures j < k && ShowsFallback(r.states[j], r.labels[j])
    ensures forall i :: j < i < k ==>
                          !ShowsVerified(r.states[i], r.labels[i]) && !ShowsProbing(r.states[i], r.labels[i])
  {
    j := LastRise(r, (s: State) => s.probeState == MeshFallback, k);
    EffectsAt(r, j);
    forall i | j < i < k
      ensures !ShowsVerified(r.states[i], r.labels[i]) && !ShowsProbing(r.states[i], r.labels[i])
    {
      EffectsAt(r, i);
    }
  }
}
