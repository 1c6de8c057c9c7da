/** When a verified path has no connection behind it. The cache and the slot are cleared
    in separate critical sections, and a probe may outlive its connection, so "verified"
    does not mean that a connection is there: this module says exactly when it does not. */
module InFlight {
  import opened Types
  import opened Channel
  import opened Loop
  import opened Phases
  import opened Verification
  import D = DirectSlot

  // ------------------------------------------------------- how the slot is emptied

  /** The step empties a full slot: `Close`, the prober's `dropAndFail`, the watcher of the
      slot's connection, or a caller of `openStream` that finds this connection dead. */
  predicate EmptiesSlot(d: D.Slot, l: D.Label) {
    && d.qconn.Some?
    && match l
       case Close => true
       case DropAndFail => true
       case WatchFire(c) => d.qconn == Some(c)
       case Acquire(_) => d.now >= d.failUntil && !D.ConnAlive(d)
       case Opened(_, ok) => !ok && !D.ConnAlive(d)
       case _ => false
  }

  predicate Empties(s: State, l: Label) {
    DirectLabel(s, l).Some? && EmptiesSlot(s.d, DirectLabel(s, l).value)
  }

  /** Somebody's dial succeeds. */
  predicate Connects(l: Label) {
    l.Op? && l.op.Handshake? && l.op.ok
  }

  predicate Empty(s: State) {
    s.d.qconn.None?
  }

  lemma SlotFillsAndEmpties(d: D.Slot, l: D.Label)
    requires D.Step(d, l).Some?
    ensures D.Step(d, l).value.qconn.None? <==>
              EmptiesSlot(d, l) || (d.qconn.None? && !(l.Handshake? && l.ok))
  {
  }

  lemma SlotAt(r: Run, i: nat)
    requires IsRun(r) && i < |r.labels|
    ensures Empty(r.states[i + 1]) <==>
              Empties(r.states[i], r.labels[i]) || (Empty(r.states[i]) && !Connects(r.labels[i]))
  {
    assert Linked(r, i);
    SlotsOfStep(r.states[i], r.labels[i], r.states[i + 1]);
    if DirectLabel(r.states[i], r.labels[i]).Some? {
      SlotFillsAndEmpties(r.states[i].d, DirectLabel(r.states[i], r.labels[i]).value);
    }
  }

  lemma {:induction false} StaysEmpty(r: Run, i: nat, k: nat)
    requires IsRun(r) && i <= k < |r.states| && Empty(r.states[i])
    requires forall x :: i <= x < k ==> !Connects(r.labels[x])
    ensures Empty(r.states[k])
  {
    if i < k {
      StaysEmpty(r, i, k - 1);
      SlotAt(r, k - 1);
    }
  }

  // ------------------------------------------------------- who still owes a MarkFailed

  /** The goroutine that emptied the slot with step l has not cleared the cache yet;
      `Close` never does. */
  predicate Owed(s: State, l: Label) {
    match l
    case Close => true
    case Watch(c) => c in s.d.watchers && s.d.watchers[c] == D.Clearing
    case Op(op) =>
      && (op.Acquire? || op.Opened?) && op.who in s.d.ops
      && (s.d.ops[op.who].Dialing? || s.d.ops[op.who].Handshaking? || s.d.ops[op.who].MarkingFailed?)
    case Probe => s.prober.pc.DropMark?
    case _ => false
  }

  lemma OwedAfterCaller(s: State, l: Label, t: State)
    requires Step(s, l) == Some(t) && Empties(s, l) && l.Op?
    ensures Owed(t, l)
  {
  }

  lemma OwedAfterOther(s: State, l: Label, t: State)
    requires Step(s, l) == Some(t) && Empties(s, l) && !l.Op?
    ensures Owed(t, l)
  {
  }

  lemma CallerStillOwes(d: D.Slot, l: D.Label, w: Who)
    requires D.Step(d, l).Some? && w in d.ops && !(l.Handshake? && l.ok)
    requires d.ops[w].Dialing? || d.ops[w].Handshaking? || (d.ops[w].MarkingFailed? && l != D.Advance(w))
    ensures var e := D.Step(d, l).value;
            w in e.ops && (e.ops[w].Dialing? || e.ops[w].Handshaking? || e.ops[w].MarkingFailed?)
  {
  }

  lemma WatcherStillOwes(d: D.Slot, l: D.Label, c: ConnId)
    requires D.Step(d, l).Some? && D.WatchInv(d) && l != D.WatchNext(c)
    requires c in d.watchers && d.watchers[c] == D.Clearing
    ensures var e := D.Step(d, l).value; c in e.watchers && e.watchers[c] == D.Clearing
  {
    assert l.Advance? && d.ops[l.who].Spawning? ==> D.IsSpawning(d, l.who, d.ops[l.who].conn);
  }

  lemma ProberStillOwes(s: State, m: Label, t: State)
    requires Step(s, m) == Some(t) && !Clears(s, m) && s.prober.pc.DropMark?
    ensures t.prober.pc.DropMark?
  {
    if !OfProber(m) {
      EffectsOfStep(s, m, t);
    }
  }

  /** The debt is paid by nothing but a MarkFailed or a new connection. */
  lemma StillOwed(s: State, m: Label, t: State, l: Label)
    requires Step(s, m) == Some(t) && D.Inv(s.d) && Owed(s, l) && !Clears(s, m) && !Connects(m)
    ensures Owed(t, l)
  {
    SlotsOfStep(s, m, t);
    var dl := DirectLabel(s, m);
    match l {
      case Watch(c) =>
        if dl.Some? {
          WatcherStillOwes(s.d, dl.value, c);
        }
      case Op(op) =>
        if dl.Some? {
          CallerStillOwes(s.d, dl.value, op.who);
        }
      case Probe => ProberStillOwes(s, m, t);
      case _ =>
    }
  }

  lemma {:induction false} OwedUntil(r: Run, i: nat, k: nat)
    requires IsRun(r) && i < k < |r.states| && Empties(r.states[i], r.labels[i])
    requires forall x :: i < x < k ==> !Clears(r.states[x], r.labels[x]) && !Connects(r.labels[x])
    ensures Owed(r.states[k], r.labels[i])
  {
    assert Linked(r, k - 1);
    if k == i + 1 {
      if r.labels[i].Op? {
        OwedAfterCaller(r.states[i], r.labels[i], r.states[k]);
      } else {
        OwedAfterOther(r.states[i], r.labels[i], r.states[k]);
      }
    } else {
      OwedUntil(r, i, k - 1);
      RunInv(r, k - 1);
      StillOwed(r.states[k - 1], r.labels[k - 1], r.states[k], r.labels[i]);
    }
  }

  // ------------------------------------------------------------- probes in flight

  /** The prober holds, or is about to get, a stream on a connection. */
  predicate ProbeInFlight(s: State) {
    || s.prober.pc.RoundTrip? || s.prober.pc.Judging? || s.prober.pc.Verifying? || s.prober.pc.ShowVerified?
    || (Prober in s.d.ops && HasStream(s.d.ops[Prober]))
  }

  predicate HasStream(pc: D.OpPc) {
    pc.Opening? || pc.Spawning? || pc.FirstStream? || (pc.Returned? && pc.res.Stream?)
  }

  predicate Quiet(s: State) {
    s.d.qconn.None? && !ProbeInFlight(s)
  }

  lemma QuietSlot(d: D.Slot, l: D.Label)
    requires D.Step(d, l).Some? && d.qconn.None? && !(l.Handshake? && l.ok)
    requires Prober in d.ops ==> !HasStream(d.ops[Prober])
    ensures var e := D.Step(d, l).value; e.qconn.None? && (Prober in e.ops ==> !HasStream(e.ops[Prober]))
  {
  }

  /** The prober begins a round trip only with the stream of its own call. */
  lemma RoundTripNeedsStream(s: State, l: Label, t: State)
    requires LoopStep(s, l, t) && t.prober.pc.RoundTrip? && !s.prober.pc.RoundTrip?
    ensures Prober in s.d.ops && HasStream(s.d.ops[Prober])
  {
  }

  lemma QuietLoop(s: State, l: Label, t: State)
    requires Edge(s, l, t) && !ProbeInFlight(s)
    ensures !t.prober.pc.Judging? && !t.prober.pc.Verifying? && !t.prober.pc.ShowVerified?
  {
  }

  lemma QuietStep(s: State, l: Label, t: State)
    requires Step(s, l) == Some(t) && Quiet(s) && !Connects(l)
    ensures Quiet(t) && !Marks(s, l)
  {
    EdgeOfStep(s, l, t);
    QuietLoop(s, l, t);
    if t.prober.pc.RoundTrip? {
      LoopOfStep(s, l, t);
      RoundTripNeedsStream(s, l, t);
    }
    SlotsOfStep(s, l, t);
    if DirectLabel(s, l).Some? {
      QuietSlot(s.d, DirectLabel(s, l).value);
    }
  }

  lemma StreamNeedsConnection(d: D.Slot, l: D.Label)
    requires D.Step(d, l).Some? && !(Prober in d.ops && HasStream(d.ops[Prober]))
    requires var e := D.Step(d, l).value; Prober in e.ops && HasStream(e.ops[Prober])
    ensures D.Step(d, l).value.qconn.Some?
  {
  }

  /** A probe takes off with a connection in the slot. */
  lemma FlightNeedsConnection(r: Run, i: nat)
    requires IsRun(r) && i < |r.labels| && !ProbeInFlight(r.states[i]) && ProbeInFlight(r.states[i + 1])
    ensures !Empty(r.states[i + 1])
  {
    assert Linked(r, i);
    var s, l, t := r.states[i], r.labels[i], r.states[i + 1];
    EdgeOfStep(s, l, t);
    QuietLoop(s, l, t);
    if t.prober.pc.RoundTrip? {
      LoopOfStep(s, l, t);
      RoundTripNeedsStream(s, l, t);
    }
    SlotsOfStep(s, l, t);
    if DirectLabel(s, l).Some? {
      StreamNeedsConnection(s.d, DirectLabel(s, l).value);
    }
  }

  // ------------------------------------------------------ verified, and nothing there

  lemma EmptyUntilNow(r: Run, i: nat, k: nat)
    requires IsRun(r) && i < k < |r.states| && !Empty(r.states[i])
    requires forall x :: i < x <= k ==> Empty(r.states[x])
    ensures Empties(r.states[i], r.labels[i])
    ensures forall x :: i < x < k ==> !Connects(r.labels[x])
  {
    SlotAt(r, i);
    forall x | i < x < k ensures !Connects(r.labels[x]) {
      SlotAt(r, x);
    }
  }

  /** A step j before which the probe that MarkVerified at `mark` took off with a connection
      in the slot. */
  lemma TakeOff(r: Run, mark: nat) returns (j: nat)
    requires IsRun(r) && mark < |r.labels| && Marks(r.states[mark], r.labels[mark])
    ensures j <= mark && !Empty(r.states[j])
    ensures forall x :: j <= x <= mark ==> ProbeInFlight(r.states[x])
  {
    var q := LastRise(r, (s: State) => ProbeInFlight(s), mark);
    FlightNeedsConnection(r, q);
    j := q + 1;
  }

  /** Why a verified path has no connection behind it. Let `mark` be the MarkVerified that
      still counts, and `last` the step that emptied the slot last. Either the slot lost its
      connection while the probe that marked the path was in flight, or it lost it after
      the mark: to `Close`, or to a goroutine that has yet to run its MarkFailed. */
  lemma WhyNoConnection(r: Run, k: nat) returns (mark: nat, last: nat)
    requires IsRun(r) && k < |r.states| && IsVerified(r.states[k]) && Empty(r.states[k])
    ensures Vouches(r, mark, k)
    ensures last < k && Empties(r.states[last], r.labels[last])
    ensures forall x :: last < x <= k ==> Empty(r.states[x])
    ensures forall x :: last < x < k ==> !Connects(r.labels[x])
    ensures last != mark
    ensures last < mark ==> forall x :: last <= x <= mark ==> ProbeInFlight(r.states[x])
    ensures mark < last ==> Owed(r.states[k], r.labels[last])
  {
    mark := VerifiedSinceMark(r, k);
    var from := mark;
    if Empty(r.states[mark]) {
      from := TakeOff(r, mark);
    }
    last := LastRiseFrom(r, (s: State) => Empty(s), from, k);
    EmptyUntilNow(r, last, k);
    if mark < last {
      OwedUntil(r, last, k);
    }
  }

  /** The MarkVerified at `mark` still counts at k, and since step `last` emptied the slot
      nobody has dialled a connection. */
  ghost predicate Stranded(r: Run, mark: nat, last: nat, k: nat) {
    && Vouches(r, mark, k)
    && last < k
    && Empties(r.states[last], r.labels[last])
    && forall x :: last < x < k ==> !Connects(r.labels[x])
  }

  /** Exactly then is a path verified with an empty slot. */
  lemma VerifiedWithoutConnectionExactly(r: Run, k: nat)
    requires IsRun(r) && k < |r.states|
    ensures IsVerified(r.states[k]) && Empty(r.states[k]) <==>
              exists mark: nat, last: nat :: Stranded(r, mark, last, k)
  {
    if IsVerified(r.states[k]) && Empty(r.states[k]) {
      var mark, last := WhyNoConnection(r, k);
      assert Stranded(r, mark, last, k);
    }
    forall mark: nat, last: nat | Stranded(r, mark, last, k)
      ensures IsVerified(r.states[k]) && Empty(r.states[k])
    {
      VerifiedExactly(r, k);
      SlotAt(r, last);
      StaysEmpty(r, last + 1, k);
    }
  }

  /** Nobody is between emptying the slot and clearing the cache. */
  ghost predicate Settled(s: State) {
    forall l: Label :: Owed(s, l) ==> l == Close
  }

  /** So a verified path has a connection whenever nobody owes a MarkFailed, `Close` has not
      been called, and the probe that verified it found its connection still in the slot. */
  lemma SettledVerifiedHasConnection(r: Run, mark: nat, k: nat)
    requires IsRun(r) && k < |r.states| && Vouches(r, mark, k) && !Empty(r.states[mark])
    requires Settled(r.states[k]) && forall x :: 0 <= x < k ==> r.labels[x] != Close
    ensures IsVerified(r.states[k]) && !Empty(r.states[k])
  {
    VerifiedExactly(r, k);
    if Empty(r.states[k]) {
      var last := LastRiseFrom(r, (s: State) => Empty(s), mark, k);
      EmptyUntilNow(r, last, k);
      OwedUntil(r, last, k);
      assert false;
    }
  }

  // ------------------------------------------------ when a cleared path stays cleared

  lemma QuietAt(r: Run, i: nat)
    requires IsRun(r) && i < |r.labels| && Quiet(r.states[i]) && !Connects(r.labels[i])
    ensures Quiet(r.states[i + 1]) && (!IsVerified(r.states[i]) ==> !IsVerified(r.states[i + 1]))
  {
    assert Linked(r, i);
    QuietStep(r.states[i], r.labels[i], r.states[i + 1]);
    EffectsAt(r, i);
  }

  /** With the slot empty, the cache cleared and no probe in flight, the path is not
      verified again before somebody dials a new connection. */
  lemma {:induction false} ClearedUntilDialled(r: Run, i: nat, k: nat)
    requires IsRun(r) && i <= k < |r.states| && Quiet(r.states[i]) && !IsVerified(r.states[i])
    requires forall j :: i <= j < k ==> !Connects(r.labels[j])
    ensures Quiet(r.states[k]) && !IsVerified(r.states[k])
  {
    if i < k {
      ClearedUntilDialled(r, i, k - 1);
      QuietAt(r, k - 1);
    }
  }
}
