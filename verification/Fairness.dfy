/** Runs without end. Under a scheduler that starves no goroutine (a mutex that is free
    again and again is granted in the end, and a wait for the network ends) every handler
    reaches the end of `client.openStream`. */
module Fairness {
  import opened Types
  import opened Channel
  import D = DirectSlot
  import M = MeshSlot
  import opened Callers
  import opened Progress

  datatype Endless = Endless(states: nat -> State, labels: nat -> Label)

  ghost predicate Follows(b: Endless, i: nat) {
    Step(b.states(i), b.labels(i)) == Some(b.states(i + 1))
  }

  ghost predicate IsEndless(b: Endless) {
    Init(b.states(0)) && forall i: nat :: Follows(b, i)
  }

  // ------------------------------------------------------------------ fairness

  ghost predicate CanGo(s: State, w: Who) {
    exists l :: Own(l, w) && Step(s, l).Some?
  }

  ghost predicate CanGoAt(b: Endless, w: Who, i: nat, k: nat) {
    i <= k && CanGo(b.states(k), w)
  }

  ghost predicate CanGoFrom(b: Endless, w: Who, i: nat) {
    exists k: nat :: CanGoAt(b, w, i, k)
  }

  ghost predicate GoesAt(b: Endless, w: Who, i: nat, k: nat) {
    i <= k && Own(b.labels(k), w)
  }

  ghost predicate GoesFrom(b: Endless, w: Who, i: nat) {
    exists k: nat :: GoesAt(b, w, i, k)
  }

  /** If w can go again and again, it goes. */
  ghost predicate NotStarved(b: Endless, w: Who, i: nat) {
    (forall j: nat :: i <= j ==> CanGoFrom(b, w, j)) ==> GoesFrom(b, w, i)
  }

  ghost predicate Fair(b: Endless) {
    forall w: Who, i: nat :: NotStarved(b, w, i)
  }

  // ---------------------------------------------------------------- invariants

  ghost predicate Good(s: State) {
    Inv(s) && CallInv(s)
  }

  lemma PrefixIsRun(b: Endless, k: nat) returns (r: Run)
    requires IsEndless(b)
    ensures IsRun(r) && |r.labels| == k && r.states[k] == b.states(k)
  {
    r := Run(seq(k + 1, i requires 0 <= i => b.states(i)), seq(k, i requires 0 <= i => b.labels(i)));
    forall i | 0 <= i < |r.labels| ensures Linked(r, i) {
      assert Follows(b, i);
    }
  }

  lemma GoodAt(b: Endless, k: nat)
    requires IsEndless(b)
    ensures Good(b.states(k))
  {
    var r := PrefixIsRun(b, k);
    RunInv(r, k);
    CallRunInv(r, k);
  }

  lemma NeverGoes(b: Endless, w: Who, i: nat)
    requires !GoesFrom(b, w, i)
    ensures forall x: nat :: i <= x ==> !Own(b.labels(x), w)
  {
    forall x: nat | i <= x ensures !Own(b.labels(x), w) {
      assert !GoesAt(b, w, i, x);
    }
  }

  /** The first step of w from i on. */
  lemma {:induction false} FirstStep(b: Endless, w: Who, i: nat, k: nat) returns (m: nat)
    requires GoesAt(b, w, i, k)
    ensures GoesAt(b, w, i, m) && forall x: nat :: i <= x < m ==> !Own(b.labels(x), w)
    decreases k - i
  {
    if Own(b.labels(i), w) {
      m := i;
    } else {
      m := FirstStep(b, w, i + 1, k);
    }
  }

  // ------------------------------------------------------- d.mu is free in the end

  function Held(d: D.Slot): nat {
    if d.mu.Some? && d.mu.value in d.ops then 1 + DirectRank(d.ops[d.mu.value]) else 0
  }

  lemma SlotStaysHeld(d: D.Slot, l: D.Label, w: Who)
    requires D.Step(d, l).Some? && D.LockInv(d) && d.mu == Some(w) && !OpOf(l, w)
    ensures D.Step(d, l).value.mu == Some(w)
  {
    assert w in d.ops && D.HoldsMu(d.ops[w]);
  }

  lemma StaysHeld(s: State, l: Label, s': State, w: Who)
    requires Step(s, l) == Some(s') && D.LockInv(s.d) && s.d.mu == Some(w) && !Own(l, w)
    ensures s'.d.mu == Some(w) && OpAt(s'.d, w) == OpAt(s.d, w)
  {
    SlotsOfStep(s, l, s');
    ForeignLabels(s, l, w);
    if DirectLabel(s, l).Some? {
      SlotStaysHeld(s.d, DirectLabel(s, l).value, w);
      SlotStands(s.d, DirectLabel(s, l).value, w);
    }
  }

  lemma HolderIsInside(s: State, l: Label, s': State, w: Who)
    requires Step(s, l) == Some(s') && Good(s) && s.d.mu == Some(w) && Own(l, w)
    ensures w in s.d.ops && w in s'.d.ops
  {
    assert w in s.d.ops && D.HoldsMu(s.d.ops[w]);
    CallersOfStep(s, l, s', w);
    assert w.Handler? ==> HandlerCalls(s, w.tid);
    if l.Probe? || l.Handle? {
      ReturnNeedsResult(s, l, w);
    }
  }

  lemma ReturnNeedsResult(s: State, l: Label, w: Who)
    requires Step(s, l).Some? && DirectLabel(s, l) == Some(D.Return(w))
    ensures w in s.d.ops && s.d.ops[w].Returned?
  {
  }

  lemma HolderGoesOn(s: State, l: Label, s': State, w: Who)
    requires Step(s, l) == Some(s') && Good(s) && s.d.mu == Some(w) && Own(l, w)
    ensures s'.d.mu.Some? ==> Held(s'.d) < Held(s.d)
  {
    HolderIsInside(s, l, s', w);
    CallStep(s, l, s', w);
    SlotsOfStep(s, l, s');
    if s'.d.mu.Some? {
      SameHolder(s, l, s', w);
    }
  }

  lemma SameHolder(s: State, l: Label, s': State, w: Who)
    requires Step(s, l) == Some(s') && D.LockInv(s.d) && s.d.mu == Some(w) && s'.d.mu.Some?
    ensures s'.d.mu == Some(w)
  {
    SlotsOfStep(s, l, s');
    if DirectLabel(s, l).Some? {
      SlotSameHolder(s.d, DirectLabel(s, l).value, w);
    }
  }

  lemma SlotSameHolder(d: D.Slot, l: D.Label, w: Who)
    requires D.Step(d, l).Some? && D.LockInv(d) && d.mu == Some(w) && D.Step(d, l).value.mu.Some?
    ensures D.Step(d, l).value.mu == Some(w)
  {
    if !OpOf(l, w) {
      SlotStaysHeld(d, l, w);
    }
  }

  lemma {:induction false} HeldUntil(b: Endless, w: Who, j: nat, k: nat)
    requires IsEndless(b) && j <= k && b.states(j).d.mu == Some(w)
    requires forall x: nat :: j <= x < k ==> !Own(b.labels(x), w)
    ensures b.states(k).d.mu == Some(w) && OpAt(b.states(k).d, w) == OpAt(b.states(j).d, w)
    decreases k
  {
    if j < k {
      HeldUntil(b, w, j, k - 1);
      GoodAt(b, k - 1);
      assert Follows(b, k - 1);
      StaysHeld(b.states(k - 1), b.labels(k - 1), b.states(k), w);
    }
  }

  lemma HolderIsServed(b: Endless, w: Who, j: nat)
    requires IsEndless(b) && Fair(b) && b.states(j).d.mu == Some(w)
    ensures GoesFrom(b, w, j)
  {
    assert NotStarved(b, w, j);
    if !GoesFrom(b, w, j) {
      NeverGoes(b, w, j);
      forall x: nat | j <= x ensures CanGoFrom(b, w, x) {
        HeldUntil(b, w, j, x);
        GoodAt(b, x);
        HolderGoes(b.states(x), w, true);
        assert Own(HolderStep(b.states(x).d.ops[w], w, true), w);
        assert CanGoAt(b, w, x, x);
      }
    }
  }

  lemma HolderGoesOnAt(b: Endless, k: nat, w: Who)
    requires IsEndless(b) && b.states(k).d.mu == Some(w) && Own(b.labels(k), w)
    ensures b.states(k + 1).d.mu.Some? ==> Held(b.states(k + 1).d) < Held(b.states(k).d)
  {
    GoodAt(b, k);
    assert Follows(b, k);
    HolderGoesOn(b.states(k), b.labels(k), b.states(k + 1), w);
  }

  /** The holder's next step releases the lock or brings the release nearer. */
  lemma HolderNears(b: Endless, j: nat) returns (m: nat)
    requires IsEndless(b) && Fair(b) && b.states(j).d.mu.Some?
    ensures j < m && (b.states(m).d.mu.Some? ==> Held(b.states(m).d) < Held(b.states(j).d))
  {
    var w := b.states(j).d.mu.value;
    HolderIsServed(b, w, j);
    var any: nat :| GoesAt(b, w, j, any);
    var k := FirstStep(b, w, j, any);
    HeldUntil(b, w, j, k);
    HolderGoesOnAt(b, k, w);
    m := k + 1;
  }

  /** Whoever holds d.mu releases it. */
  lemma {:induction false} LockIsFreed(b: Endless, j: nat) returns (k: nat)
    requires IsEndless(b) && Fair(b)
    ensures j <= k && b.states(k).d.mu.None?
    decreases b.states(j).d.mu.Some?, Held(b.states(j).d)
  {
    if b.states(j).d.mu.None? {
      k := j;
    } else {
      var m := HolderNears(b, j);
      k := LockIsFreed(b, m);
    }
  }

  // ------------------------------------------------------- c.mu is free in the end

  function MeshHeld(m: M.Mesh): nat {
    if m.mu.Some? && m.mu.value in m.ops then 1 + MeshRank(m.ops[m.mu.value]) else 0
  }

  lemma MeshStaysHeld(m: M.Mesh, l: M.Label, t: Tid)
    requires M.Step(m, l).Some? && M.LockInv(m) && m.mu == Some(t) && !MeshOpOf(l, t)
    ensures M.Step(m, l).value.mu == Some(t)
  {
    assert t in m.ops && M.HoldsMu(m.ops[t]);
  }

  lemma MeshHolderGoesOn(m: M.Mesh, l: M.Label, t: Tid)
    requires M.Step(m, l).Some? && M.LockInv(m) && m.mu == Some(t) && MeshOpOf(l, t)
    ensures var n := M.Step(m, l).value; n.mu.Some? ==> MeshHeld(n) < MeshHeld(m)
  {
    assert t in m.ops && M.HoldsMu(m.ops[t]);
  }

  lemma StaysMeshHeld(s: State, l: Label, s': State, t: Tid)
    requires Step(s, l) == Some(s') && M.LockInv(s.m) && s.m.mu == Some(t) && !Own(l, Handler(t))
    ensures s'.m.mu == Some(t) && MeshOpAt(s'.m, t) == MeshOpAt(s.m, t)
  {
    SlotsOfStep(s, l, s');
    ForeignLabels(s, l, Handler(t));
    if MeshLabel(s, l).Some? {
      MeshStaysHeld(s.m, MeshLabel(s, l).value, t);
      MeshStands(s.m, MeshLabel(s, l).value, t);
    }
  }

  /** The holder of c.mu is inside the mesh half, where every step of its own is one of the
      mesh half. */
  lemma MeshHolderStepsInside(s: State, l: Label, t: Tid)
    requires Step(s, l).Some? && Good(s) && s.m.mu == Some(t) && Own(l, Handler(t))
    ensures MeshLabel(s, l).Some? && MeshOpOf(MeshLabel(s, l).value, t)
  {
    assert HandlerCalls(s, t);
    assert t in s.m.ops && M.HoldsMu(s.m.ops[t]);
    if l.Op? {
      SlotRankFalls(s.d, l.op, Handler(t));
    }
  }

  lemma MeshHolderFalls(s: State, l: Label, s': State, t: Tid)
    requires Step(s, l) == Some(s') && Good(s) && s.m.mu == Some(t) && Own(l, Handler(t))
    ensures s'.m.mu.Some? ==> MeshHeld(s'.m) < MeshHeld(s.m)
  {
    MeshHolderStepsInside(s, l, t);
    SlotsOfStep(s, l, s');
    MeshHolderGoesOn(s.m, MeshLabel(s, l).value, t);
  }

  lemma {:induction false} MeshHeldUntil(b: Endless, t: Tid, j: nat, k: nat)
    requires IsEndless(b) && j <= k && b.states(j).m.mu == Some(t)
    requires forall x: nat :: j <= x < k ==> !Own(b.labels(x), Handler(t))
    ensures b.states(k).m.mu == Some(t) && MeshOpAt(b.states(k).m, t) == MeshOpAt(b.states(j).m, t)
    decreases k
  {
    if j < k {
      MeshHeldUntil(b, t, j, k - 1);
      GoodAt(b, k - 1);
      assert Follows(b, k - 1);
      StaysMeshHeld(b.states(k - 1), b.labels(k - 1), b.states(k), t);
    }
  }

  lemma MeshHolderIsServed(b: Endless, t: Tid, j: nat)
    requires IsEndless(b) && Fair(b) && b.states(j).m.mu == Some(t)
    ensures GoesFrom(b, Handler(t), j)
  {
    var w := Handler(t);
    assert NotStarved(b, w, j);
    if !GoesFrom(b, w, j) {
      NeverGoes(b, w, j);
      forall x: nat | j <= x ensures CanGoFrom(b, w, x) {
        MeshHeldUntil(b, t, j, x);
        GoodAt(b, x);
        var s := b.states(x);
        MeshHolderGoes(s, t, true);
        assert Own(MeshHolderStep(s.m.ops[t], t, true, s.peers > 0), w);
        assert CanGoAt(b, w, x, x);
      }
    }
  }

  lemma MeshHolderFallsAt(b: Endless, k: nat, t: Tid)
    requires IsEndless(b) && b.states(k).m.mu == Some(t) && Own(b.labels(k), Handler(t))
    ensures b.states(k + 1).m.mu.Some? ==> MeshHeld(b.states(k + 1).m) < MeshHeld(b.states(k).m)
  {
    GoodAt(b, k);
    assert Follows(b, k);
    MeshHolderFalls(b.states(k), b.labels(k), b.states(k + 1), t);
  }

  lemma MeshHolderNears(b: Endless, j: nat) returns (m: nat)
    requires IsEndless(b) && Fair(b) && b.states(j).m.mu.Some?
    ensures j < m && (b.states(m).m.mu.Some? ==> MeshHeld(b.states(m).m) < MeshHeld(b.states(j).m))
  {
    var t := b.states(j).m.mu.value;
    MeshHolderIsServed(b, t, j);
    var any: nat :| GoesAt(b, Handler(t), j, any);
    var k := FirstStep(b, Handler(t), j, any);
    MeshHeldUntil(b, t, j, k);
    MeshHolderFallsAt(b, k, t);
    m := k + 1;
  }

  /** Whoever holds c.mu releases it. */
  lemma {:induction false} MeshLockIsFreed(b: Endless, j: nat) returns (k: nat)
    requires IsEndless(b) && Fair(b)
    ensures j <= k && b.states(k).m.mu.None?
    decreases b.states(j).m.mu.Some?, MeshHeld(b.states(j).m)
  {
    if b.states(j).m.mu.None? {
      k := j;
    } else {
      var m := MeshHolderNears(b, j);
      k := MeshLockIsFreed(b, m);
    }
  }

  // -------------------------------------------------------------- handlers get done

  predicate NeedsLock(s: State, t: Tid) {
    At(s, t, CheckAlive) || (At(s, t, InDirect) && OpAt(s.d, Handler(t)) == Some(D.Locking))
  }

  predicate NeedsMeshLock(s: State, t: Tid) {
    At(s, t, InMesh) && MeshOpAt(s.m, t) == Some(M.Locking)
  }

  /** The next step of handler t, with the answer "yes" wherever it waits for one. */
  function NextStep(s: State, t: Tid): Label
    requires t in s.handlers
  {
    var w := Handler(t);
    if s.handlers[t].InDirect? && w in s.d.ops && !s.d.ops[w].Returned? then
      Op(match s.d.ops[w]
         case Locking => D.Acquire(w)
         case Opening(_) => D.Opened(w, true)
         case Dialing => D.Socket(w, true)
         case Handshaking(_) => D.Handshake(w, true)
         case FirstStream(_) => D.First(w, true)
         case _ => D.Advance(w))
    else if s.handlers[t].InMesh? && t in s.m.ops && !s.m.ops[t].Returned? then
      MeshOp(match s.m.ops[t]
             case Locking => M.Acquire(t, s.peers > 0)
             case Opening(_) => M.Opened(t, true)
             case Gate => M.AskPeers(t, s.peers > 0)
             case Dialing => M.Dialed(t, true)
             case _ => M.First(t, true))
    else Handle(t)
  }

  lemma DirectCallGoes(s: State, t: Tid)
    requires At(s, t, InDirect) && HandlerCalls(s, t) && (NeedsLock(s, t) ==> s.d.mu.None?)
    ensures Step(s, NextStep(s, t)).Some?
  {
  }

  lemma MeshCallGoes(s: State, t: Tid)
    requires At(s, t, InMesh) && HandlerCalls(s, t) && (NeedsMeshLock(s, t) ==> s.m.mu.None?)
    ensures Step(s, NextStep(s, t)).Some?
  {
  }

  lemma OutsideGoes(s: State, t: Tid)
    requires t in s.handlers && HandlerCalls(s, t) && (NeedsLock(s, t) ==> s.d.mu.None?)
    requires !s.handlers[t].InDirect? && !s.handlers[t].InMesh? && !s.handlers[t].Done?
    ensures Step(s, Handle(t)).Some?
  {
  }

  /** A handler that is not done can go, given the lock it may need. */
  lemma HandlerGoes(s: State, t: Tid)
    requires t in s.handlers && HandlerCalls(s, t) && !s.handlers[t].Done?
    requires (NeedsLock(s, t) ==> s.d.mu.None?) && (NeedsMeshLock(s, t) ==> s.m.mu.None?)
    ensures CanGo(s, Handler(t))
  {
    if s.handlers[t].InDirect? {
      DirectCallGoes(s, t);
    } else if s.handlers[t].InMesh? {
      MeshCallGoes(s, t);
    } else {
      OutsideGoes(s, t);
    }
    assert Own(NextStep(s, t), Handler(t));
  }

  lemma {:induction false} StandsUntil(b: Endless, t: Tid, i: nat, k: nat)
    requires IsEndless(b) && i <= k && t in b.states(i).handlers
    requires forall x: nat :: i <= x < k ==> !Own(b.labels(x), Handler(t))
    ensures Stands(b.states(i), b.states(k), t)
    decreases k
  {
    if i < k {
      StandsUntil(b, t, i, k - 1);
      GoodAt(b, k - 1);
      assert HandlerCalls(b.states(k - 1), t);
      assert Follows(b, k - 1);
      OtherStep(b.states(k - 1), b.labels(k - 1), b.states(k), t);
    }
  }

  lemma HandlerIsServed(b: Endless, t: Tid, i: nat)
    requires IsEndless(b) && Fair(b) && t in b.states(i).handlers && !b.states(i).handlers[t].Done?
    ensures GoesFrom(b, Handler(t), i)
  {
    var w := Handler(t);
    assert NotStarved(b, w, i);
    if !GoesFrom(b, w, i) {
      NeverGoes(b, w, i);
      forall j: nat | i <= j ensures CanGoFrom(b, w, j) {
        var k := j;
        if NeedsLock(b.states(i), t) {
          k := LockIsFreed(b, j);
        } else if NeedsMeshLock(b.states(i), t) {
          k := MeshLockIsFreed(b, j);
        }
        StandsUntil(b, t, i, k);
        GoodAt(b, k);
        assert HandlerCalls(b.states(k), t);
        HandlerGoes(b.states(k), t);
        assert CanGoAt(b, w, j, k);
      }
    }
  }

  lemma OwnStepFallsAt(b: Endless, m: nat, t: Tid)
    requires IsEndless(b) && t in b.states(m).handlers && Own(b.labels(m), Handler(t))
    ensures t in b.states(m + 1).handlers && HandlerRank(b.states(m + 1), t) < HandlerRank(b.states(m), t)
  {
    GoodAt(b, m);
    assert HandlerCalls(b.states(m), t);
    assert Follows(b, m);
    OwnStepFalls(b.states(m), b.labels(m), b.states(m + 1), t);
  }

  /** Every handler gets done: under fair scheduling `client.openStream` returns, on whatever
      channel or with an error, however dials, stream opens, deaths and locks fall out. */
  lemma {:induction false} EveryHandlerGetsDone(b: Endless, t: Tid, i: nat) returns (k: nat)
    requires IsEndless(b) && Fair(b) && t in b.states(i).handlers
    ensures i <= k && t in b.states(k).handlers && b.states(k).handlers[t].Done?
    decreases HandlerRank(b.states(i), t)
  {
    if b.states(i).handlers[t].Done? {
      return i;
    }
    HandlerIsServed(b, t, i);
    var any: nat :| GoesAt(b, Handler(t), i, any);
    var m := FirstStep(b, Handler(t), i, any);
    StandsUntil(b, t, i, m);
    OwnStepFallsAt(b, m, t);
    k := EveryHandlerGetsDone(b, t, m + 1);
  }
}
