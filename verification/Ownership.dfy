/** Who owns connections and transports, over every run of the channel system. */
module Ownership {
  import opened Types
  import opened Channel
  import opened Callers
  import D = DirectSlot
  import M = MeshSlot

  // ------------------------------------------------------------ direct slot

  /** At every moment at most one direct connection lives and at most one transport
      is open; whenever d.mu is free these are the slot's own, every other transport
      ever created is closed, and the slot holds both or neither. */
  lemma SingleOwnership(r: Run, k: nat)
    requires IsRun(r) && k < |r.states|
    ensures var d := r.states[k].d;
            && (d.qconn.None? <==> d.tr.None?)
            && (forall c :: c in d.alive ==> d.qconn == Some(c))
            && (d.tr.Some? ==> d.tr.value in d.open)
            && (forall t, t' :: t in d.open && t' in d.open ==> t == t')
            && (d.mu.None? ==> forall t: TrId :: t < d.nextTr ==> d.tr == Some(t) || t !in d.open)
  {
    RunInv(r, k);
    var d := r.states[k].d;
    assert d.tr.Some? ==> D.InFlight(d) == {};
  }

  lemma DirectStepAt(r: Run, j: nat)
    requires IsRun(r) && j < |r.labels|
    ensures match DirectLabel(r.states[j], r.labels[j])
            case Some(dl) => D.Step(r.states[j].d, dl) == Some(r.states[j + 1].d)
            case None => r.states[j + 1].d == r.states[j].d
  {
    assert Linked(r, j);
    SlotsOfStep(r.states[j], r.labels[j], r.states[j + 1]);
  }

  lemma SlotStepEnds(d: D.Slot, l: D.Label, c: ConnId)
    requires D.Step(d, l).Some? && c in d.alive && c !in D.Step(d, l).value.alive
    ensures l == D.Kill(c) || l == D.DropAndFail || l == D.Close
  {
  }

  /** A live direct connection is ended by the environment, by the prober's
      `dropAndFail` or by `Close`, never by `openStream` or a watcher. */
  lemma WhoEndsALiveConnection(r: Run, i: nat, c: ConnId)
    requires IsRun(r) && i < |r.labels|
    requires c in r.states[i].d.alive && c !in r.states[i + 1].d.alive
    ensures || r.labels[i] == KillDirect(c)
            || r.labels[i] == Close
            || (r.labels[i] == Probe && r.states[i].prober.pc.Dropping?)
  {
    DirectStepAt(r, i);
    assert Linked(r, i);
    SlotStepEnds(r.states[i].d, DirectLabel(r.states[i], r.labels[i]).value, c);
  }

  /** The connection in the slot has exactly one watcher that has not fired, running
      or about to be started by exactly one caller. */
  lemma SlotConnectionIsWatched(r: Run, k: nat, c: ConnId)
    requires IsRun(r) && k < |r.states| && r.states[k].d.qconn == Some(c)
    ensures var d := r.states[k].d;
            if c in d.watchers then d.watchers[c] == D.Waiting && forall w :: !D.IsSpawning(d, w, c)
            else exists w :: D.IsSpawning(d, w, c) && forall w' :: D.IsSpawning(d, w', c) ==> w' == w
  {
    RunInv(r, k);
    var d := r.states[k].d;
    if c !in d.watchers {
      var w :| D.IsSpawning(d, w, c);
      assert forall w' :: D.IsSpawning(d, w', c) ==> w' == w;
    }
  }

  /** So once that connection is dead, either its watcher can clear the slot as soon
      as d.mu is free, or a caller can start the watcher at once. */
  lemma DeadSlotConnectionIsCleared(r: Run, k: nat, c: ConnId)
    requires IsRun(r) && k < |r.states|
    requires r.states[k].d.qconn == Some(c) && c !in r.states[k].d.alive && r.states[k].d.mu.None?
    ensures var s := r.states[k];
            || (var t := Step(s, Watch(c));
                t.Some? && t.value.d.qconn.None? && t.value.d.open == {}
                && t.value.d.failUntil == s.d.now + DIRECT_FAIL_COOLDOWN)
            || (exists w :: D.IsSpawning(s.d, w, c) && Step(s, Op(D.Advance(w))).Some?)
  {
    RunInv(r, k);
    SlotConnectionIsWatched(r, k, c);
    var s := r.states[k];
    if c !in s.d.watchers {
      var w :| D.IsSpawning(s.d, w, c);
      assert Step(s, Op(D.Advance(w))).Some?;
    }
  }

  lemma SlotNeverTakesBack(d: D.Slot, l: D.Label, c: ConnId)
    requires D.Step(d, l).Some? && c < d.nextConn && d.qconn != Some(c)
    ensures var e := D.Step(d, l).value; c < e.nextConn && e.qconn != Some(c)
  {
  }

  lemma {:induction false} StaysOut(r: Run, j: nat, k: nat, c: ConnId)
    requires IsRun(r) && j <= k < |r.states|
    requires c < r.states[j].d.nextConn && r.states[j].d.qconn != Some(c)
    ensures c < r.states[k].d.nextConn && r.states[k].d.qconn != Some(c)
  {
    if j < k {
      StaysOut(r, j, k - 1, c);
      DirectStepAt(r, k - 1);
      if DirectLabel(r.states[k - 1], r.labels[k - 1]).Some? {
        SlotNeverTakesBack(r.states[k - 1].d, DirectLabel(r.states[k - 1], r.labels[k - 1]).value, c);
      }
    }
  }

  lemma IdsGrowStep(d: D.Slot, l: D.Label)
    requires D.Step(d, l).Some?
    ensures d.nextConn <= D.Step(d, l).value.nextConn
  {
  }

  lemma {:induction false} IdsGrow(r: Run, i: nat, j: nat)
    requires IsRun(r) && i <= j < |r.states|
    ensures r.states[i].d.nextConn <= r.states[j].d.nextConn
  {
    if i < j {
      IdsGrow(r, i, j - 1);
      DirectStepAt(r, j - 1);
      if DirectLabel(r.states[j - 1], r.labels[j - 1]).Some? {
        IdsGrowStep(r.states[j - 1].d, DirectLabel(r.states[j - 1], r.labels[j - 1]).value);
      }
    }
  }

  /** A connection enters the slot at most once and never comes back. */
  lemma ConnectionNeverReturns(r: Run, i: nat, j: nat, k: nat, c: ConnId)
    requires IsRun(r) && i <= j <= k < |r.states|
    requires r.states[i].d.qconn == Some(c) && r.states[j].d.qconn != Some(c)
    ensures r.states[k].d.qconn != Some(c)
  {
    RunInv(r, i);
    IdsGrow(r, i, j);
    StaysOut(r, j, k, c);
  }

  /** The watcher of c is not clearing anything. */
  predicate Harmless(d: D.Slot, c: ConnId) {
    c in d.watchers ==> d.watchers[c] == D.Waiting || d.watchers[c] == D.Fired
  }

  lemma HarmlessStep(d: D.Slot, l: D.Label, c: ConnId)
    requires D.Step(d, l).Some? && d.qconn != Some(c) && Harmless(d, c)
    ensures Harmless(D.Step(d, l).value, c)
  {
  }

  lemma {:induction false} StaysHarmless(r: Run, j: nat, k: nat, c: ConnId)
    requires IsRun(r) && j <= k < |r.states| && Harmless(r.states[j].d, c)
    requires c < r.states[j].d.nextConn && r.states[j].d.qconn != Some(c)
    ensures Harmless(r.states[k].d, c)
  {
    if j < k {
      StaysHarmless(r, j, k - 1, c);
      StaysOut(r, j, k - 1, c);
      DirectStepAt(r, k - 1);
      if DirectLabel(r.states[k - 1], r.labels[k - 1]).Some? {
        HarmlessStep(r.states[k - 1].d, DirectLabel(r.states[k - 1], r.labels[k - 1]).value, c);
      }
    }
  }

  /** A connection that somebody else has removed from the slot is superseded for good: when
      its watcher wakes up, however much later, it changes nothing but its own place. */
  lemma SupersededWatcherTouchesNothing(r: Run, i: nat, j: nat, k: nat, c: ConnId)
    requires IsRun(r) && i <= j <= k < |r.labels|
    requires r.states[i].d.qconn == Some(c) && r.states[j].d.qconn != Some(c) && Harmless(r.states[j].d, c)
    requires r.labels[k] == Watch(c)
    ensures var s := r.states[k];
            r.states[k + 1] == s.(d := s.d.(watchers := s.d.watchers[c := D.Fired]))
  {
    RunInv(r, i);
    IdsGrow(r, i, j);
    StaysHarmless(r, j, k, c);
    StaysOut(r, j, k, c);
    assert Linked(r, k);
  }

  // -------------------------------------------------------------- mesh slot

  /** At most one mesh connection lives at any moment; while c.mu is free it is the
      cached one, and a cached connection has an unfired watcher that can clear it
      once it is dead. */
  lemma SingleMeshConnection(r: Run, k: nat)
    requires IsRun(r) && k < |r.states|
    ensures var m := r.states[k].m;
            && (forall c, c' :: c in m.alive && c' in m.alive ==> c == c')
            && (m.mu.None? ==> forall c :: c in m.alive ==> m.qconn == Some(c))
            && (m.qconn.Some? ==> m.qconn.value in m.watching)
            && (m.mu.None? && m.qconn.Some? && m.qconn.value !in m.alive ==>
                  var t := Step(r.states[k], MeshWatch(m.qconn.value)); t.Some? && t.value.m.qconn.None?)
  {
    RunInv(r, k);
  }

  /** The step at which handler t learns that a peering is up. */
  predicate SeesPeering(s: State, l: Label, t: Tid) {
    l == MeshOp(M.Acquire(t, true)) || l == MeshOp(M.AskPeers(t, true))
  }

  predicate AtMesh(s: State, t: Tid, pc: M.MeshPc) {
    t in s.m.ops && s.m.ops[t] == pc
  }

  predicate PastPeering(s: State, t: Tid) {
    t in s.m.ops && (s.m.ops[t].Opening? || s.m.ops[t].Dialing? || s.m.ops[t].FirstStream?)
  }

  lemma MeshReturnStep(m: M.Mesh, l: M.Label, t: Tid, c: ConnId)
    requires M.Inv(m) && M.Step(m, l).Some?
    requires !(t in m.ops && m.ops[t] == M.Returned(M.MeshStream(c)))
    requires var n := M.Step(m, l).value; t in n.ops && n.ops[t] == M.Returned(M.MeshStream(c))
    ensures t in m.ops && (m.ops[t].Opening? || m.ops[t].FirstStream?) && M.Step(m, l).value.qconn == Some(c)
  {
  }

  lemma MeshReturnAt(r: Run, j: nat, t: Tid, c: ConnId)
    requires IsRun(r) && j < |r.labels|
    requires !AtMesh(r.states[j], t, M.Returned(M.MeshStream(c)))
    requires AtMesh(r.states[j + 1], t, M.Returned(M.MeshStream(c)))
    ensures PastPeering(r.states[j], t) && r.states[j + 1].m.qconn == Some(c)
  {
    RunInv(r, j);
    MeshStepAt(r, j);
    MeshReturnStep(r.states[j].m, MeshLabel(r.states[j], r.labels[j]).value, t, c);
  }

  lemma MeshStepAt(r: Run, j: nat)
    requires IsRun(r) && j < |r.labels|
    ensures match MeshLabel(r.states[j], r.labels[j])
            case Some(ml) => M.Step(r.states[j].m, ml) == Some(r.states[j + 1].m)
            case None => r.states[j + 1].m == r.states[j].m
  {
    assert Linked(r, j);
    SlotsOfStep(r.states[j], r.labels[j], r.states[j + 1]);
  }

  lemma PeeringStep(s: State, l: Label, s': State, t: Tid)
    requires Step(s, l) == Some(s') && !PastPeering(s, t) && PastPeering(s', t)
    ensures SeesPeering(s, l, t) && s.peers > 0
  {
    SlotsOfStep(s, l, s');
  }

  lemma PeeringAt(r: Run, i: nat, t: Tid)
    requires IsRun(r) && i < |r.labels| && !PastPeering(r.states[i], t) && PastPeering(r.states[i + 1], t)
    ensures SeesPeering(r.states[i], r.labels[i], t) && r.states[i].peers > 0
  {
    assert Linked(r, i);
    PeeringStep(r.states[i], r.labels[i], r.states[i + 1], t);
  }

  /** A mesh stream belongs to the connection that is cached when it is returned, and
      the call that returned it saw a peering up, at a step that really had one. */
  lemma MeshStreamIsPeered(r: Run, k: nat, t: Tid, c: ConnId) returns (i: nat, j: nat)
    requires IsRun(r) && k < |r.states| && AtMesh(r.states[k], t, M.Returned(M.MeshStream(c)))
    ensures i < j < k
    ensures SeesPeering(r.states[i], r.labels[i], t) && r.states[i].peers > 0
    ensures forall x :: i < x <= j ==> PastPeering(r.states[x], t)
    ensures r.states[j + 1].m.qconn == Some(c)
    ensures forall x :: j < x <= k ==> AtMesh(r.states[x], t, M.Returned(M.MeshStream(c)))
  {
    j := LastRise(r, (s: State) => AtMesh(s, t, M.Returned(M.MeshStream(c))), k);
    MeshReturnAt(r, j, t, c);
    i := LastRise(r, (s: State) => PastPeering(s, t), j);
    PeeringAt(r, i, t);
  }

  /** Handler t's own mesh attempt fails here: no peering, no dial, or no stream. */
  predicate MeshFails(l: Label, t: Tid) {
    l == MeshOp(M.AskPeers(t, false)) || l == MeshOp(M.Dialed(t, false)) || l == MeshOp(M.First(t, false))
  }

  lemma NoStreamStep(s: State, l: Label, s': State, t: Tid)
    requires Step(s, l) == Some(s') && !At(s, t, Done(NoStream)) && At(s', t, Done(NoStream))
    ensures AtMesh(s, t, M.Returned(M.MeshError))
  {
  }

  lemma MeshErrorStep(s: State, l: Label, s': State, t: Tid)
    requires Step(s, l) == Some(s')
    requires !AtMesh(s, t, M.Returned(M.MeshError)) && AtMesh(s', t, M.Returned(M.MeshError))
    ensures MeshFails(l, t)
  {
    SlotsOfStep(s, l, s');
  }

  /** `client.openStream` fails only if its own mesh attempt failed, however the
      direct attempt before it went. */
  lemma HandlerFailsOnlyWithItsMeshAttempt(r: Run, k: nat, t: Tid) returns (i: nat)
    requires IsRun(r) && k < |r.states| && At(r.states[k], t, Done(NoStream))
    ensures i < k && MeshFails(r.labels[i], t)
  {
    var j := LastRise(r, (s: State) => At(s, t, Done(NoStream)), k);
    assert Linked(r, j);
    NoStreamStep(r.states[j], r.labels[j], r.states[j + 1], t);
    i := LastRise(r, (s: State) => AtMesh(s, t, M.Returned(M.MeshError)), j);
    assert Linked(r, i);
    MeshErrorStep(r.states[i], r.labels[i], r.states[i + 1], t);
  }
}
