/** What each half of `openStream` gives its caller, and what a handler makes of it: a
    stream is returned exactly if it was opened, errors have their causes, usable
    connections are used, and no stream is thrown away. */
module Delivery {
  import opened Types
  import opened Channel
  import D = DirectSlot
  import M = MeshSlot
  import opened Callers
  import opened Progress
  import opened Cooldowns
  import opened Downgrades
  import opened Ownership

  // ------------------------------------------------------------- the direct half

  predicate HasResult(op: Option<D.OpPc>, res: D.OpResult) {
    op == Some(D.Returned(res))
  }

  /** The stream open of a call succeeds, on connection c. */
  predicate OpensStream(l: D.Label, op: Option<D.OpPc>, w: Who, c: ConnId) {
    (l == D.Opened(w, true) && op == Some(D.Opening(c))) || (l == D.First(w, true) && op == Some(D.FirstStream(c)))
  }

  /** The steps that give a call its result. */
  predicate GivesResult(d: D.Slot, l: D.Label, w: Who, res: D.OpResult) {
    match res
    case Stream(c) => OpensStream(l, OpAt(d, w), w, c)
    case Cooldown => l == D.Acquire(w) && d.now < d.failUntil
    case Failed =>
      || (l == D.Opened(w, false) && D.ConnAlive(d))
      || l == D.First(w, false)
      || (l == D.Advance(w) && OpAt(d, w) == Some(D.ShowingFailed))
  }

  lemma SlotGivesResult(d: D.Slot, l: D.Label, w: Who, res: D.OpResult)
    requires D.Step(d, l).Some? && (OpAt(d, w).Some? ==> !OpAt(d, w).value.Returned?)
    ensures HasResult(OpAt(D.Step(d, l).value, w), res) <==> GivesResult(d, l, w, res)
  {
  }

  lemma DirectLabelOf(s: State, op: D.Label)
    requires InsideOpenStream(op)
    ensures DirectLabel(s, Op(op)) == Some(op)
    ensures forall l :: DirectLabel(s, l) == Some(op) ==> l == Op(op)
  {
  }

  /** A call of `directClient.openStream` gets its result exactly so: a stream, if its stream
      open succeeded, on the connection it was waiting for; the cooldown error, if the path
      cools down when the lock is taken; and an error, if a stream open failed and the
      connection lives, the first stream open on a new connection failed, or after the
      downgrade for its own failed dial. */
  lemma CallGetsResult(r: Run, i: nat, w: Who, res: D.OpResult)
    requires IsRun(r) && i < |r.labels|
    requires OpAt(r.states[i].d, w).Some? ==> !OpAt(r.states[i].d, w).value.Returned?
    ensures HasResult(OpAt(r.states[i + 1].d, w), res) <==>
              r.labels[i].Op? && GivesResult(r.states[i].d, r.labels[i].op, w, res)
  {
    DirectStepAt(r, i);
    if DirectLabel(r.states[i], r.labels[i]).Some? {
      SlotGivesResult(r.states[i].d, DirectLabel(r.states[i], r.labels[i]).value, w, res);
    }
  }

  predicate AfterFailedDial(d: D.Slot, w: Who) {
    OpAt(d, w) == Some(D.MarkingFailed) || OpAt(d, w) == Some(D.ShowingFailed)
  }

  lemma SlotFailsDial(d: D.Slot, l: D.Label, w: Who)
    requires D.Step(d, l).Some? && !AfterFailedDial(d, w) && AfterFailedDial(D.Step(d, l).value, w)
    ensures l == D.Socket(w, false) || l == D.Handshake(w, false)
  {
  }

  /** The error after a failed dial really comes after one: the call's own. */
  lemma FailedCallDialled(r: Run, k: nat, w: Who) returns (j: nat)
    requires IsRun(r) && k < |r.states| && AfterFailedDial(r.states[k].d, w)
    ensures j < k && FailsDial(r.labels[j]) && r.labels[j].op.who == w
    ensures forall x :: j < x <= k ==> AfterFailedDial(r.states[x].d, w)
  {
    j := LastRise(r, (s: State) => AfterFailedDial(s.d, w), k);
    DirectStepAt(r, j);
    var dl := DirectLabel(r.states[j], r.labels[j]).value;
    SlotFailsDial(r.states[j].d, dl, w);
    DirectLabelOf(r.states[j], dl);
  }

  lemma SlotDials(d: D.Slot, l: D.Label, w: Who)
    requires D.Step(d, l).Some? && !DialsIn(d, w) && DialsIn(D.Step(d, l).value, w)
    ensures !D.ConnAlive(d) && (l == D.Acquire(w) || l == D.Opened(w, false))
  {
  }

  lemma SlotUsesConnection(d: D.Slot, l: D.Label, w: Who)
    requires D.Step(d, l).Some? && l == D.Acquire(w) && d.now >= d.failUntil && D.ConnAlive(d)
    ensures OpAt(D.Step(d, l).value, w) == Some(D.Opening(d.qconn.value))
  {
  }

  /** A living connection is used: a caller that takes the lock outside a cooldown opens its
      stream on it, and nobody dials while it lives. */
  lemma LivingConnectionIsUsed(r: Run, i: nat, w: Who)
    requires IsRun(r) && i < |r.labels| && D.ConnAlive(r.states[i].d)
    ensures r.labels[i] == Op(D.Acquire(w)) && r.states[i].d.now >= r.states[i].d.failUntil ==>
              OpAt(r.states[i + 1].d, w) == Some(D.Opening(r.states[i].d.qconn.value))
    ensures !StartsDial(r.states[i], r.states[i + 1], w)
  {
    DirectStepAt(r, i);
    var dl := DirectLabel(r.states[i], r.labels[i]);
    if r.labels[i] == Op(D.Acquire(w)) && r.states[i].d.now >= r.states[i].d.failUntil {
      SlotUsesConnection(r.states[i].d, dl.value, w);
    }
    if StartsDial(r.states[i], r.states[i + 1], w) {
      SlotDials(r.states[i].d, dl.value, w);
      assert false;
    }
  }

  // --------------------------------------------------------------- the mesh half

  predicate MeshGivesResult(m: M.Mesh, l: M.Label, t: Tid, res: M.MeshResult) {
    match res
    case MeshStream(c) =>
      || (l == M.Opened(t, true) && MeshOpAt(m, t) == Some(M.Opening(c)))
      || (l == M.First(t, true) && MeshOpAt(m, t) == Some(M.FirstStream(c)))
    case MeshError => l == M.AskPeers(t, false) || l == M.Dialed(t, false) || l == M.First(t, false)
  }

  lemma SlotGivesMeshResult(m: M.Mesh, l: M.Label, t: Tid, res: M.MeshResult)
    requires M.Step(m, l).Some? && (MeshOpAt(m, t).Some? ==> !MeshOpAt(m, t).value.Returned?)
    ensures MeshOpAt(M.Step(m, l).value, t) == Some(M.Returned(res)) <==> MeshGivesResult(m, l, t, res)
  {
  }

  /** The mesh half gets its result exactly so: a stream, if it was opened, on the connection
      the call was waiting for; an error, without a peering, a dial or a first stream. */
  lemma MeshCallGetsResult(r: Run, i: nat, t: Tid, res: M.MeshResult)
    requires IsRun(r) && i < |r.labels|
    requires MeshOpAt(r.states[i].m, t).Some? ==> !MeshOpAt(r.states[i].m, t).value.Returned?
    ensures MeshOpAt(r.states[i + 1].m, t) == Some(M.Returned(res)) <==>
              r.labels[i].MeshOp? && MeshGivesResult(r.states[i].m, r.labels[i].mop, t, res)
  {
    MeshStepAt(r, i);
    if MeshLabel(r.states[i], r.labels[i]).Some? {
      SlotGivesMeshResult(r.states[i].m, MeshLabel(r.states[i], r.labels[i]).value, t, res);
    }
  }

  predicate MeshConnAlive(m: M.Mesh) {
    m.qconn.Some? && m.qconn.value in m.alive
  }

  /** The steps of the mesh half that may end a connection. */
  predicate EndsMesh(m: M.Mesh, l: M.Label, c: ConnId) {
    match l
    case Kill(k) => k == c
    case Acquire(_, up) => !up && m.qconn == Some(c)
    case Opened(t, ok) => !ok && MeshOpAt(m, t) == Some(M.Opening(c))
    case First(t, ok) => !ok && MeshOpAt(m, t) == Some(M.FirstStream(c))
    case _ => false
  }

  lemma MeshSlotEnds(m: M.Mesh, l: M.Label, c: ConnId)
    requires M.Inv(m) && M.Step(m, l).Some? && c in m.alive
    ensures c !in M.Step(m, l).value.alive <==> EndsMesh(m, l, c)
  {
  }

  /** A living mesh connection ends exactly when the environment ends it, a caller finds no
      peering, or a stream open on it fails: no new stream costs the others theirs. */
  lemma WhoEndsALiveMeshConnection(r: Run, i: nat, c: ConnId)
    requires IsRun(r) && i < |r.labels| && c in r.states[i].m.alive
    ensures c !in r.states[i + 1].m.alive <==>
              MeshLabel(r.states[i], r.labels[i]).Some?
              && EndsMesh(r.states[i].m, MeshLabel(r.states[i], r.labels[i]).value, c)
  {
    RunInv(r, i);
    MeshStepAt(r, i);
    if MeshLabel(r.states[i], r.labels[i]).Some? {
      MeshSlotEnds(r.states[i].m, MeshLabel(r.states[i], r.labels[i]).value, c);
    }
  }

  predicate AboutToDialMesh(m: M.Mesh, t: Tid) {
    MeshOpAt(m, t) == Some(M.Gate)
  }

  lemma MeshSlotAcquires(m: M.Mesh, l: M.Label, t: Tid)
    requires M.Step(m, l).Some?
    ensures var n := M.Step(m, l).value;
            && (l == M.Acquire(t, true) && MeshConnAlive(m) ==> MeshOpAt(n, t) == Some(M.Opening(m.qconn.value)))
            && (!AboutToDialMesh(m, t) && AboutToDialMesh(n, t) ==>
                  l == M.Opened(t, false) || (l.Acquire? && l.tid == t && (!l.up || !MeshConnAlive(m))))
  {
  }

  /** A usable mesh connection is used: a caller that sees a peering opens its stream on the
      living cached connection, and comes to dial only without a peering or a living one, or
      after its stream open failed. */
  lemma LivingMeshConnectionIsUsed(r: Run, i: nat, t: Tid)
    requires IsRun(r) && i < |r.labels|
    ensures var m, n := r.states[i].m, r.states[i + 1].m;
            && (r.labels[i] == MeshOp(M.Acquire(t, true)) && MeshConnAlive(m) ==>
                  MeshOpAt(n, t) == Some(M.Opening(m.qconn.value)))
            && (!AboutToDialMesh(m, t) && AboutToDialMesh(n, t) ==>
                  r.labels[i].MeshOp? &&
                  var ml := r.labels[i].mop;
                  ml == M.Opened(t, false) || (ml.Acquire? && ml.tid == t && (!ml.up || !MeshConnAlive(m))))
  {
    MeshStepAt(r, i);
    if MeshLabel(r.states[i], r.labels[i]).Some? {
      MeshSlotAcquires(r.states[i].m, MeshLabel(r.states[i], r.labels[i]).value, t);
    }
  }

  // ------------------------------------------------------ what a handler makes of it

  /** How handler t comes to stand at `pc`. */
  predicate Arrives(s: State, l: Label, pc: HandlerPc, t: Tid) {
    var op, mop := OpAt(s.d, Handler(t)), MeshOpAt(s.m, t);
    match pc
    case Check => l == Start(t)
    case InDirect => l == Handle(t) && At(s, t, Check) && IsVerified(s)
    case CheckAlive => l == Handle(t) && At(s, t, InDirect) && (HasResult(op, D.Failed) || HasResult(op, D.Cooldown))
    case MarkingFailed => FindsNoConnection(s, l, t)
    case ShowingFallback => l == Handle(t) && At(s, t, MarkingFailed)
    case InMesh =>
      l == Handle(t) && ((At(s, t, Check) && !IsVerified(s)) || (At(s, t, CheckAlive) && D.ConnAlive(s.d))
                         || At(s, t, ShowingFallback))
    case Done(out) =>
      l == Handle(t) && match out
                        case ViaDirect(c) => At(s, t, InDirect) && HasResult(op, D.Stream(c))
                        case ViaMesh(c) => At(s, t, InMesh) && mop == Some(M.Returned(M.MeshStream(c)))
                        case NoStream => At(s, t, InMesh) && mop == Some(M.Returned(M.MeshError))
  }

  lemma HandlerArrives(s: State, s': State, t: Tid)
    requires Step(s, Handle(t)) == Some(s') && t in s'.handlers
    ensures Arrives(s, Handle(t), s'.handlers[t], t)
  {
  }

  lemma ArrivalStep(s: State, l: Label, s': State, t: Tid)
    requires Step(s, l) == Some(s') && HandlerCalls(s, t) && t in s'.handlers && !At(s, t, s'.handlers[t])
    ensures Arrives(s, l, s'.handlers[t], t)
  {
    if l == Handle(t) {
      HandlerArrives(s, s', t);
    } else if !l.Start? {
      OtherStepKeepsCalls(s, l, s', t);
      NoOtherStart(s, l, s', t);
    }
  }

  lemma NoOtherStart(s: State, l: Label, s': State, t: Tid)
    requires Step(s, l) == Some(s') && !l.Start? && t in s'.handlers
    ensures t in s.handlers
  {
    if l.Probe? {
      ProberLeavesHandlers(s, s');
    } else if !l.Handle? {
      HandlersStay(s, l, s');
    }
  }

  /** A handler stands where it stands because of one earlier step. */
  lemma CameFrom(r: Run, k: nat, t: Tid) returns (i: nat)
    requires IsRun(r) && k < |r.states| && t in r.states[k].handlers
    ensures i < k && Arrives(r.states[i], r.labels[i], r.states[k].handlers[t], t)
    ensures forall x :: i < x <= k ==> At(r.states[x], t, r.states[k].handlers[t])
  {
    var pc := r.states[k].handlers[t];
    i := LastRise(r, (s: State) => At(s, t, pc), k);
    CallRunInv(r, i);
    assert HandlerCalls(r.states[i], t);
    assert Linked(r, i);
    ArrivalStep(r.states[i], r.labels[i], r.states[i + 1], t);
  }

  /** A direct stream is delivered: once handler t's own call stands at a stream, the next
      step of the handler hands that stream to the user. */
  lemma DirectStreamIsDelivered(r: Run, i: nat, t: Tid, c: ConnId)
    requires IsRun(r) && i < |r.labels| && HasResult(OpAt(r.states[i].d, Handler(t)), D.Stream(c))
    requires Own(r.labels[i], Handler(t))
    ensures At(r.states[i + 1], t, Done(ViaDirect(c)))
  {
    CallRunInv(r, i);
    assert HandlerCalls(r.states[i], t);
    assert Linked(r, i);
    OnlyHandleAtResult(r.states[i], r.labels[i], t);
    HandlerArrives(r.states[i], r.states[i + 1], t);
    HandlerMoves(r.states[i], r.states[i + 1], t);
  }

  lemma OnlyHandleAtResult(s: State, l: Label, t: Tid)
    requires Step(s, l).Some? && HandlerCalls(s, t) && Own(l, Handler(t))
    requires OpAt(s.d, Handler(t)).Some? && OpAt(s.d, Handler(t)).value.Returned?
    ensures l == Handle(t)
  {
    if l.Op? {
      SlotRankFalls(s.d, l.op, Handler(t));
    } else if l.MeshOp? {
      MeshRankFalls(s.m, l.mop, t);
    }
  }

  lemma HandlerMoves(s: State, s': State, t: Tid)
    requires Step(s, Handle(t)) == Some(s')
    ensures t in s.handlers && t in s'.handlers && s'.handlers[t] != s.handlers[t]
  {
  }

  /** Why a handler is in the mesh half. */
  datatype Detour =
    | Unverified                    // its check failed
    | StreamFailed(failed: nat)     // its direct call failed at that step, and the connection lives
    | PathGone(failed: nat, found: nat, cleared: nat) // ... no connection lived, and it cleared the cache

  ghost predicate Explained(r: Run, i: nat, t: Tid, why: Detour)
    requires i < |r.labels| < |r.states|
  {
    match why
    case Unverified => At(r.states[i], t, Check) && !IsVerified(r.states[i])
    case StreamFailed(failed) => failed < i && CallFailed(r, failed, t) && D.ConnAlive(r.states[i].d)
    case PathGone(failed, found, cleared) =>
      && failed < found < cleared < i && CallFailed(r, failed, t)
      && FindsNoConnection(r.states[found], r.labels[found], t)
      && r.labels[cleared] == Handle(t) && Clears(r.states[cleared], r.labels[cleared])
  }

  /** Handler t learns that its direct call failed. */
  ghost predicate CallFailed(r: Run, j: nat, t: Tid)
    requires j < |r.labels| < |r.states|
  {
    Arrives(r.states[j], r.labels[j], CheckAlive, t)
  }

  /** A handler takes the mesh only for a reason: its check found the path unverified, or its
      direct call returned the cooldown error or a failure. After a failure it leaves the
      cache alone if a connection lives, and clears it first if none does. */
  lemma MeshHasReason(r: Run, k: nat, t: Tid) returns (i: nat, why: Detour)
    requires IsRun(r) && k < |r.states| && At(r.states[k], t, InMesh)
    ensures i < k && r.labels[i] == Handle(t) && Explained(r, i, t, why)
    ensures forall x :: i < x <= k ==> At(r.states[x], t, InMesh)
  {
    i := CameFrom(r, k, t);
    why := Unverified;
    if At(r.states[i], t, CheckAlive) {
      var failed := CameFrom(r, i, t);
      why := StreamFailed(failed);
    } else if At(r.states[i], t, ShowingFallback) {
      var cleared := CameFrom(r, i, t);
      var found := CameFrom(r, cleared, t);
      var failed := CameFrom(r, found, t);
      why := PathGone(failed, found, cleared);
    }
  }

  /** What a handler ends with is what the half it was in gave it. */
  lemma OutcomeIsEarned(r: Run, k: nat, t: Tid, out: Outcome) returns (i: nat)
    requires IsRun(r) && k < |r.states| && At(r.states[k], t, Done(out))
    ensures i < k && r.labels[i] == Handle(t)
    ensures var op, mop := OpAt(r.states[i].d, Handler(t)), MeshOpAt(r.states[i].m, t);
            match out
            case ViaDirect(c) => HasResult(op, D.Stream(c))
            case ViaMesh(c) => mop == Some(M.Returned(M.MeshStream(c)))
            case NoStream => mop == Some(M.Returned(M.MeshError))
    ensures forall x :: i < x <= k ==> At(r.states[x], t, Done(out))
  {
    i := CameFrom(r, k, t);
  }
}
