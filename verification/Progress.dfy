/** Nothing waits for ever: a lock holder can always go on, a call takes few steps of its
    own, and under a fair scheduler every handler is done in the end. */
module Progress {
  import opened Types
  import opened Channel
  import D = DirectSlot
  import M = MeshSlot
  import opened Callers

  // -------------------------------------------------------------- whose step it is

  predicate OpOf(l: D.Label, w: Who) {
    (InsideOpenStream(l) || l.Call? || l.Return?) && l.who == w
  }

  predicate MeshOpOf(l: M.Label, t: Tid) {
    (InsideMeshHalf(l) || l.Call? || l.Return?) && l.tid == t
  }

  /** A step of goroutine w. The answers of dials, stream opens and echoes are part of the
      step that waits for them. */
  predicate Own(l: Label, w: Who) {
    || (l.Op? && OpOf(l.op, w))
    || (w.Prober? && OfProber(l))
    || (w.Handler? && (l == Handle(w.tid) || (l.MeshOp? && MeshOpOf(l.mop, w.tid))))
  }

  function OpAt(d: D.Slot, w: Who): Option<D.OpPc> {
    if w in d.ops then Some(d.ops[w]) else None
  }

  function MeshOpAt(m: M.Mesh, t: Tid): Option<M.MeshPc> {
    if t in m.ops then Some(m.ops[t]) else None
  }

  // --------------------------------------------------------------------- ranks

  /** How many steps of its own a call has left, at most. */
  function DirectRank(pc: D.OpPc): nat {
    match pc
    case Locking => 6
    case Opening(_) => 5
    case Dialing => 4
    case Handshaking(_) => 3
    case MarkingFailed => 2
    case Spawning(_) => 2
    case ShowingFailed => 1
    case FirstStream(_) => 1
    case Returned(_) => 0
  }

  function MeshRank(pc: M.MeshPc): nat {
    match pc
    case Locking => 5
    case Opening(_) => 4
    case Gate => 3
    case Dialing => 2
    case FirstStream(_) => 1
    case Returned(_) => 0
  }

  function RankIn(pc: HandlerPc, op: Option<D.OpPc>, mop: Option<M.MeshPc>): nat {
    match pc
    case Check => 17
    case InDirect => 10 + (if op.Some? then DirectRank(op.value) else 0)
    case CheckAlive => 9
    case MarkingFailed => 8
    case ShowingFallback => 7
    case InMesh => 1 + (if mop.Some? then MeshRank(mop.value) else 0)
    case Done(_) => 0
  }

  function HandlerRank(s: State, t: Tid): nat
    requires t in s.handlers
  {
    RankIn(s.handlers[t], OpAt(s.d, Handler(t)), MeshOpAt(s.m, t))
  }

  lemma SlotRankFalls(d: D.Slot, l: D.Label, w: Who)
    requires D.Step(d, l).Some? && InsideOpenStream(l) && l.who == w
    ensures var e := D.Step(d, l).value;
            w in d.ops && w in e.ops && DirectRank(e.ops[w]) < DirectRank(d.ops[w])
  {
  }

  lemma SlotStands(d: D.Slot, l: D.Label, w: Who)
    requires D.Step(d, l).Some? && !OpOf(l, w)
    ensures OpAt(D.Step(d, l).value, w) == OpAt(d, w)
  {
  }

  lemma MeshRankFalls(m: M.Mesh, l: M.Label, t: Tid)
    requires M.Step(m, l).Some? && InsideMeshHalf(l) && l.tid == t
    ensures var n := M.Step(m, l).value;
            t in m.ops && t in n.ops && MeshRank(n.ops[t]) < MeshRank(m.ops[t])
  {
  }

  lemma MeshStands(m: M.Mesh, l: M.Label, t: Tid)
    requires M.Step(m, l).Some? && !MeshOpOf(l, t)
    ensures MeshOpAt(M.Step(m, l).value, t) == MeshOpAt(m, t)
  {
  }

  /** The place of handler t is not touched. */
  predicate Stands(s: State, s': State, t: Tid) {
    && t in s.handlers && t in s'.handlers && s'.handlers[t] == s.handlers[t]
    && OpAt(s'.d, Handler(t)) == OpAt(s.d, Handler(t)) && MeshOpAt(s'.m, t) == MeshOpAt(s.m, t)
  }

  lemma ForeignLabels(s: State, l: Label, w: Who)
    requires Step(s, l).Some? && !Own(l, w)
    ensures DirectLabel(s, l).Some? ==> !OpOf(DirectLabel(s, l).value, w)
    ensures w.Handler? && MeshLabel(s, l).Some? ==> !MeshOpOf(MeshLabel(s, l).value, w.tid)
  {
  }

  lemma OtherStep(s: State, l: Label, s': State, t: Tid)
    requires Step(s, l) == Some(s') && t in s.handlers && HandlerCalls(s, t) && !Own(l, Handler(t))
    ensures Stands(s, s', t)
  {
    OtherStepKeepsCalls(s, l, s', t);
    SlotsOfStep(s, l, s');
    ForeignLabels(s, l, Handler(t));
    if DirectLabel(s, l).Some? {
      SlotStands(s.d, DirectLabel(s, l).value, Handler(t));
    }
    if MeshLabel(s, l).Some? {
      MeshStands(s.m, MeshLabel(s, l).value, t);
    }
  }

  lemma OwnOpFalls(s: State, op: D.Label, s': State, t: Tid)
    requires Step(s, Op(op)) == Some(s') && t in s.handlers && HandlerCalls(s, t) && OpOf(op, Handler(t))
    ensures t in s'.handlers && HandlerRank(s', t) < HandlerRank(s, t)
  {
    SlotsOfStep(s, Op(op), s');
    HandlersStay(s, Op(op), s');
    SlotRankFalls(s.d, op, Handler(t));
  }

  lemma OwnMeshOpFalls(s: State, mop: M.Label, s': State, t: Tid)
    requires Step(s, MeshOp(mop)) == Some(s') && t in s.handlers && HandlerCalls(s, t) && MeshOpOf(mop, t)
    ensures t in s'.handlers && HandlerRank(s', t) < HandlerRank(s, t)
  {
    SlotsOfStep(s, MeshOp(mop), s');
    HandlersStay(s, MeshOp(mop), s');
    MeshRankFalls(s.m, mop, t);
  }

  lemma HandleFalls(s: State, s': State, t: Tid)
    requires Step(s, Handle(t)) == Some(s') && HandlerCalls(s, t)
    ensures t in s.handlers && t in s'.handlers && HandlerRank(s', t) < HandlerRank(s, t)
  {
  }

  /** Every step of its own brings a handler nearer to its end. */
  lemma OwnStepFalls(s: State, l: Label, s': State, t: Tid)
    requires Step(s, l) == Some(s') && t in s.handlers && HandlerCalls(s, t) && Own(l, Handler(t))
    ensures t in s'.handlers && HandlerRank(s', t) < HandlerRank(s, t)
  {
    match l
    case Op(op) => OwnOpFalls(s, op, s', t);
    case MeshOp(mop) => OwnMeshOpFalls(s, mop, s', t);
    case _ => HandleFalls(s, s', t);
  }

  // --------------------------------------------------------------- bounded calls

  ghost function OwnSteps(r: Run, w: Who, i: nat, k: nat): nat
    requires i <= k <= |r.labels|
    decreases k
  {
    if i == k then 0 else OwnSteps(r, w, i, k - 1) + (if Own(r.labels[k - 1], w) then 1 else 0)
  }

  lemma HandlerStepAt(r: Run, i: nat, t: Tid)
    requires IsRun(r) && i < |r.labels| && t in r.states[i].handlers
    ensures t in r.states[i + 1].handlers
    ensures if Own(r.labels[i], Handler(t)) then HandlerRank(r.states[i + 1], t) < HandlerRank(r.states[i], t)
            else HandlerRank(r.states[i + 1], t) == HandlerRank(r.states[i], t)
  {
    CallRunInv(r, i);
    assert HandlerCalls(r.states[i], t);
    assert Linked(r, i);
    if Own(r.labels[i], Handler(t)) {
      OwnStepFalls(r.states[i], r.labels[i], r.states[i + 1], t);
    } else {
      OtherStep(r.states[i], r.labels[i], r.states[i + 1], t);
    }
  }

  /** A handler takes at most 17 steps of its own in `client.openStream`, waiting for answers
      and locks included, whatever the others do. */
  lemma {:induction false} HandlerTakesFewSteps(r: Run, t: Tid, i: nat, k: nat)
    requires IsRun(r) && i <= k < |r.states| && t in r.states[i].handlers
    ensures t in r.states[k].handlers
    ensures OwnSteps(r, Handler(t), i, k) + HandlerRank(r.states[k], t) <= HandlerRank(r.states[i], t) <= 17
    decreases k
  {
    if i < k {
      HandlerTakesFewSteps(r, t, i, k - 1);
      HandlerStepAt(r, k - 1, t);
    }
  }

  lemma CallStep(s: State, l: Label, s': State, w: Who)
    requires Step(s, l) == Some(s') && ProberCalls(s) && (w.Handler? ==> HandlerCalls(s, w.tid))
    requires w in s.d.ops && w in s'.d.ops
    ensures if Own(l, w) then DirectRank(s'.d.ops[w]) < DirectRank(s.d.ops[w]) else OpAt(s'.d, w) == OpAt(s.d, w)
  {
    SlotsOfStep(s, l, s');
    CallersOfStep(s, l, s', w);
    if !Own(l, w) {
      ForeignLabels(s, l, w);
      if DirectLabel(s, l).Some? {
        SlotStands(s.d, DirectLabel(s, l).value, w);
      }
    } else if l.Op? {
      SlotRankFalls(s.d, l.op, w);
    } else if w.Prober? {
      NoOtherOwnStep(s, l, s');
    } else {
      OnlyReturns(s, l, s', w.tid);
    }
  }

  /** While its call is in progress the prober does nothing but wait for it. */
  lemma NoOtherOwnStep(s: State, l: Label, s': State)
    requires Step(s, l) == Some(s') && OfProber(l) && ProberCalls(s) && Prober in s.d.ops
    ensures Prober !in s'.d.ops
  {
    if l.Probe? {
      CallersOfStep(s, l, s', Prober);
    }
  }

  lemma OnlyReturns(s: State, l: Label, s': State, t: Tid)
    requires Step(s, l) == Some(s') && HandlerCalls(s, t) && Handler(t) in s.d.ops
    requires l == Handle(t) || (l.MeshOp? && MeshOpOf(l.mop, t))
    ensures Handler(t) !in s'.d.ops
  {
    if l.MeshOp? {
      SlotsOfStep(s, l, s');
      MeshCallers(s.m, l.mop, t);
    }
  }

  lemma CallStepAt(r: Run, i: nat, w: Who)
    requires IsRun(r) && i < |r.labels| && w in r.states[i].d.ops && w in r.states[i + 1].d.ops
    ensures var d, e := r.states[i].d, r.states[i + 1].d;
            if Own(r.labels[i], w) then DirectRank(e.ops[w]) < DirectRank(d.ops[w]) else OpAt(e, w) == OpAt(d, w)
  {
    CallRunInv(r, i);
    assert w.Handler? ==> HandlerCalls(r.states[i], w.tid);
    assert Linked(r, i);
    CallStep(r.states[i], r.labels[i], r.states[i + 1], w);
  }

  /** A call of `directClient.openStream` takes at most six steps of its caller, the prober's
      as well as a handler's, before it has its result. */
  lemma {:induction false} CallTakesFewSteps(r: Run, w: Who, i: nat, k: nat)
    requires IsRun(r) && i <= k < |r.states| && forall x :: i <= x <= k ==> w in r.states[x].d.ops
    ensures OwnSteps(r, w, i, k) + DirectRank(r.states[k].d.ops[w]) <= DirectRank(r.states[i].d.ops[w]) <= 6
    decreases k
  {
    if i < k {
      CallTakesFewSteps(r, w, i, k - 1);
      CallStepAt(r, k - 1, w);
    }
  }

  // ---------------------------------------------------------- holders never block

  /** The step of the holder of d.mu, whatever the answer it waits for. */
  function HolderStep(pc: D.OpPc, w: Who, ok: bool): Label {
    match pc
    case Opening(_) => Op(D.Opened(w, ok))
    case Dialing => Op(D.Socket(w, ok))
    case _ => Op(D.Handshake(w, ok))
  }

  function MeshHolderStep(pc: M.MeshPc, t: Tid, ok: bool, up: bool): Label {
    match pc
    case Opening(_) => MeshOp(M.Opened(t, ok))
    case Gate => MeshOp(M.AskPeers(t, up))
    case Dialing => MeshOp(M.Dialed(t, ok))
    case _ => MeshOp(M.First(t, ok))
  }

  lemma HolderGoes(s: State, w: Who, ok: bool)
    requires D.LockInv(s.d) && s.d.mu == Some(w)
    ensures w in s.d.ops && Step(s, HolderStep(s.d.ops[w], w, ok)).Some?
  {
    assert w in s.d.ops && D.HoldsMu(s.d.ops[w]);
  }

  lemma MeshHolderGoes(s: State, t: Tid, ok: bool)
    requires M.LockInv(s.m) && s.m.mu == Some(t)
    ensures t in s.m.ops && Step(s, MeshHolderStep(s.m.ops[t], t, ok, s.peers > 0)).Some?
  {
    assert t in s.m.ops && M.HoldsMu(s.m.ops[t]);
  }

  /** Whoever holds a lock can take its next step, whatever the answer it gets: neither d.mu
      nor c.mu is ever part of a deadlock. */
  lemma NoDeadlock(r: Run, k: nat, ok: bool)
    requires IsRun(r) && k < |r.states|
    ensures var s := r.states[k];
            && (s.d.mu.Some? ==>
                  var w := s.d.mu.value; w in s.d.ops && Step(s, HolderStep(s.d.ops[w], w, ok)).Some?)
            && (s.m.mu.Some? ==>
                  var t := s.m.mu.value;
                  t in s.m.ops && Step(s, MeshHolderStep(s.m.ops[t], t, ok, s.peers > 0)).Some?)
  {
    RunInv(r, k);
    var s := r.states[k];
    if s.d.mu.Some? {
      HolderGoes(s, s.d.mu.value, ok);
    }
    if s.m.mu.Some? {
      MeshHolderGoes(s, s.m.mu.value, ok);
    }
  }
}
