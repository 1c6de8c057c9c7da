/** The way to a direct dial. The prober dials only on top of an active mesh channel and
    recent activity, a handler only for a path that it found verified. */
module Dials {
  import opened Types
  import opened Channel
  import D = DirectSlot
  import opened Loop
  import opened Phases
  import opened Verification
  import opened Cooldowns
  import opened Callers

  // ------------------------------------------------------ from the gates to a call

  /** Who calls: the prober at the begin of a probe, a handler whose check passes. */
  predicate Calls(s: State, l: Label, w: Who) {
    match w
    case Prober => l == Probe && s.prober.pc.Begin?
    case Handler(t) => l == Handle(t) && At(s, t, Check) && IsVerified(s)
  }

  /** Past the idle gate, on the way to the call of `openStream`. */
  predicate BeforeCall(s: State) {
    || s.prober.pc == ReadVerified || s.prober.pc.SyncVerified? || s.prober.pc.SyncState? || s.prober.pc.SyncShow?
    || s.prober.pc.Begin?
  }

  lemma BeforeCallStep(s: State, l: Label, t: State)
    requires LoopStep(s, l, t) && !BeforeCall(s) && BeforeCall(t)
    ensures PassesIdleGate(s, l)
  {
  }

  /** The idle gate that a call of the prober passed. */
  lemma GateOfCall(r: Run, k: nat) returns (gate: nat)
    requires IsRun(r) && k < |r.states| && BeforeCall(r.states[k])
    ensures gate < k && PassesIdleGate(r.states[gate], r.labels[gate])
    ensures forall x :: gate < x <= k ==> BeforeCall(r.states[x])
  {
    gate := LastRise(r, (s: State) => BeforeCall(s), k);
    LoopAt(r, gate);
    BeforeCallStep(r.states[gate], r.labels[gate], r.states[gate + 1]);
  }

  /** Every probe is gated: each call of `openStream` by the prober comes after a mesh gate
      passed with a peering up and an idle gate passed with recent activity, in one and the
      same iteration of its loop. */
  lemma ProberCallIsGated(r: Run, k: nat) returns (mesh: nat, idle: nat)
    requires IsRun(r) && k < |r.labels| && Calls(r.states[k], r.labels[k], Prober)
    ensures mesh < idle < k
    ensures PassesMeshGate(r.states[mesh], r.labels[mesh]) && PassesIdleGate(r.states[idle], r.labels[idle])
    ensures forall x :: mesh < x <= k ==> PastMeshGate(r.states[x])
  {
    idle := GateOfCall(r, k);
    mesh := LastRise(r, (s: State) => PastMeshGate(s), idle);
    EdgeAt(r, mesh);
    forall x | mesh < x <= k ensures PastMeshGate(r.states[x]) {
      assert idle < x ==> BeforeCall(r.states[x]);
    }
  }

  // ------------------------------------------------------ from the call to a dial

  /** The call of w has not come to a dial yet. */
  predicate BeforeDial(d: D.Slot, w: Who) {
    w in d.ops && (d.ops[w].Locking? || d.ops[w].Opening?)
  }

  lemma DialSteps(d: D.Slot, l: D.Label, w: Who)
    requires D.Step(d, l).Some?
    ensures var e := D.Step(d, l).value;
            && (!DialsIn(d, w) && DialsIn(e, w) ==> BeforeDial(d, w))
            && (!BeforeDial(d, w) && BeforeDial(e, w) ==> l == D.Call(w))
  {
  }

  lemma DialStepsAt(r: Run, k: nat, w: Who)
    requires IsRun(r) && k < |r.labels|
    ensures StartsDial(r.states[k], r.states[k + 1], w) ==> BeforeDial(r.states[k].d, w)
    ensures !BeforeDial(r.states[k].d, w) && BeforeDial(r.states[k + 1].d, w) ==>
              DirectLabel(r.states[k], r.labels[k]) == Some(D.Call(w))
  {
    assert Linked(r, k);
    SlotsOfStep(r.states[k], r.labels[k], r.states[k + 1]);
    if DirectLabel(r.states[k], r.labels[k]).Some? {
      DialSteps(r.states[k].d, DirectLabel(r.states[k], r.labels[k]).value, w);
    }
  }

  lemma WhoCalls(s: State, l: Label, w: Who)
    requires DirectLabel(s, l) == Some(D.Call(w)) && Step(s, l).Some?
    ensures Calls(s, l, w)
  {
  }

  lemma CallOfDial(r: Run, k: nat, w: Who) returns (call: nat)
    requires IsRun(r) && k < |r.labels| && StartsDial(r.states[k], r.states[k + 1], w)
    ensures call < k && Calls(r.states[call], r.labels[call], w)
    ensures forall x :: call < x <= k ==> BeforeDial(r.states[x].d, w)
  {
    DialStepsAt(r, k, w);
    call := LastRise(r, (s: State) => BeforeDial(s.d, w), k);
    DialStepsAt(r, call, w);
    assert Linked(r, call);
    WhoCalls(r.states[call], r.labels[call], w);
  }

  /** Every dial of the prober belongs to a gated call. */
  lemma ProberDialIsGated(r: Run, k: nat) returns (mesh: nat, idle: nat, call: nat)
    requires IsRun(r) && k < |r.labels| && StartsDial(r.states[k], r.states[k + 1], Prober)
    ensures mesh < idle < call < k
    ensures PassesMeshGate(r.states[mesh], r.labels[mesh]) && PassesIdleGate(r.states[idle], r.labels[idle])
    ensures Calls(r.states[call], r.labels[call], Prober)
    ensures forall x :: mesh < x <= k ==> PastMeshGate(r.states[x])
    ensures forall x :: call < x <= k ==> r.states[x].prober.pc.InOpen?
  {
    call := CallOfDial(r, k, Prober);
    mesh, idle := ProberCallIsGated(r, call);
    forall x | call < x <= k ensures r.states[x].prober.pc.InOpen? {
      assert BeforeDial(r.states[x].d, Prober);
      CallRunInv(r, x);
    }
  }

  /** Every dial of a handler belongs to a call whose check of `IsVerified` passed, and so to
      a prober iteration that had a peering up less than the TTL before that check. */
  lemma HandlerDialIsChecked(r: Run, k: nat, t: Tid) returns (check: nat, e: Evidence)
    requires IsRun(r) && k < |r.labels| && StartsDial(r.states[k], r.states[k + 1], Handler(t))
    ensures e.mark < check < k && Supports(r, e)
    ensures Calls(r.states[check], r.labels[check], Handler(t))
    ensures r.states[check].d.now < r.states[e.mark].d.now + 2 * r.states[0].retryPeriod
    ensures forall x :: check < x <= k ==> At(r.states[x], t, InDirect)
  {
    check := CallOfDial(r, k, Handler(t));
    var j := VerifiedSinceMark(r, check);
    e := MarkIsSupported(r, j);
    forall x | check < x <= k ensures At(r.states[x], t, InDirect) {
      assert BeforeDial(r.states[x].d, Handler(t));
      CallRunInv(r, x);
      assert HandlerCalls(r.states[x], t);
    }
  }
}
