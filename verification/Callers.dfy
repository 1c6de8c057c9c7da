/** Who is inside a call of `openStream`: the goroutines of the system and the callers of
    the two slots agree, in every reachable state. */
module Callers {
  import opened Types
  import opened Channel
  import D = DirectSlot
  import M = MeshSlot
  import opened Loop

  /** The prober has a call in progress exactly while its loop waits for it. */
  predicate ProberCalls(s: State) {
    Prober in s.d.ops <==> s.prober.pc.InOpen?
  }

  predicate At(s: State, t: Tid, pc: HandlerPc) {
    t in s.handlers && s.handlers[t] == pc
  }

  /** Handler t is inside the direct or the mesh half exactly while it stands there. */
  predicate HandlerCalls(s: State, t: Tid) {
    && (Handler(t) in s.d.ops <==> At(s, t, InDirect))
    && (t in s.m.ops <==> At(s, t, InMesh))
  }

  lemma DirectCallers(d: D.Slot, l: D.Label, w: Who)
    requires D.Step(d, l).Some?
    ensures w in D.Step(d, l).value.ops <==> (w in d.ops && l != D.Return(w)) || l == D.Call(w)
  {
  }

  lemma MeshCallers(m: M.Mesh, l: M.Label, t: Tid)
    requires M.Step(m, l).Some?
    ensures t in M.Step(m, l).value.ops <==> (t in m.ops && l != M.Return(t)) || l == M.Call(t)
  {
  }

  lemma CallersOfStep(s: State, l: Label, s': State, w: Who)
    requires Step(s, l) == Some(s')
    ensures w in s'.d.ops <==>
              (w in s.d.ops && DirectLabel(s, l) != Some(D.Return(w))) || DirectLabel(s, l) == Some(D.Call(w))
    ensures w.Handler? ==>
              (w.tid in s'.m.ops <==>
                 || (w.tid in s.m.ops && MeshLabel(s, l) != Some(M.Return(w.tid)))
                 || MeshLabel(s, l) == Some(M.Call(w.tid)))
  {
    SlotsOfStep(s, l, s');
    if DirectLabel(s, l).Some? {
      DirectCallers(s.d, DirectLabel(s, l).value, w);
    }
    if w.Handler? && MeshLabel(s, l).Some? {
      MeshCallers(s.m, MeshLabel(s, l).value, w.tid);
    }
  }

  // ------------------------------------------------------------------ prober

  lemma CallBeginsAndEnds(s: State, l: Label, s': State)
    requires LoopStep(s, l, s') && OfProber(l)
    ensures s'.prober.pc.InOpen? <==> l == Probe && s.prober.pc.Begin?
    ensures s.prober.pc.InOpen? ==> l == Probe
  {
  }

  lemma NotProbersCall(s: State, l: Label)
    requires !l.Probe? && Step(s, l).Some?
    ensures DirectLabel(s, l) != Some(D.Call(Prober)) && DirectLabel(s, l) != Some(D.Return(Prober))
  {
  }

  lemma ProberCallsStep(s: State, l: Label, s': State)
    requires Step(s, l) == Some(s') && ProberCalls(s)
    ensures ProberCalls(s')
  {
    CallersOfStep(s, l, s', Prober);
    if OfProber(l) {
      LoopOfStep(s, l, s');
      CallBeginsAndEnds(s, l, s');
    } else {
      EffectsOfStep(s, l, s');
    }
    if !l.Probe? {
      NotProbersCall(s, l);
    }
  }

  // ---------------------------------------------------------------- handlers

  lemma HandlersStay(s: State, l: Label, s': State)
    requires Step(s, l) == Some(s') && !l.Handle? && !l.Start? && !l.Probe?
    ensures s'.handlers == s.handlers
  {
  }

  lemma ProberLeavesHandlers(s: State, s': State)
    requires StepProbe(s) == Some(s')
    ensures s'.handlers == s.handlers
  {
  }

  lemma OnlyHandlersCall(s: State, l: Label, t: Tid)
    requires Step(s, l).Some? && l != Handle(t)
    ensures DirectLabel(s, l) != Some(D.Call(Handler(t))) && DirectLabel(s, l) != Some(D.Return(Handler(t)))
    ensures MeshLabel(s, l) != Some(M.Call(t)) && MeshLabel(s, l) != Some(M.Return(t))
  {
  }

  lemma OwnStepKeepsCalls(s: State, t: Tid, s': State)
    requires Step(s, Handle(t)) == Some(s') && HandlerCalls(s, t)
    ensures HandlerCalls(s', t)
  {
    CallersOfStep(s, Handle(t), s', Handler(t));
  }

  lemma OtherStepKeepsCalls(s: State, l: Label, s': State, t: Tid)
    requires Step(s, l) == Some(s') && HandlerCalls(s, t) && l != Handle(t)
    ensures HandlerCalls(s', t)
    ensures t in s.handlers ==> t in s'.handlers && s'.handlers[t] == s.handlers[t]
  {
    CallersOfStep(s, l, s', Handler(t));
    OnlyHandlersCall(s, l, t);
    if l.Probe? {
      ProberLeavesHandlers(s, s');
    } else if !l.Handle? && !l.Start? {
      HandlersStay(s, l, s');
    }
  }

  // -------------------------------------------------------------------- runs

  ghost predicate CallInv(s: State) {
    ProberCalls(s) && forall t: Tid :: HandlerCalls(s, t)
  }

  lemma CallInvStep(s: State, l: Label, s': State)
    requires Step(s, l) == Some(s') && CallInv(s)
    ensures CallInv(s')
  {
    ProberCallsStep(s, l, s');
    forall t: Tid ensures HandlerCalls(s', t) {
      if l == Handle(t) {
        OwnStepKeepsCalls(s, t, s');
      } else {
        OtherStepKeepsCalls(s, l, s', t);
      }
    }
  }

  lemma CallInvAt(r: Run, i: nat)
    requires IsRun(r) && i < |r.labels| && CallInv(r.states[i])
    ensures CallInv(r.states[i + 1])
  {
    assert Linked(r, i);
    CallInvStep(r.states[i], r.labels[i], r.states[i + 1]);
  }

  lemma {:induction false} CallRunInv(r: Run, k: nat)
    requires IsRun(r) && k < |r.states|
    ensures CallInv(r.states[k])
  {
    if k > 0 {
      CallRunInv(r, k - 1);
      CallInvAt(r, k - 1);
    }
  }
}
