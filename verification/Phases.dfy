/** The phases of one iteration of the prober's loop and the edges between them. */
module Phases {
  import opened Types
  import opened Channel
  import opened Loop

  datatype Phase = AtSelect | AtMeshGate | AtIdleGate | IdleExit | Trying | Answered | Passed | Showing | Failing

  function PhaseOf(s: State): Phase {
    match s.prober.pc
    case Select => AtSelect
    case Stopped => AtSelect
    case MeshGate => AtMeshGate
    case IdleGate => AtIdleGate
    case IdleCheck => IdleExit
    case IdleMark => IdleExit
    case IdleShow => IdleExit
    case Judging(_, _) => Answered
    case Verifying => Passed
    case ShowVerified => Showing
    case AfterFailure => Failing
    case Dropping(_) => Failing
    case DropMark(_) => Failing
    case DropShow(_) => Failing
    case _ => Trying
  }

  /** A phase is left only along these edges, and the edges on the way to a
      verification have to be earned. */
  ghost predicate Edge(s: State, l: Label, t: State) {
    var q := PhaseOf(t);
    q == PhaseOf(s) ||
    match PhaseOf(s)
    case AtSelect => l.Wake? && q == AtMeshGate
    case AtMeshGate => q == AtSelect || (q == AtIdleGate && PassesMeshGate(s, l))
    case AtIdleGate => q == IdleExit || (q == Trying && PassesIdleGate(s, l))
    case IdleExit => q == AtSelect
    case Trying => q == AtSelect || q == Failing || (q == Answered && GetsEcho(s, l))
    case Answered => q == AtSelect || q == Failing || (q == Passed && JudgesHealthy(s, l))
    case Passed => q == Showing && Marks(s, l)
    case Showing => q == AtSelect
    case Failing => q == AtSelect
  }

  lemma EdgeOfLoop(s: State, l: Label, t: State)
    requires LoopStep(s, l, t)
    ensures Edge(s, l, t)
  {
  }

  lemma EdgeOfStep(s: State, l: Label, t: State)
    requires Step(s, l) == Some(t)
    ensures Edge(s, l, t)
  {
    LoopOfStep(s, l, t);
    EdgeOfLoop(s, l, t);
  }

  lemma EdgeAt(r: Run, i: nat)
    requires IsRun(r) && i < |r.labels|
    ensures Edge(r.states[i], r.labels[i], r.states[i + 1])
  {
    LoopAt(r, i);
    EdgeOfLoop(r.states[i], r.labels[i], r.states[i + 1]);
  }
}
