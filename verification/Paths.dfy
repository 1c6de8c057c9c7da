/** Finite paths of a state machine given by its partial step function. */
module Paths {
  import opened Types

  /** The labels lead from `s` to `t`. */
  ghost predicate Path<S, L>(step: (S, L) -> Option<S>, s: S, ls: seq<L>, t: S)
    decreases |ls|
  {
    if ls == [] then s == t else step(s, ls[0]).Some? && Path(step, step(s, ls[0]).value, ls[1..], t)
  }

  lemma {:induction false} PathOn<S, L>(step: (S, L) -> Option<S>, s: S, ls: seq<L>, t: S, ms: seq<L>, u: S)
    requires Path(step, s, ls, t) && Path(step, t, ms, u)
    ensures Path(step, s, ls + ms, u)
    decreases |ls|
  {
    if ls == [] {
      assert ls + ms == ms;
    } else {
      assert (ls + ms)[1..] == ls[1..] + ms;
      PathOn(step, step(s, ls[0]).value, ls[1..], t, ms, u);
    }
  }

  /** One more step. */
  lemma PathThen<S, L>(step: (S, L) -> Option<S>, s: S, ls: seq<L>, t: S, l: L)
    requires Path(step, s, ls, t) && step(t, l).Some?
    ensures Path(step, s, ls + [l], step(t, l).value)
  {
    var u := step(t, l).value;
    assert Path(step, u, [], u);
    assert [l][1..] == [];
    PathOn(step, s, ls, t, [l], u);
  }
}
