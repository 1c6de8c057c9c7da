/** The traffic counters. Every `pipe` of a client (or of a mesh server) is given the same
    two counter objects, one per direction, and all of them add to these at the same time. */
module Traffic {
  import opened Types
  import opened Streams
  import P = Pipe

  const TWO_64: int := 0x1_0000_0000_0000_0000

  type Word = n: int | 0 <= n < TWO_64

  datatype Counter = Counter(rx: Word, tx: Word)

  /** The pipes started so far, and the counter of each direction: `forA` for the bytes
      written to the first endpoint of a pipe, `forB` for those written to the second. */
  datatype System = System(pipes: seq<P.State>, forA: Counter, forB: Counter)

  datatype Label =
    | Open(started: P.State)    // another pipe is started
    | On(pipe: nat, op: P.Label)  // a step of one of the pipes

  /** `addTx`, an atomic addition of 64-bit words; both directions use it. */
  function AddTx(c: Counter, n: nat): Counter {
    c.(tx := (c.tx + n) % TWO_64)
  }

  function CounterOf(s: System, w: P.Way): Counter {
    if w.ToA? then s.forA else s.forB
  }

  function Count(s: System, w: P.Way, n: nat): System {
    if w.ToA? then s.(forA := AddTx(s.forA, n)) else s.(forB := AddTx(s.forB, n))
  }

  function StepOn(s: System, p: nat, op: P.Label): Option<System> {
    if p >= |s.pipes| || P.Step(s.pipes[p], op).None? then None
    else
      var t := s.(pipes := s.pipes[p := P.Step(s.pipes[p], op).value]);
      Some(if op.Count? then Count(t, op.way, P.Increment(P.CopierOf(s.pipes[p], op.way))) else t)
  }

  function Step(s: System, l: Label): Option<System> {
    match l
    case Open(started) => if P.Init(started) then Some(s.(pipes := s.pipes + [started])) else None
    case On(p, op) => StepOn(s, p, op)
  }

  datatype Run = Run(states: seq<System>, labels: seq<Label>)

  ghost predicate Linked(r: Run, i: int) {
    0 <= i < |r.labels| && i + 1 < |r.states| && Step(r.states[i], r.labels[i]) == Some(r.states[i + 1])
  }

  ghost predicate IsRun(r: Run) {
    && |r.states| == |r.labels| + 1
    && r.states[0].pipes == []
    && forall i :: 0 <= i < |r.labels| ==> Linked(r, i)
  }

  // ------------------------------------------------------------------ totals

  function Sum(pipes: seq<P.State>, f: P.State -> nat): nat {
    if pipes == [] then 0 else Sum(pipes[..|pipes| - 1], f) + f(pipes[|pipes| - 1])
  }

  lemma {:induction false} SumUpdate(pipes: seq<P.State>, f: P.State -> nat, p: nat, q: P.State)
    requires p < |pipes|
    ensures Sum(pipes[p := q], f) == Sum(pipes, f) - f(pipes[p]) + f(q)
    decreases |pipes|
  {
    var last := |pipes| - 1;
    if p == last {
      assert pipes[p := q][..last] == pipes[..last];
    } else {
      assert pipes[p := q][..last] == pipes[..last][p := q];
      SumUpdate(pipes[..last], f, p, q);
    }
  }

  lemma {:induction false} SumCompare(pipes: seq<P.State>, f: P.State -> nat, g: P.State -> nat, extra: nat)
    requires forall p :: p in pipes ==> f(p) <= g(p) + extra
    ensures Sum(pipes, f) <= Sum(pipes, g) + extra * |pipes|
    decreases |pipes|
  {
    if pipes != [] {
      SumCompare(pipes[..|pipes| - 1], f, g, extra);
    }
  }

  /** What a pipe has read, written and counted in direction w, of the directions that have
      a counter. */
  function Read(w: P.Way): P.State -> nat {
    (s: P.State) => if P.CopierOf(s, w).counting then |P.CopierOf(s, w).read| else 0
  }

  function Written(w: P.Way): P.State -> nat {
    (s: P.State) => if P.CopierOf(s, w).counting then |P.CopierOf(s, w).written| else 0
  }

  function Counted(w: P.Way): P.State -> nat {
    (s: P.State) => P.CopierOf(s, w).counted
  }

  /** A chunk between its read and its count. */
  function Pending(w: P.Way): P.State -> nat {
    (s: P.State) => P.Increment(P.CopierOf(s, w))
  }

  function CountedAndPending(w: P.Way): P.State -> nat {
    (s: P.State) => P.CopierOf(s, w).counted + P.Increment(P.CopierOf(s, w))
  }

  lemma {:induction false} SumAdds(pipes: seq<P.State>, w: P.Way)
    ensures Sum(pipes, CountedAndPending(w)) == Sum(pipes, Counted(w)) + Sum(pipes, Pending(w))
    decreases |pipes|
  {
    if pipes != [] {
      SumAdds(pipes[..|pipes| - 1], w);
    }
  }

  // --------------------------------------------------------------- invariant

  /** Every pipe keeps its own invariant, and the counters hold what they held at the start
      and all that was counted since. */
  ghost predicate Inv(s: System, start: System) {
    && (forall p :: 0 <= p < |s.pipes| ==> P.Inv(s.pipes[p]))
    && (forall w :: CountInv(s, start, w))
  }

  ghost predicate CountInv(s: System, start: System, w: P.Way) {
    && CounterOf(s, w).tx == (CounterOf(start, w).tx + Sum(s.pipes, Counted(w))) % TWO_64
    && CounterOf(s, w).rx == CounterOf(start, w).rx
  }

  lemma ModAdd(a: nat, n: nat)
    ensures (a % TWO_64 + n) % TWO_64 == (a + n) % TWO_64
  {
    var q := a / TWO_64;
    assert a + n == (a % TWO_64 + n) + q * TWO_64;
    ModShift(a % TWO_64 + n, q);
  }

  lemma {:induction false} ModShift(x: nat, q: nat)
    ensures (x + q * TWO_64) % TWO_64 == x % TWO_64
  {
    if q > 0 {
      ModShift(x, q - 1);
      assert x + q * TWO_64 == (x + (q - 1) * TWO_64) + TWO_64;
    }
  }

  lemma StepCounts(s: P.State, op: P.Label, t: P.State, w: P.Way)
    requires P.Step(s, op) == Some(t)
    ensures Counted(w)(t) == Counted(w)(s) + if op == P.Count(w) then Pending(w)(s) else 0
  {
  }

  lemma CounterAfter(s: System, p: nat, op: P.Label, t: System, w: P.Way)
    requires StepOn(s, p, op) == Some(t)
    ensures t.pipes == s.pipes[p := t.pipes[p]] && P.Step(s.pipes[p], op) == Some(t.pipes[p])
    ensures CounterOf(t, w)
         == if op == P.Count(w) then AddTx(CounterOf(s, w), Pending(w)(s.pipes[p])) else CounterOf(s, w)
  {
  }

  lemma CountOn(s: System, p: nat, op: P.Label, t: System, start: System, w: P.Way)
    requires StepOn(s, p, op) == Some(t) && CountInv(s, start, w)
    ensures CountInv(t, start, w)
  {
    CounterAfter(s, p, op, t, w);
    StepCounts(s.pipes[p], op, t.pipes[p], w);
    SumUpdate(s.pipes, Counted(w), p, t.pipes[p]);
    if op == P.Count(w) {
      ModAdd(CounterOf(start, w).tx + Sum(s.pipes, Counted(w)), Pending(w)(s.pipes[p]));
    }
  }

  lemma CountOpened(s: System, started: P.State, start: System, w: P.Way)
    requires P.Init(started) && CountInv(s, start, w)
    ensures CountInv(s.(pipes := s.pipes + [started]), start, w)
  {
    assert (s.pipes + [started])[..|s.pipes|] == s.pipes;
  }

  lemma InvStep(s: System, l: Label, t: System, start: System)
    requires Step(s, l) == Some(t) && Inv(s, start)
    ensures Inv(t, start)
  {
    match l
    case Open(started) =>
      forall w ensures CountInv(t, start, w) {
        CountOpened(s, started, start, w);
      }
    case On(p, op) =>
      P.InvStep(s.pipes[p], op, t.pipes[p]);
      forall w ensures CountInv(t, start, w) {
        CountOn(s, p, op, t, start, w);
      }
  }

  lemma {:induction false} RunInv(r: Run, k: nat)
    requires IsRun(r) && k < |r.states|
    ensures Inv(r.states[k], r.states[0])
  {
    if k > 0 {
      RunInv(r, k - 1);
      assert Linked(r, k - 1);
      InvStep(r.states[k - 1], r.labels[k - 1], r.states[k], r.states[0]);
    }
  }

  // ----------------------------------------------------------------- results

  lemma TotalsOfPipes(pipes: seq<P.State>, w: P.Way)
    requires forall p :: p in pipes ==> P.Inv(p)
    ensures Sum(pipes, Counted(w)) + Sum(pipes, Pending(w)) == Sum(pipes, Read(w))
    ensures Sum(pipes, Written(w)) <= Sum(pipes, Counted(w)) <= Sum(pipes, Written(w)) + PIPE_BUF_SIZE * |pipes|
  {
    SumAdds(pipes, w);
    SumCompare(pipes, CountedAndPending(w), Read(w), 0);
    SumCompare(pipes, Read(w), CountedAndPending(w), 0);
    SumCompare(pipes, Written(w), Counted(w), 0);
    SumCompare(pipes, Counted(w), Written(w), PIPE_BUF_SIZE);
  }

  /** Under every interleaving of any number of pipes, the shared counter of a direction has
      grown, modulo 2^64, by the bytes that all of them have read in that direction, but for
      the chunks about to be counted; that is at least what they have written, and at most
      one buffer more for each pipe. */
  lemma SharedCounterIsTraffic(r: Run, k: nat, w: P.Way)
    requires IsRun(r) && k < |r.states|
    ensures var pipes := r.states[k].pipes;
            var counted := Sum(pipes, Read(w)) - Sum(pipes, Pending(w));
            && CounterOf(r.states[k], w).tx == (CounterOf(r.states[0], w).tx + counted) % TWO_64
            && Sum(pipes, Written(w)) <= counted <= Sum(pipes, Written(w)) + PIPE_BUF_SIZE * |pipes|
  {
    RunInv(r, k);
    TotalsOfPipes(r.states[k].pipes, w);
    assert CountInv(r.states[k], r.states[0], w);
  }

  /** No pipe moves the `rx` field of a counter, the one the status line reports as received:
      it shows what it showed at the start, however much was carried. */
  lemma ReceivedIsNeverCounted(r: Run, k: nat, w: P.Way)
    requires IsRun(r) && k < |r.states|
    ensures CounterOf(r.states[k], w).rx == CounterOf(r.states[0], w).rx
  {
    RunInv(r, k);
    assert CountInv(r.states[k], r.states[0], w);
  }
}
