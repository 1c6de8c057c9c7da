/** `pipe` as a concurrent system: two copiers, one per direction, and the caller that
    waits for the first of them, closes both endpoints and waits for the second.
    Reads and writes on an open endpoint end as the environment likes; on a closed
    endpoint they fail. */
module Pipe {
  import opened Types
  import opened Streams

  /** The direction that writes to `a` (reading `b`) or the one that writes to `b`. */
  datatype Way = ToA | ToB

  datatype CopyPc =
    | Reading
    | Counting(chunk: seq<Byte>, stop: bool)    // read, `stop` if an error came with it
    | Writing(chunk: seq<Byte>, stop: bool)
    | Sending                                   // about to send on `done`
    | Finished

  /** One copier with the bytes it has read and written so far, and the number of bytes it
      has added to its counter, if it was given one. The counter itself is shared with all
      other pipes; see module Traffic. */
  datatype Copier = Copier(pc: CopyPc, read: seq<Byte>, written: seq<Byte>, counting: bool, counted: nat)

  datatype ClosePc = WaitFirst | CloseA | CloseB | WaitSecond | Returned

  const DONE_CAPACITY: nat := 2

  datatype State = State(toA: Copier, toB: Copier, closer: ClosePc, done: nat, aOpen: bool, bOpen: bool)

  datatype Label =
    | Read(way: Way, chunk: seq<Byte>, err: bool)
    | Count(way: Way)
    | Write(way: Way, n: nat, ok: bool)   // n bytes were taken
    | Send(way: Way)
    | Receive                             // the caller takes one value from `done`
    | Close                               // the caller closes its next endpoint

  function CopierOf(s: State, w: Way): Copier {
    if w.ToA? then s.toA else s.toB
  }

  function SetCopier(s: State, w: Way, c: Copier): State {
    if w.ToA? then s.(toA := c) else s.(toB := c)
  }

  predicate SourceOpen(s: State, w: Way) {
    if w.ToA? then s.bOpen else s.aOpen
  }

  predicate TargetOpen(s: State, w: Way) {
    if w.ToA? then s.aOpen else s.bOpen
  }

  /** After a write, or an empty read: stop or read on. */
  function Next(stop: bool): CopyPc {
    if stop then Sending else Reading
  }

  function StepRead(s: State, w: Way, chunk: seq<Byte>, err: bool): Option<State> {
    var c := CopierOf(s, w);
    if c.pc != Reading || |chunk| > PIPE_BUF_SIZE || (!SourceOpen(s, w) && (chunk != [] || !err)) then None
    else if chunk == [] then Some(SetCopier(s, w, c.(pc := Next(err))))
    else Some(SetCopier(s, w, c.(pc := Counting(chunk, err), read := c.read + chunk)))
  }

  function StepCount(s: State, w: Way): Option<State> {
    var c := CopierOf(s, w);
    if !c.pc.Counting? then None
    else Some(SetCopier(s, w, c.(pc := Writing(c.pc.chunk, c.pc.stop), counted := c.counted + Increment(c))))
  }

  /** What the copier adds to its counter before it writes. */
  function Increment(c: Copier): nat {
    if c.counting && c.pc.Counting? then |c.pc.chunk| else 0
  }

  function StepWrite(s: State, w: Way, n: nat, ok: bool): Option<State> {
    var c := CopierOf(s, w);
    if !c.pc.Writing? || n > |c.pc.chunk| || (ok && n < |c.pc.chunk|) || (!TargetOpen(s, w) && (n > 0 || ok)) then None
    else Some(SetCopier(s, w, c.(pc := Next(!ok || c.pc.stop), written := c.written + c.pc.chunk[..n])))
  }

  function Step(s: State, l: Label): Option<State> {
    match l
    case Read(w, chunk, err) => StepRead(s, w, chunk, err)
    case Count(w) => StepCount(s, w)
    case Write(w, n, ok) => StepWrite(s, w, n, ok)
    case Send(w) =>
      if CopierOf(s, w).pc == Sending && s.done < DONE_CAPACITY then
        Some(SetCopier(s, w, CopierOf(s, w).(pc := Finished)).(done := s.done + 1))
      else None
    case Receive =>
      if s.done == 0 then None
      else if s.closer == WaitFirst then Some(s.(done := s.done - 1, closer := CloseA))
      else if s.closer == WaitSecond then Some(s.(done := s.done - 1, closer := Returned))
      else None
    case Close =>
      if s.closer == CloseA then Some(s.(aOpen := false, closer := CloseB))
      else if s.closer == CloseB then Some(s.(bOpen := false, closer := WaitSecond))
      else None
  }

  predicate FreshCopier(c: Copier) {
    c.pc == Reading && c.read == [] && c.written == [] && c.counted == 0
  }

  predicate Init(s: State) {
    FreshCopier(s.toA) && FreshCopier(s.toB) && s.closer == WaitFirst && s.done == 0 && s.aOpen && s.bOpen
  }

  datatype Run = Run(states: seq<State>, labels: seq<Label>)

  ghost predicate Linked(r: Run, i: int) {
    0 <= i < |r.labels| && i + 1 < |r.states| && Step(r.states[i], r.labels[i]) == Some(r.states[i + 1])
  }

  ghost predicate IsRun(r: Run) {
    && |r.states| == |r.labels| + 1
    && Init(r.states[0])
    && forall i :: 0 <= i < |r.labels| ==> Linked(r, i)
  }

  // ------------------------------------------------------------- invariants

  /** What one copier has read, counted and written, at each point. */
  predicate CopierInv(c: Copier) {
    && c.counted == (if c.counting then |c.read| - Increment(c) else 0)
    && match c.pc
       case Reading => c.written == c.read
       case Counting(chunk, _) => c.read == c.written + chunk && 0 < |chunk| <= PIPE_BUF_SIZE
       case Writing(chunk, _) => c.read == c.written + chunk && 0 < |chunk| <= PIPE_BUF_SIZE
       case _ => c.written <= c.read && |c.read| <= |c.written| + PIPE_BUF_SIZE
  }

  function Ended(c: Copier): nat {
    if c.pc.Finished? then 1 else 0
  }

  function Received(s: State): nat {
    match s.closer
    case WaitFirst => 0
    case Returned => 2
    case _ => 1
  }

  predicate CloserInv(s: State) {
    && s.done + Received(s) == Ended(s.toA) + Ended(s.toB)
    && (s.aOpen <==> s.closer.WaitFirst? || s.closer.CloseA?)
    && (s.bOpen <==> s.closer.WaitFirst? || s.closer.CloseA? || s.closer.CloseB?)
  }

  predicate Inv(s: State) {
    CopierInv(s.toA) && CopierInv(s.toB) && CloserInv(s)
  }

  lemma WriteKeeps(c: Copier, n: nat, stop: bool)
    requires CopierInv(c) && c.pc.Writing? && n <= |c.pc.chunk| && (!stop ==> n == |c.pc.chunk|)
    ensures CopierInv(c.(pc := Next(stop), written := c.written + c.pc.chunk[..n]))
  {
    assert c.read == (c.written + c.pc.chunk[..n]) + c.pc.chunk[n..];
    assert !stop ==> c.pc.chunk[..n] == c.pc.chunk;
  }

  lemma CopierInvStep(s: State, l: Label, t: State, w: Way)
    requires Step(s, l) == Some(t) && CopierInv(CopierOf(s, w))
    ensures CopierInv(CopierOf(t, w))
  {
    if l.Write? && l.way == w {
      WriteKeeps(CopierOf(s, w), l.n, !l.ok || CopierOf(s, w).pc.stop);
    }
  }

  lemma CloserInvStep(s: State, l: Label, t: State)
    requires Step(s, l) == Some(t) && CloserInv(s)
    ensures CloserInv(t)
  {
  }

  lemma InvStep(s: State, l: Label, t: State)
    requires Step(s, l) == Some(t) && Inv(s)
    ensures Inv(t)
  {
    CopierInvStep(s, l, t, ToA);
    CopierInvStep(s, l, t, ToB);
    CloserInvStep(s, l, t);
  }

  lemma {:induction false} RunInv(r: Run, k: nat)
    requires IsRun(r) && k < |r.states|
    ensures Inv(r.states[k])
  {
    if k > 0 {
      RunInv(r, k - 1);
      assert Linked(r, k - 1);
      InvStep(r.states[k - 1], r.labels[k - 1], r.states[k]);
    }
  }

  // ----------------------------------------------------------------- results

  /** The bytes that the reads of direction w have brought among the first k steps, and the
      number of bytes that its writes have got rid of. */
  ghost function Came(r: Run, k: nat, w: Way): seq<Byte>
    requires k <= |r.labels|
  {
    if k == 0 then []
    else Came(r, k - 1, w) + (if r.labels[k - 1].Read? && r.labels[k - 1].way == w then r.labels[k - 1].chunk else [])
  }

  ghost function Went(r: Run, k: nat, w: Way): nat
    requires k <= |r.labels|
  {
    if k == 0 then 0
    else Went(r, k - 1, w) + (if r.labels[k - 1].Write? && r.labels[k - 1].way == w then r.labels[k - 1].n else 0)
  }

  lemma TransferStep(s: State, l: Label, t: State, w: Way)
    requires Step(s, l) == Some(t)
    ensures CopierOf(t, w).read == CopierOf(s, w).read + (if l.Read? && l.way == w then l.chunk else [])
    ensures |CopierOf(t, w).written| == |CopierOf(s, w).written| + (if l.Write? && l.way == w then l.n else 0)
  {
  }

  /** What a copier has read and written is what its reads brought and its writes took: the
      peer has got the first bytes of what came, in order and without a gap. */
  lemma {:induction false} NothingInvented(r: Run, k: nat, w: Way)
    requires IsRun(r) && k < |r.states|
    ensures CopierOf(r.states[k], w).read == Came(r, k, w)
    ensures |CopierOf(r.states[k], w).written| == Went(r, k, w) <= |Came(r, k, w)|
    ensures CopierOf(r.states[k], w).written == Came(r, k, w)[..Went(r, k, w)]
  {
    RunInv(r, k);
    if k > 0 {
      NothingInvented(r, k - 1, w);
      assert Linked(r, k - 1);
      TransferStep(r.states[k - 1], r.labels[k - 1], r.states[k], w);
    }
  }

  /** In each direction what is written is a prefix of what was read, short of it by at
      most one buffer; a copier with a counter has added the bytes read to it (but for a
      chunk that is about to be counted), at most one buffer more than the bytes written. */
  lemma PrefixAndCount(r: Run, k: nat, w: Way)
    requires IsRun(r) && k < |r.states|
    ensures var c := CopierOf(r.states[k], w);
            && c.written <= c.read && |c.read| <= |c.written| + PIPE_BUF_SIZE
            && (c.counting ==>
                  && c.counted == |c.read| - (if c.pc.Counting? then |c.pc.chunk| else 0)
                  && |c.written| <= c.counted <= |c.written| + PIPE_BUF_SIZE)
  {
    RunInv(r, k);
  }

  /** A copier that read to the end without a failed write has delivered everything. */
  lemma NothingLostWithoutWriteFailure(r: Run, k: nat, w: Way)
    requires IsRun(r) && k < |r.states| && CopierOf(r.states[k], w).pc.Finished?
    requires forall i :: 0 <= i < k && r.labels[i].Write? && r.labels[i].way == w ==> r.labels[i].ok
    ensures CopierOf(r.states[k], w).written == CopierOf(r.states[k], w).read
  {
    DeliversAll(r, k, w);
  }

  predicate Delivered(c: Copier) {
    c.pc.Sending? || c.pc.Finished? ==> c.written == c.read
  }

  lemma DeliversStep(s: State, l: Label, t: State, w: Way)
    requires Step(s, l) == Some(t) && CopierInv(CopierOf(s, w)) && Delivered(CopierOf(s, w))
    requires l.Write? && l.way == w ==> l.ok
    ensures Delivered(CopierOf(t, w))
  {
    if l.Write? && l.way == w {
      var c := CopierOf(s, w);
      assert c.pc.chunk[..l.n] == c.pc.chunk;
    }
  }

  lemma {:induction false} DeliversAll(r: Run, k: nat, w: Way)
    requires IsRun(r) && k < |r.states|
    requires forall i :: 0 <= i < k && r.labels[i].Write? && r.labels[i].way == w ==> r.labels[i].ok
    ensures Delivered(CopierOf(r.states[k], w))
  {
    if k > 0 {
      DeliversAll(r, k - 1, w);
      RunInv(r, k - 1);
      assert Linked(r, k - 1);
      DeliversStep(r.states[k - 1], r.labels[k - 1], r.states[k], w);
    }
  }

  /** `done` never blocks a copier. */
  lemma SendNeverBlocks(r: Run, k: nat, w: Way)
    requires IsRun(r) && k < |r.states| && CopierOf(r.states[k], w).pc == Sending
    ensures Step(r.states[k], Send(w)).Some?
  {
    RunInv(r, k);
  }

  // -------------------------------------------------------- the end of a direction

  /** A read ends with an error (the end of file is one), or a write fails. */
  predicate Stops(l: Label, w: Way) {
    (l.Read? && l.way == w && l.err) || (l.Write? && l.way == w && !l.ok)
  }

  predicate Stopping(c: Copier) {
    match c.pc
    case Reading => false
    case Counting(_, stop) => stop
    case Writing(_, stop) => stop
    case Sending => true
    case Finished => true
  }

  lemma StopStep(s: State, l: Label, t: State, w: Way)
    requires Step(s, l) == Some(t)
    ensures Stopping(CopierOf(t, w)) <==> Stopping(CopierOf(s, w)) || Stops(l, w)
  {
  }

  /** A direction ends exactly because of an error: its copier is on its way to the end, or
      there, if and only if a read of it ended with an error or a write of it failed. */
  lemma {:induction false} StopsExactly(r: Run, k: nat, w: Way)
    requires IsRun(r) && k < |r.states|
    ensures Stopping(CopierOf(r.states[k], w)) <==> exists i :: 0 <= i < k && Stops(r.labels[i], w)
    decreases k
  {
    if k > 0 {
      StopsExactly(r, k - 1, w);
      assert Linked(r, k - 1);
      StopStep(r.states[k - 1], r.labels[k - 1], r.states[k], w);
      assert Stops(r.labels[k - 1], w) ==> 0 <= k - 1 < k;
    }
  }

  /** `pipe` closes an endpoint only after a direction has come to its end. */
  lemma ClosesOnlyAfterError(r: Run, k: nat) returns (w: Way, i: nat)
    requires IsRun(r) && k < |r.states| && !(r.states[k].aOpen && r.states[k].bOpen)
    ensures i < k && Stops(r.labels[i], w)
  {
    RunInv(r, k);
    w := if r.states[k].toA.pc.Finished? then ToA else ToB;
    StopsExactly(r, k, w);
    i :| 0 <= i < k && Stops(r.labels[i], w);
  }

  lemma NoMoreReads(s: State, l: Label, w: Way)
    requires Step(s, l).Some? && Stopping(CopierOf(s, w))
    ensures !(l.Read? && l.way == w)
  {
  }

  /** After an error a direction reads no more. */
  lemma NoReadAfterError(r: Run, i: nat, k: nat, w: Way)
    requires IsRun(r) && i < k < |r.labels| && Stops(r.labels[i], w)
    ensures !(r.labels[k].Read? && r.labels[k].way == w)
  {
    StopsExactly(r, k, w);
    assert Linked(r, k);
    NoMoreReads(r.states[k], r.labels[k], w);
  }

  // ------------------------------------------------------------- termination

  predicate ByCaller(l: Label) {
    l.Receive? || l.Close?
  }

  /** The caller can take its next step. */
  predicate CallerEnabled(s: State) {
    Step(s, Receive).Some? || Step(s, Close).Some?
  }

  /** The step is up to the peer of an endpoint that is still open: it may never come. */
  predicate UpToPeer(s: State, l: Label) {
    (l.Read? && SourceOpen(s, l.way)) || (l.Write? && TargetOpen(s, l.way))
  }

  predicate SomeFinished(s: State) {
    s.toA.pc.Finished? || s.toB.pc.Finished?
  }

  predicate AllDone(s: State) {
    s.closer.Returned? && s.toA.pc.Finished? && s.toB.pc.Finished?
  }

  predicate BothClosed(s: State) {
    s.closer.WaitSecond? || s.closer.Returned?
  }

  function CopierRank(c: Copier): nat {
    match c.pc
    case Counting(_, _) => 4
    case Writing(_, _) => 3
    case Reading => 2
    case Sending => 1
    case Finished => 0
  }

  /** The steps left once both endpoints are closed, at most. */
  function Rank(s: State): nat {
    CopierRank(s.toA) + CopierRank(s.toB) + (if s.closer.Returned? then 0 else 1)
  }

  /** The caller's steps left until both endpoints are closed. */
  function ToClose(s: State): nat {
    match s.closer
    case WaitFirst => 3
    case CloseA => 2
    case CloseB => 1
    case _ => 0
  }

  lemma CallerGoesOn(s: State)
    requires Inv(s) && SomeFinished(s) && !BothClosed(s)
    ensures CallerEnabled(s)
  {
  }

  lemma Progress(s: State, l: Label, t: State)
    requires Step(s, l) == Some(t)
    ensures SomeFinished(s) ==> SomeFinished(t)
    ensures ToClose(t) <= ToClose(s) && (ByCaller(l) && !BothClosed(s) ==> ToClose(t) < ToClose(s))
  {
  }

  lemma ClosedStep(s: State, l: Label, t: State)
    requires CloserInv(s) && BothClosed(s) && Step(s, l) == Some(t)
    ensures BothClosed(t) && Rank(t) < Rank(s)
  {
  }

  /** Until `pipe` has returned it owes a step that no peer can hold up. */
  lemma OwesStep(s: State) returns (l: Label)
    requires Inv(s) && SomeFinished(s) && !AllDone(s)
    ensures Step(s, l).Some? && !UpToPeer(s, l)
  {
    if !BothClosed(s) {
      l := if s.closer.WaitFirst? then Receive else Close;
    } else if s.closer.WaitSecond? && s.done > 0 {
      l := Receive;
    } else {
      var w := if s.toA.pc.Finished? then ToB else ToA;
      l := match CopierOf(s, w).pc
           case Counting(_, _) => Count(w)
           case Writing(_, _) => Write(w, 0, false)
           case Reading => Read(w, [], true)
           case _ => Send(w);
    }
  }

  /** A complete behaviour of `pipe`: a run that ends where every step still possible is up
      to a peer, or one that goes on for ever and does not starve its caller. */
  datatype Behaviour = Ended(run: Run) | Endless(states: nat -> State, labels: nat -> Label)

  ghost predicate Follows(b: Behaviour, i: nat)
    requires b.Endless?
  {
    Step(b.states(i), b.labels(i)) == Some(b.states(i + 1))
  }

  /** From i on the caller takes a step again or cannot take one. */
  ghost predicate CallerServed(b: Behaviour, i: nat, j: nat)
    requires b.Endless?
  {
    i <= j && (ByCaller(b.labels(j)) || !CallerEnabled(b.states(j)))
  }

  ghost predicate NotStarved(b: Behaviour, i: nat)
    requires b.Endless?
  {
    exists j: nat :: CallerServed(b, i, j)
  }

  ghost predicate IsBehaviour(b: Behaviour) {
    match b
    case Ended(r) =>
      IsRun(r) && forall l :: Step(r.states[|r.labels|], l).Some? ==> UpToPeer(r.states[|r.labels|], l)
    case Endless(states, _) =>
      Init(states(0)) && forall i: nat :: Follows(b, i) && NotStarved(b, i)
  }

  ghost predicate Reaches(b: Behaviour, i: nat, s: State) {
    match b
    case Ended(r) => i < |r.states| && r.states[i] == s
    case Endless(states, _) => states(i) == s
  }

  lemma {:induction false} EndlessInv(b: Behaviour, i: nat)
    requires b.Endless? && IsBehaviour(b)
    ensures Inv(b.states(i))
  {
    if i > 0 {
      EndlessInv(b, i - 1);
      assert Follows(b, i - 1);
      InvStep(b.states(i - 1), b.labels(i - 1), b.states(i));
    }
  }

  lemma {:induction false} EndlessProgress(b: Behaviour, i: nat, j: nat)
    requires b.Endless? && IsBehaviour(b) && i <= j && SomeFinished(b.states(i))
    ensures SomeFinished(b.states(j)) && ToClose(b.states(j)) <= ToClose(b.states(i))
    decreases j
  {
    if i < j {
      EndlessProgress(b, i, j - 1);
      assert Follows(b, j - 1);
      Progress(b.states(j - 1), b.labels(j - 1), b.states(j));
    }
  }

  /** A caller that is not starved closes both endpoints. */
  lemma {:induction false} CallerCloses(b: Behaviour, i: nat) returns (m: nat)
    requires b.Endless? && IsBehaviour(b) && SomeFinished(b.states(i))
    ensures i <= m && BothClosed(b.states(m))
    decreases ToClose(b.states(i))
  {
    if BothClosed(b.states(i)) {
      return i;
    }
    assert NotStarved(b, i);
    var j: nat :| CallerServed(b, i, j);
    EndlessProgress(b, i, j);
    if BothClosed(b.states(j)) {
      return j;
    }
    EndlessInv(b, j);
    CallerGoesOn(b.states(j));
    assert Follows(b, j);
    Progress(b.states(j), b.labels(j), b.states(j + 1));
    m := CallerCloses(b, j + 1);
  }

  lemma {:induction false} RankFalls(b: Behaviour, i: nat, n: nat)
    requires b.Endless? && IsBehaviour(b) && BothClosed(b.states(i))
    ensures BothClosed(b.states(i + n)) && n + Rank(b.states(i + n)) <= Rank(b.states(i))
  {
    if n > 0 {
      RankFalls(b, i, n - 1);
      EndlessInv(b, i + n - 1);
      assert Follows(b, i + n - 1);
      ClosedStep(b.states(i + n - 1), b.labels(i + n - 1), b.states(i + n));
    }
  }

  lemma {:induction false} FinishedStays(r: Run, i: nat, k: nat)
    requires IsRun(r) && i <= k < |r.states| && SomeFinished(r.states[i])
    ensures SomeFinished(r.states[k])
  {
    if i < k {
      FinishedStays(r, i, k - 1);
      assert Linked(r, k - 1);
      Progress(r.states[k - 1], r.labels[k - 1], r.states[k]);
    }
  }

  /** Termination. Once one direction has finished, `pipe` ends under every schedule that
      does not starve its caller, however silent the peers are: no such behaviour goes on
      for ever, and one that has ended has returned with both copiers finished. */
  lemma PipeReturns(b: Behaviour, i: nat, s: State)
    requires IsBehaviour(b) && Reaches(b, i, s) && SomeFinished(s)
    ensures b.Ended? && AllDone(b.run.states[|b.run.labels|])
  {
    match b {
      case Ended(r) =>
        var last := |r.labels|;
        FinishedStays(r, i, last);
        RunInv(r, last);
        if !AllDone(r.states[last]) {
          var l := OwesStep(r.states[last]);
          assert false;
        }
      case Endless(states, _) =>
        var m := CallerCloses(b, i);
        RankFalls(b, m, Rank(states(m)) + 1);
        assert false;
    }
  }

  // ------------------------------------------------ termination, from the error on

  predicate OfCopier(l: Label, w: Way) {
    !ByCaller(l) && l.way == w
  }

  ghost predicate CopierEnabled(s: State, w: Way) {
    exists l :: OfCopier(l, w) && Step(s, l).Some?
  }

  /** From i on the copier of w takes a step again or cannot take one. */
  ghost predicate CopierServedAt(b: Behaviour, w: Way, i: nat, j: nat)
    requires b.Endless?
  {
    i <= j && (OfCopier(b.labels(j), w) || !CopierEnabled(b.states(j), w))
  }

  ghost predicate CopierNotStarved(b: Behaviour, w: Way, i: nat)
    requires b.Endless?
  {
    exists j: nat :: CopierServedAt(b, w, i, j)
  }

  /** The scheduler does not starve the copier of w, and its peers answer it. */
  ghost predicate CopierServed(b: Behaviour, w: Way) {
    match b
    case Ended(r) => IsRun(r) && !CopierEnabled(r.states[|r.labels|], w)
    case Endless(_, _) => forall i: nat :: CopierNotStarved(b, w, i)
  }

  ghost predicate StopsAt(b: Behaviour, w: Way, i: nat) {
    match b
    case Ended(r) => i < |r.labels| && Stops(r.labels[i], w)
    case Endless(_, labels) => Stops(labels(i), w)
  }

  lemma StoppingGoes(s: State, w: Way)
    requires Inv(s) && Stopping(CopierOf(s, w)) && !CopierOf(s, w).pc.Finished?
    ensures CopierEnabled(s, w)
  {
    var c := CopierOf(s, w);
    var l := match c.pc
             case Counting(_, _) => Count(w)
             case Writing(chunk, _) => if TargetOpen(s, w) then Write(w, |chunk|, true) else Write(w, 0, false)
             case _ => Send(w);
    assert OfCopier(l, w) && Step(s, l).Some?;
  }

  lemma StoppingFalls(s: State, l: Label, t: State, w: Way)
    requires Step(s, l) == Some(t) && Stopping(CopierOf(s, w))
    ensures if OfCopier(l, w) then CopierRank(CopierOf(t, w)) < CopierRank(CopierOf(s, w))
            else CopierOf(t, w) == CopierOf(s, w)
  {
  }

  lemma {:induction false} StandsUntil(b: Behaviour, w: Way, i: nat, j: nat)
    requires b.Endless? && IsBehaviour(b) && i <= j && Stopping(CopierOf(b.states(i), w))
    ensures Stopping(CopierOf(b.states(j), w))
    ensures CopierRank(CopierOf(b.states(j), w)) <= CopierRank(CopierOf(b.states(i), w))
    decreases j
  {
    if i < j {
      StandsUntil(b, w, i, j - 1);
      assert Follows(b, j - 1);
      StopStep(b.states(j - 1), b.labels(j - 1), b.states(j), w);
      StoppingFalls(b.states(j - 1), b.labels(j - 1), b.states(j), w);
    }
  }

  lemma {:induction false} CopierFinishes(b: Behaviour, w: Way, i: nat) returns (m: nat)
    requires b.Endless? && IsBehaviour(b) && CopierServed(b, w) && Stopping(CopierOf(b.states(i), w))
    ensures CopierOf(b.states(m), w).pc.Finished?
    decreases CopierRank(CopierOf(b.states(i), w))
  {
    if CopierOf(b.states(i), w).pc.Finished? {
      return i;
    }
    assert CopierNotStarved(b, w, i);
    var j: nat :| CopierServedAt(b, w, i, j);
    StandsUntil(b, w, i, j);
    if CopierOf(b.states(j), w).pc.Finished? {
      return j;
    }
    EndlessInv(b, j);
    StoppingGoes(b.states(j), w);
    assert Follows(b, j);
    StopStep(b.states(j), b.labels(j), b.states(j + 1), w);
    StoppingFalls(b.states(j), b.labels(j), b.states(j + 1), w);
    m := CopierFinishes(b, w, j + 1);
  }

  /** Once a read has ended with an error or a write has failed, `pipe` ends: a behaviour that
      starves neither the caller nor that copier does not go on for ever, and it has returned
      with both copiers finished and so with both endpoints closed. */
  lemma PipeEndsAfterError(b: Behaviour, w: Way, i: nat)
    requires IsBehaviour(b) && CopierServed(b, w) && StopsAt(b, w, i)
    ensures b.Ended? && AllDone(b.run.states[|b.run.labels|])
    ensures !b.run.states[|b.run.labels|].aOpen && !b.run.states[|b.run.labels|].bOpen
  {
    match b {
      case Ended(r) =>
        var last := |r.labels|;
        RunInv(r, last);
        StopsExactly(r, last, w);
        if !CopierOf(r.states[last], w).pc.Finished? {
          StoppingGoes(r.states[last], w);
          assert false;
        }
        PipeReturns(b, last, r.states[last]);
      case Endless(states, labels) =>
        assert Follows(b, i);
        StopStep(states(i), labels(i), states(i + 1), w);
        var m := CopierFinishes(b, w, i + 1);
        PipeReturns(b, m, states(m));
    }
  }

  /** After both endpoints are closed at most nine steps are left, of whatever goroutine. */
  lemma {:induction false} FewStepsAfterClosing(r: Run, i: nat, k: nat)
    requires IsRun(r) && i <= k < |r.states| && BothClosed(r.states[i])
    ensures BothClosed(r.states[k]) && k - i + Rank(r.states[k]) <= Rank(r.states[i]) <= 9
  {
    if i < k {
      FewStepsAfterClosing(r, i, k - 1);
      RunInv(r, k - 1);
      assert Linked(r, k - 1);
      ClosedStep(r.states[k - 1], r.labels[k - 1], r.states[k]);
    }
  }
}
