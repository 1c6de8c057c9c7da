/** Runs that show what can happen: the ways to a verified path without a connection, the
    downgrade after a slow round trip, and the drop of a connection that has just been
    dialled. */
module Witnesses {
  import opened Types
  import opened Channel
  import opened Callers
  import opened Fairness
  import opened InFlight
  import opened Paths
  import opened Progress
  import D = DirectSlot
  import M = MeshSlot

  /** Takes one more step. */
  lemma Then(s: State, ls: seq<Label>, t: State, l: Label) returns (ms: seq<Label>, u: State)
    requires Path(Step, s, ls, t) && Step(t, l).Some?
    ensures ms == ls + [l] && u == Step(t, l).value && Path(Step, s, ms, u)
  {
    ms, u := ls + [l], Step(t, l).value;
    PathThen(Step, s, ls, t, l);
  }

  lemma {:induction false} PathIsRun(s: State, ls: seq<Label>, t: State) returns (r: Run)
    requires Path(Step, s, ls, t)
    ensures |r.states| == |ls| + 1 && r.labels == ls && r.states[0] == s && r.states[|ls|] == t
    ensures forall i :: 0 <= i < |ls| ==> Linked(r, i)
    decreases |ls|
  {
    if ls == [] {
      r := Run([s], []);
    } else {
      var rest := PathIsRun(Step(s, ls[0]).value, ls[1..], t);
      r := Run([s] + rest.states, ls);
      forall i | 0 <= i < |ls| ensures Linked(r, i) {
        if i > 0 {
          assert Linked(rest, i - 1);
        }
      }
    }
  }

  /** A path from the start, as a run that ends where the path ends. */
  lemma RunTo(ls: seq<Label>, t: State) returns (r: Run, k: nat)
    requires Path(Step, Start(), ls, t)
    ensures IsRun(r) && r.labels == ls && k == |ls| && r.states[k] == t
  {
    r := PathIsRun(Start(), ls, t);
    k := |ls|;
    StartIsInitial();
  }

  /** ... by way of `t`. */
  lemma RunVia(ls: seq<Label>, t: State, ms: seq<Label>, u: State) returns (r: Run, i: nat, k: nat)
    requires Path(Step, Start(), ls, t) && Path(Step, t, ms, u)
    ensures IsRun(r) && i == |ls| <= k == |r.labels| && r.labels == ls + ms
    ensures r.states[i] == t && r.states[k] == u
  {
    var rest := PathIsRun(t, ms, u);
    var begun;
    begun, i := RunTo(ls, t);
    k := i + |ms|;
    r := Run(begun.states[..i] + rest.states, ls + ms);
    forall j | 0 <= j < |r.labels| ensures Linked(r, j) {
      assert if j < i then Linked(begun, j) else Linked(rest, j - i);
    }
  }

  /** ... and goes one step further. */
  lemma RunThrough(ls: seq<Label>, t: State, l: Label) returns (r: Run, i: nat)
    requires Path(Step, Start(), ls, t) && Step(t, l).Some?
    ensures IsRun(r) && i < |r.labels| && r.states[i] == t && r.labels[i] == l
    ensures r.states[i + 1] == Step(t, l).value
  {
    assert Path(Step, t, [], t);
    PathThen(Step, t, [], t, l);
    assert [] + [l] == [l];
    var k;
    r, i, k := RunVia(ls, t, [l], Step(t, l).value);
    assert Linked(r, i);
  }

  lemma StartIsInitial()
    ensures Init(Start())
  {
  }

  // ------------------------------------------------------------- landmarks

  function NoSlot(): D.Slot {
    D.Slot(0, None, None, 0, {}, {}, 0, 0, None, map[], map[])
  }

  function Start(): State {
    State(NoSlot(), M.Mesh(None, {}, 0, None, map[], {}), 0, MeshOnly, 0, 1, 0, EffectiveRetry(0), false,
          ProbeLoop(Select, true, true, false, 0), map[])
  }

  /** The first probe is about to call `openStream`. */
  function Called(): State {
    Start().(prober := ProbeLoop(InOpen(false, 0), false, true, false, 0),
             d := NoSlot().(ops := map[Prober := D.Locking]))
  }

  /** One connection, with its watcher waiting. */
  function OneConnection(now: nat, ops: map<Who, D.OpPc>): D.Slot {
    D.Slot(now, Some(0), Some(0), 0, {0}, {0}, 1, 1, None, ops, map[0 := D.Waiting])
  }

  /** The first probe has dialled that connection. */
  function Dialled(): State {
    Called().(d := OneConnection(0, map[Prober := D.Spawning(0)]).(watchers := map[]))
  }

  /** The first probe has its stream. */
  function Probed(): State {
    Called().(d := OneConnection(0, map[Prober := D.Returned(D.Stream(0))]))
  }

  /** It waits for the echo. */
  function Waiting(): State {
    Called().(prober := ProbeLoop(RoundTrip(false, 0, 0), false, true, false, 0), d := OneConnection(0, map[]))
  }

  /** The echo came back after a nanosecond. */
  function EchoBack(): State {
    Called().(prober := ProbeLoop(Judging(false, 1), false, true, false, 0), d := OneConnection(1, map[]))
  }

  /** The path is verified, and not shown yet. */
  function Marked(): State {
    EchoBack().(prober := ProbeLoop(ShowVerified, false, true, false, 0), probeRTT := 1,
                verifiedUntil := 1 + 2 * EffectiveRetry(0))
  }

  /** The path is verified and shown, and the prober waits on the slow cadence. */
  function Settled(): State {
    Start().(prober := ProbeLoop(Select, false, false, true, 0), d := OneConnection(1, map[]), probeRTT := 1,
             verifiedUntil := 1 + 2 * EffectiveRetry(0), probeState := H2H3)
  }

  // ----------------------------------------------------------------- the way there

  lemma ToCalled() returns (ls: seq<Label>)
    ensures Path(Step, Start(), ls, Called())
  {
    var t := Start();
    assert Path(Step, t, [], t);
    ls, t := Then(Start(), [], t, Wake(Timer));
    ls, t := Then(Start(), ls, t, Probe);
    ls, t := Then(Start(), ls, t, Probe);
    assert t == Start().(prober := ProbeLoop(ReadVerified, false, true, false, 0));
    ls, t := Then(Start(), ls, t, Probe);
    ls, t := Then(Start(), ls, t, Probe);
    ls, t := Then(Start(), ls, t, Probe);
    ls, t := Then(Start(), ls, t, Probe);
  }

  lemma ToDialled() returns (ls: seq<Label>)
    ensures Path(Step, Start(), ls, Dialled())
  {
    ls := ToCalled();
    var t := Called();
    ls, t := Then(Start(), ls, t, Op(D.Acquire(Prober)));
    ls, t := Then(Start(), ls, t, Op(D.Socket(Prober, true)));
    ls, t := Then(Start(), ls, t, Op(D.Handshake(Prober, true)));
    assert t.d.ops == Dialled().d.ops && t.d.alive == {0} && t.d.open == {0};
  }

  lemma ToProbed() returns (ls: seq<Label>)
    ensures Path(Step, Start(), ls, Probed())
  {
    ls := ToDialled();
    var t := Dialled();
    ls, t := Then(Start(), ls, t, Op(D.Advance(Prober)));
    ls, t := Then(Start(), ls, t, Op(D.First(Prober, true)));
    assert t.d.ops == Probed().d.ops;
  }

  lemma ToWaiting() returns (ls: seq<Label>)
    ensures Path(Step, Start(), ls, Waiting())
  {
    ls := ToProbed();
    var t := Probed();
    ls, t := Then(Start(), ls, t, Probe);
    assert t.d.ops == map[];
  }

  lemma ToEchoBack() returns (ls: seq<Label>)
    ensures Path(Step, Start(), ls, EchoBack())
  {
    ls := ToWaiting();
    var t := Waiting();
    ls, t := Then(Start(), ls, t, Tick(1));
    ls, t := Then(Start(), ls, t, Echo(Echoed(PROBE_PING)));
  }

  lemma ToMarked() returns (ls: seq<Label>)
    ensures Path(Step, Start(), ls, Marked())
  {
    ls := ToEchoBack();
    var t := EchoBack();
    ls, t := Then(Start(), ls, t, Probe);
    ls, t := Then(Start(), ls, t, Probe);
  }

  lemma ToSettled() returns (ls: seq<Label>)
    ensures Path(Step, Start(), ls, Settled())
  {
    ls := ToMarked();
    var t := Marked();
    ls, t := Then(Start(), ls, t, Probe);
  }

  // ------------------------------------------- verified paths without a connection

  /** The connection of the first probe died, and its watcher has cleared slot and cache. */
  function Cleared(): State {
    EchoBack().(probeState := MeshOnly,
                d := EchoBack().d.(qconn := None, tr := None, alive := {}, open := {},
                                   failUntil := 1 + DIRECT_FAIL_COOLDOWN, watchers := map[0 := D.Showing]))
  }

  lemma ToCleared() returns (ls: seq<Label>)
    ensures Path(Step, Start(), ls, Cleared())
  {
    ls := ToEchoBack();
    var t := EchoBack();
    ls, t := Then(Start(), ls, t, KillDirect(0));
    ls, t := Then(Start(), ls, t, Watch(0));
    ls, t := Then(Start(), ls, t, Watch(0));
    assert t.d.watchers == Cleared().d.watchers && t.d.alive == {} && t.d.open == {};
  }

  /** A probe outlives its connection: the watcher has cleared slot and cache, and then the
      probe marks the path verified. */
  lemma VerifiedByProbeInFlight() returns (r: Run, k: nat)
    ensures IsRun(r) && k < |r.states| && IsVerified(r.states[k]) && Empty(r.states[k])
    ensures ProbeInFlight(r.states[k])
  {
    var ls := ToCleared();
    var t := Cleared();
    ls, t := Then(Start(), ls, t, Probe);
    ls, t := Then(Start(), ls, t, Probe);
    r, k := RunTo(ls, t);
  }

  /** `Close` empties the slot and leaves the cache as it is. */
  lemma VerifiedAfterClose() returns (r: Run, k: nat)
    ensures IsRun(r) && k < |r.states| && IsVerified(r.states[k]) && Empty(r.states[k])
    ensures r.states[k].prober.pc == Select && !ProbeInFlight(r.states[k]) && r.states[k].stopped
  {
    var ls := ToSettled();
    var t := Settled();
    ls, t := Then(Start(), ls, t, Close);
    r, k := RunTo(ls, t);
  }

  /** A watcher between its drop and its MarkFailed. */
  lemma VerifiedUntilWatcherClears() returns (r: Run, k: nat)
    ensures IsRun(r) && k < |r.states| && IsVerified(r.states[k]) && Empty(r.states[k])
    ensures Owed(r.states[k], Watch(0))
  {
    var ls := ToSettled();
    var t := Settled();
    ls, t := Then(Start(), ls, t, KillDirect(0));
    ls, t := Then(Start(), ls, t, Watch(0));
    r, k := RunTo(ls, t);
  }

  /** A handler that redials over a dead connection. */
  lemma VerifiedWhileRedialling() returns (r: Run, k: nat)
    ensures IsRun(r) && k < |r.states| && IsVerified(r.states[k]) && Empty(r.states[k])
    ensures Owed(r.states[k], Op(D.Acquire(Handler(0))))
  {
    var ls := ToSettled();
    var t := Settled();
    ls, t := Then(Start(), ls, t, KillDirect(0));
    ls, t := Then(Start(), ls, t, Channel.Start(0));
    ls, t := Then(Start(), ls, t, Handle(0));
    ls, t := Then(Start(), ls, t, Op(D.Acquire(Handler(0))));
    r, k := RunTo(ls, t);
  }

  // ------------------------------------------------------ a second, slow round trip

  /** The second probe of a verified path has its stream, on the connection of the first. */
  function SecondProbe(s: State): State {
    s.(prober := s.prober.(pc := RoundTrip(true, s.d.now, 0)))
  }

  /** The state of the prober and of the slot that a further probe of a settled path needs. */
  predicate ReadyToProbe(s: State) {
    && s.prober == ProbeLoop(Select, false, false, true, s.prober.failStreak) && s.peers > 0
    && s.d.now - s.lastActive <= PROBE_IDLE_LIMIT && IsVerified(s)
    && s.d.qconn == Some(0) && 0 in s.d.alive && s.d.mu.None? && s.d.failUntil <= s.d.now
    && Prober !in s.d.ops
  }

  lemma ToSecondCall(ls0: seq<Label>, s: State) returns (ls: seq<Label>)
    requires Path(Step, Start(), ls0, s) && ReadyToProbe(s)
    ensures Path(Step, Start(), ls, s.(prober := s.prober.(pc := InOpen(true, s.d.now)),
                                 d := s.d.(ops := s.d.ops[Prober := D.Locking])))
  {
    var t;
    ls, t := Then(Start(), ls0, s, Wake(Slow));
    ls, t := Then(Start(), ls, t, Probe);
    ls, t := Then(Start(), ls, t, Probe);
    ls, t := Then(Start(), ls, t, Probe);
    ls, t := Then(Start(), ls, t, Probe);
  }

  lemma ToSecondStream(ls0: seq<Label>, s: State) returns (ls: seq<Label>)
    requires Path(Step, Start(), ls0, s) && ReadyToProbe(s)
    ensures Path(Step, Start(), ls, s.(prober := s.prober.(pc := InOpen(true, s.d.now)),
                                 d := s.d.(ops := s.d.ops[Prober := D.Returned(D.Stream(0))])))
  {
    ls := ToSecondCall(ls0, s);
    var t := s.(prober := s.prober.(pc := InOpen(true, s.d.now)),
                d := s.d.(ops := s.d.ops[Prober := D.Locking]));
    ls, t := Then(Start(), ls, t, Op(D.Acquire(Prober)));
    ls, t := Then(Start(), ls, t, Op(D.Opened(Prober, true)));
    assert t.d.ops == s.d.ops[Prober := D.Returned(D.Stream(0))];
  }

  lemma ToSecondProbe(ls0: seq<Label>, s: State) returns (ls: seq<Label>)
    requires Path(Step, Start(), ls0, s) && ReadyToProbe(s)
    ensures Path(Step, Start(), ls, SecondProbe(s))
  {
    ls := ToSecondStream(ls0, s);
    var t := s.(prober := s.prober.(pc := InOpen(true, s.d.now)),
                d := s.d.(ops := s.d.ops[Prober := D.Returned(D.Stream(0))]));
    ls, t := Then(Start(), ls, t, Probe);
    assert t.d.ops == s.d.ops;
  }

  /** The echo of the second probe takes two seconds, the first took a nanosecond. */
  function SlowEcho(): State {
    Settled().(prober := ProbeLoop(Dropping(SlowRtt), false, false, true, 0),
               d := OneConnection(1 + 2 * SECOND, map[]))
  }

  lemma ToSlowEcho() returns (ls: seq<Label>)
    ensures Path(Step, Start(), ls, SlowEcho())
  {
    ls := ToSettled();
    ls := ToSecondProbe(ls, Settled());
    var t := SecondProbe(Settled());
    ls, t := Then(Start(), ls, t, Tick(2 * SECOND));
    ls, t := Then(Start(), ls, t, Echo(Echoed(PROBE_PING)));
    ls, t := Then(Start(), ls, t, Probe);
  }

  /** The prober between its drop and its MarkFailed ... */
  lemma VerifiedUntilProberClears() returns (r: Run, k: nat)
    ensures IsRun(r) && k < |r.states| && IsVerified(r.states[k]) && Empty(r.states[k])
    ensures Owed(r.states[k], Probe)
  {
    var ls := ToSlowEcho();
    var t := SlowEcho();
    ls, t := Then(Start(), ls, t, Probe);
    r, k := RunTo(ls, t);
  }

  /** The prober has dropped the connection and cleared the cache. */
  function SlowDrop(): State {
    SlowEcho().(prober := ProbeLoop(DropShow(SlowRtt), false, false, true, 0), verifiedUntil := 0,
                d := SlowEcho().d.(qconn := None, tr := None, alive := {}, open := {},
                                   failUntil := 1 + 2 * SECOND + DIRECT_FAIL_COOLDOWN))
  }

  lemma ToSlowDrop() returns (ls: seq<Label>)
    ensures Path(Step, Start(), ls, SlowDrop())
  {
    ls := ToSlowEcho();
    var t := SlowEcho();
    ls, t := Then(Start(), ls, t, Probe);
    ls, t := Then(Start(), ls, t, Probe);
    assert t.d.alive == {} && t.d.open == {};
  }

  /** ... and the downgrade it completes: the path is not verified any more, and it is the
      slow cadence that keeps checking. */
  lemma SlowRoundTripDowngrade() returns (r: Run, i: nat)
    ensures IsRun(r) && i < |r.labels| && r.labels[i] == Probe && r.states[i].prober.pc == DropShow(SlowRtt)
    ensures var s := r.states[i + 1];
            s.prober.pc == Select && s.prober.slowOn && !s.prober.fastOn && !IsVerified(s) && Shown(s) == MeshFallback
  {
    var ls := ToSlowDrop();
    r, i := RunThrough(ls, SlowDrop(), Probe);
  }

  // --------------------------------------------- what a drop does to connections

  /** The drop after a slow round trip ends the connection it was measured on, alive, as it
      is meant to. */
  lemma SlowConnectionDropped() returns (r: Run, i: nat)
    ensures IsRun(r) && i < |r.labels| && r.labels[i] == Probe && r.states[i].prober.pc == Dropping(SlowRtt)
    ensures 0 in r.states[i].d.alive && 0 !in r.states[i + 1].d.alive
  {
    var ls := ToSlowEcho();
    r, i := RunThrough(ls, SlowEcho(), Probe);
  }

  /** A handler passed its check while the path was verified, and waits for d.mu. */
  function HandlerWaits(): State {
    Settled().(handlers := map[0 := InDirect], lastActive := 1,
               d := OneConnection(1, map[Handler(0) := D.Locking]))
  }

  /** The prober is about to drop for the reason `kind`; meanwhile connection 0 has died. */
  function DiedMeanwhile(kind: DropKind): State {
    HandlerWaits().(prober := ProbeLoop(Dropping(kind), false, false, true, if kind == Streak then 2 else 0),
                    d := HandlerWaits().d.(now := if kind == SlowRtt then 1 + 2 * SECOND else 1, alive := {}))
  }

  lemma ToHandlerWaits() returns (ls: seq<Label>)
    ensures Path(Step, Start(), ls, HandlerWaits())
  {
    ls := ToSettled();
    var t := Settled();
    ls, t := Then(Start(), ls, t, Channel.Start(0));
    ls, t := Then(Start(), ls, t, Handle(0));
    assert t.handlers == HandlerWaits().handlers;
  }

  /** The round trip failed because the connection had died. */
  lemma ToFoundDead() returns (ls: seq<Label>)
    ensures Path(Step, Start(), ls, DiedMeanwhile(Gone))
  {
    ls := ToHandlerWaits();
    ls := ToSecondProbe(ls, HandlerWaits());
    var t := SecondProbe(HandlerWaits());
    ls, t := Then(Start(), ls, t, KillDirect(0));
    ls, t := Then(Start(), ls, t, Echo(ReadError));
    ls, t := Then(Start(), ls, t, Probe);
    assert t.d.alive == {};
  }

  /** The round trip was slow, and then the connection died. */
  lemma ToDiedAfterSlowEcho() returns (ls: seq<Label>)
    ensures Path(Step, Start(), ls, DiedMeanwhile(SlowRtt))
  {
    ls := ToHandlerWaits();
    ls := ToSecondProbe(ls, HandlerWaits());
    var t := SecondProbe(HandlerWaits());
    ls, t := Then(Start(), ls, t, Tick(2 * SECOND));
    ls, t := Then(Start(), ls, t, Echo(Echoed(PROBE_PING)));
    ls, t := Then(Start(), ls, t, Probe);
    ls, t := Then(Start(), ls, t, KillDirect(0));
    assert t.d.alive == {};
  }

  /** One probe was lost on the living connection. */
  function OneLost(): State {
    HandlerWaits().(prober := ProbeLoop(Select, false, false, true, 1))
  }

  lemma ToOneLost() returns (ls: seq<Label>)
    ensures Path(Step, Start(), ls, OneLost())
  {
    ls := ToHandlerWaits();
    ls := ToSecondProbe(ls, HandlerWaits());
    var t := SecondProbe(HandlerWaits());
    ls, t := Then(Start(), ls, t, Echo(ReadError));
    ls, t := Then(Start(), ls, t, Probe);
  }

  /** A second one was lost, and then the connection died. */
  lemma ToDiedAfterStreak() returns (ls: seq<Label>)
    ensures Path(Step, Start(), ls, DiedMeanwhile(Streak))
  {
    ls := ToOneLost();
    ls := ToSecondProbe(ls, OneLost());
    var t := SecondProbe(OneLost());
    ls, t := Then(Start(), ls, t, Echo(ReadError));
    ls, t := Then(Start(), ls, t, Probe);
    ls, t := Then(Start(), ls, t, KillDirect(0));
    assert t.d.alive == {};
  }

  /** The handler is in the handshake of connection 1 ... */
  function Redialling(s: State): State {
    s.(d := s.d.(qconn := None, tr := None, open := {1}, nextTr := 2, mu := Some(Handler(0)),
                 ops := map[Handler(0) := D.Handshaking(1)]))
  }

  /** ... and has established it. */
  function Redialled(s: State): State {
    s.(d := s.d.(qconn := Some(1), tr := Some(1), alive := {1}, open := {1}, nextConn := 2, nextTr := 2,
                 ops := map[Handler(0) := D.Spawning(1)]))
  }

  /** Connection 0 is dead, and the handler is next to take the lock. */
  predicate ReadyToRedial(s: State) {
    && s.d.qconn == Some(0) && s.d.tr == Some(0) && s.d.alive == {} && s.d.open == {0} && s.d.mu.None?
    && s.d.failUntil <= s.d.now && s.d.nextConn == 1 && s.d.nextTr == 1 && s.d.ops == map[Handler(0) := D.Locking]
  }

  lemma ToRedialling(ls0: seq<Label>, s: State) returns (ls: seq<Label>)
    requires Path(Step, Start(), ls0, s) && ReadyToRedial(s)
    ensures Path(Step, Start(), ls, Redialling(s))
  {
    var t;
    ls, t := Then(Start(), ls0, s, Op(D.Acquire(Handler(0))));
    ls, t := Then(Start(), ls, t, Op(D.Socket(Handler(0), true)));
    assert t.d.ops == map[Handler(0) := D.Handshaking(1)] && t.d.alive == {} && t.d.open == {1};
  }

  lemma ToRedialled(ls0: seq<Label>, s: State) returns (ls: seq<Label>)
    requires Path(Step, Start(), ls0, s) && ReadyToRedial(s)
    ensures Path(Step, Start(), ls, Redialled(s))
  {
    ls := ToRedialling(ls0, s);
    var t := Redialling(s);
    ls, t := Then(Start(), ls, t, Op(D.Handshake(Handler(0), true)));
    assert t.d.ops == map[Handler(0) := D.Spawning(1)] && t.d.alive == {1} && t.d.open == {1};
  }

  lemma ToDiedMeanwhile(kind: DropKind) returns (ls: seq<Label>)
    ensures Path(Step, Start(), ls, DiedMeanwhile(kind))
  {
    match kind
    case Gone => ls := ToFoundDead();
    case SlowRtt => ls := ToDiedAfterSlowEcho();
    case Streak => ls := ToDiedAfterStreak();
  }

  lemma RedialledIsDropped(kind: DropKind)
    ensures var t := Step(Redialled(DiedMeanwhile(kind)), Probe); t.Some? && t.value.d.alive == {}
  {
  }

  /** Between the reason and the drop the handler dials connection 1, and the drop ends it
      alive, although the reason lies with connection 0; whichever of the three it is. */
  lemma FreshConnectionDropped(kind: DropKind) returns (r: Run, i: nat)
    ensures IsRun(r) && i < |r.labels| && r.labels[i] == Probe && r.states[i].prober.pc == Dropping(kind)
    ensures 1 in r.states[i].d.alive && 1 !in r.states[i + 1].d.alive
  {
    var ls := ToDiedMeanwhile(kind);
    ls := ToRedialled(ls, DiedMeanwhile(kind));
    RedialledIsDropped(kind);
    r, i := RunThrough(ls, Redialled(DiedMeanwhile(kind)), Probe);
  }

  // ------------------------------------------------- a verified handler waits

  /** Handler 0 found the path verified, and handler 1 is about to look. */
  function SecondComes(): State {
    HandlerWaits().(handlers := map[0 := InDirect, 1 := Check])
  }

  lemma ToSecondComes() returns (ls: seq<Label>)
    ensures Path(Step, Start(), ls, SecondComes())
  {
    ls := ToHandlerWaits();
    var t := HandlerWaits();
    ls, t := Then(Start(), ls, t, Channel.Start(1));
    assert t.handlers == SecondComes().handlers;
  }

  /** The lock is held while a stream is opened on a healthy connection. So a user stream of
      a verified path queues behind another one, for as long as that one takes to open, for
      any time `dt`: the connection lives, and handler 1 cannot move. */
  lemma VerifiedHandlerWaits(dt: nat) returns (r: Run, check: nat, k: nat)
    ensures IsRun(r) && check < k < |r.states|
    ensures r.labels[check] == Handle(1) && At(r.states[check], 1, Check) && IsVerified(r.states[check])
    ensures var s := r.states[k];
            && s.d.now == r.states[check].d.now + dt && D.ConnAlive(s.d)
            && At(s, 0, InDirect) && OpAt(s.d, Handler(0)) == Some(D.Opening(0)) && s.d.mu == Some(Handler(0))
            && At(s, 1, InDirect) && OpAt(s.d, Handler(1)) == Some(D.Locking)
            && forall l :: Own(l, Handler(1)) ==> Step(s, l).None?
  {
    var ls := ToSecondComes();
    var t := SecondComes();
    assert Path(Step, t, [], t);
    var ms, u := Then(t, [], t, Handle(1));
    ms, u := Then(t, ms, u, Op(D.Acquire(Handler(0))));
    ms, u := Then(t, ms, u, Tick(dt));
    r, check, k := RunVia(ls, t, ms, u);
    CannotMove(r.states[k], 1);
  }

  /** A caller of the direct half that waits for d.mu can do nothing else. */
  lemma CannotMove(s: State, t: Tid)
    requires s.d.mu.Some? && At(s, t, InDirect) && OpAt(s.d, Handler(t)) == Some(D.Locking) && t !in s.m.ops
    ensures forall l :: Own(l, Handler(t)) ==> Step(s, l).None?
  {
    forall l | Own(l, Handler(t)) ensures Step(s, l).None? {
      if l.MeshOp? && Step(s, l).Some? {
        MeshRankFalls(s.m, l.mop, t);
      }
    }
  }

  // --------------------------------------------------------- a fair run without end

  /** The prober has stopped. */
  function ProberStopped(): State {
    Start().(stopped := true, prober := ProbeLoop(ProbePc.Stopped, true, true, false, 0))
  }

  lemma ToProberStopped() returns (ls: seq<Label>)
    ensures Path(Step, Start(), ls, ProberStopped())
  {
    var t := Start();
    assert Path(Step, t, [], t);
    ls, t := Then(Start(), [], t, Close);
    ls, t := Then(Start(), ls, t, Wake(Stop));
    assert t.d.alive == {} && t.d.open == {};
  }

  /** A handler has a dial of the mesh half in progress. */
  function MeshDials(): State {
    ProberStopped().(handlers := map[0 := InMesh],
                     m := M.Mesh(None, {}, 0, Some(0), map[0 := M.Dialing], {}))
  }

  lemma ToMeshDials() returns (ls: seq<Label>)
    ensures Path(Step, Start(), ls, MeshDials())
  {
    ls := ToProberStopped();
    var t := ProberStopped();
    ls, t := Then(Start(), ls, t, Channel.Start(0));
    ls, t := Then(Start(), ls, t, Handle(0));
    ls, t := Then(Start(), ls, t, MeshOp(M.Acquire(0, true)));
    ls, t := Then(Start(), ls, t, MeshOp(M.AskPeers(0, true)));
    assert t.handlers == map[0 := InMesh] && t.m.ops == map[0 := M.Dialing] && t.m.alive == {};
  }

  /** The dial failed, and nothing is left to do. */
  function AllDone(): State {
    ProberStopped().(handlers := map[0 := Done(NoStream)])
  }

  lemma FromMeshDials() returns (ms: seq<Label>)
    ensures Path(Step, MeshDials(), ms, AllDone())
  {
    var t := MeshDials();
    assert Path(Step, t, [], t);
    ms, t := Then(MeshDials(), [], t, MeshOp(M.Dialed(0, false)));
    ms, t := Then(MeshDials(), ms, t, Handle(0));
    assert t.handlers == map[0 := Done(NoStream)] && t.m.ops == map[];
  }

  lemma NobodyCanGo(w: Who, l: Label)
    requires Own(l, w)
    ensures Step(AllDone(), l).None?
  {
  }

  /** Nothing happens any more. */
  lemma TimePasses()
    ensures Step(AllDone(), Tick(0)) == Some(AllDone())
  {
  }

  /** The run, and then nothing for ever. */
  function Prolonged(r: Run): Endless {
    Endless((n: nat) => if n < |r.states| then r.states[n] else AllDone(),
            (n: nat) => if n < |r.labels| then r.labels[n] else Tick(0))
  }

  lemma ProlongedIsEndless(r: Run)
    requires IsRun(r) && r.states[|r.labels|] == AllDone()
    ensures IsEndless(Prolonged(r))
  {
    TimePasses();
    forall n: nat ensures Follows(Prolonged(r), n) {
      assert n < |r.labels| ==> Linked(r, n);
    }
  }

  lemma ProlongedIsFair(r: Run, w: Who, i: nat)
    requires IsRun(r) && r.states[|r.labels|] == AllDone()
    ensures NotStarved(Prolonged(r), w, i)
  {
    var last := if i < |r.labels| then |r.labels| else i;
    assert !CanGoFrom(Prolonged(r), w, last) by {
      if n: nat :| CanGoAt(Prolonged(r), w, last, n) {
        var l :| Own(l, w) && Step(Prolonged(r).states(n), l).Some?;
        NobodyCanGo(w, l);
      }
    }
  }

  /** The hypotheses of the fairness theorems can be met: there is a fair run without end in
      which a handler starts. */
  lemma FairRunExists() returns (b: Endless, i: nat)
    ensures IsEndless(b) && Fair(b) && At(b.states(i), 0, InMesh)
  {
    var ls := ToMeshDials();
    var ms := FromMeshDials();
    var r, k;
    r, i, k := RunVia(ls, MeshDials(), ms, AllDone());
    b := Prolonged(r);
    ProlongedIsEndless(r);
    forall w: Who, j: nat ensures NotStarved(b, w, j) {
      ProlongedIsFair(r, w, j);
    }
  }
}
