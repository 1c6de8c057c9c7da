/** The failover monitor: a loop over ticks that removes the direct peering after a
    streak of bad samples and restores it after a streak of good probes. */
module Failover {

  datatype LinkState = Direct | Mesh

  const DEGRADE_LIMIT: nat := 3
  const RECOVER_LIMIT: nat := 2

  datatype Peer = Peer(up: bool, key: int, latency: int)

  /** What the monitor finds and what the environment answers at one tick: the peer
      list, the outcome of an out-of-band probe, and whether the peering operation
      it may try succeeds. */
  datatype Tick = Tick(peers: seq<Peer>, reachable: bool, opOk: bool)

  datatype Action = Nothing | Removal(ok: bool) | Restore(ok: bool)

  /** Whose peering is watched, and up to which latency it counts as good. */
  datatype Config = Config(serverKey: int, maxLatency: int)

  predicate IsServerLink(p: Peer, key: int) {
    p.up && p.key == key
  }

  /** `directLinkLatency`: the first peering with the server that is up. */
  method DirectLinkLatency(peers: seq<Peer>, key: int) returns (latency: int, up: bool)
    ensures up <==> exists i :: 0 <= i < |peers| && IsServerLink(peers[i], key)
    ensures forall limit :: GoodLink(peers, key, limit) <==> up && latency <= limit
  {
    for n := 0 to |peers|
      invariant forall j :: 0 <= j < n ==> !IsServerLink(peers[j], key)
    {
      if peers[n].up && peers[n].key == key {
        return peers[n].latency, true;
      }
    }
    return 0, false;
  }

  /** The direct link is up and its first entry is fast enough. */
  ghost predicate GoodLink(peers: seq<Peer>, key: int, limit: int) {
    exists i :: 0 <= i < |peers| && IsServerLink(peers[i], key) && peers[i].latency <= limit
             && forall j :: 0 <= j < i ==> !IsServerLink(peers[j], key)
  }

  ghost predicate BadSample(c: Config, t: Tick) {
    !GoodLink(t.peers, c.serverKey, c.maxLatency)
  }

  // ------------------------------------------- stints, read off the action log

  predicate Succeeded(a: Action) {
    (a.Removal? || a.Restore?) && a.ok
  }

  /** The link state after the logged ticks: the last successful operation decides, and
      the peering is there at the start. */
  function StateAfter(log: seq<Action>): LinkState {
    if log == [] then Direct
    else
      var last := log[|log| - 1];
      if Succeeded(last) then (if last.Removal? then Mesh else Direct) else StateAfter(log[..|log| - 1])
  }

  /** The last n logged ticks and the next one lie in one stint. */
  predicate InStint(log: seq<Action>, n: nat) {
    n <= |log| && forall j :: |log| - n <= j < |log| ==> !Succeeded(log[j])
  }

  ghost predicate AllBad(c: Config, ticks: seq<Tick>, from: int, to: int)
    requires 0 <= from <= to <= |ticks|
  {
    forall n :: from <= n < to ==> BadSample(c, ticks[n])
  }

  predicate AllReachable(ticks: seq<Tick>, from: int, to: int)
    requires 0 <= from <= to <= |ticks|
  {
    forall n :: from <= n < to ==> ticks[n].reachable
  }

  /** The tick after the log and the two before it lie in one DIRECT stint and are all
      bad. */
  ghost predicate RemovalDue(c: Config, ticks: seq<Tick>, log: seq<Action>)
    requires |log| < |ticks|
  {
    StateAfter(log) == Direct && InStint(log, 2) && AllBad(c, ticks, |log| - 2, |log| + 1)
  }

  /** The tick after the log and the one before it lie in one MESH stint and are both
      good. */
  predicate RestoreDue(ticks: seq<Tick>, log: seq<Action>)
    requires |log| < |ticks|
  {
    StateAfter(log) == Mesh && InStint(log, 1) && AllReachable(ticks, |log| - 1, |log| + 1)
  }

  /** What the monitor owes at the tick after the log; the environment decides how an
      operation ends. */
  ghost function Due(c: Config, ticks: seq<Tick>, log: seq<Action>): Action
    requires |log| < |ticks|
  {
    if RemovalDue(c, ticks, log) then Removal(ticks[|log|].opOk)
    else if RestoreDue(ticks, log) then Restore(ticks[|log|].opOk)
    else Nothing
  }

  /** The monitor's whole behaviour: at every tick exactly what is due. */
  ghost predicate Hysteresis(c: Config, ticks: seq<Tick>, log: seq<Action>)
    requires |log| <= |ticks|
  {
    forall i :: 0 <= i < |log| ==> log[i] == Due(c, ticks, log[..i])
  }

  // ---------------------------------------------------------------- the loop

  /** The last `n` ticks of the current stint are bad, and the one before them, if it is
      in the stint, is not. */
  ghost predicate CountsBad(c: Config, ticks: seq<Tick>, log: seq<Action>, n: nat)
    requires |log| <= |ticks|
  {
    InStint(log, n) && AllBad(c, ticks, |log| - n, |log|)
    && (InStint(log, n + 1) ==> !BadSample(c, ticks[|log| - n - 1]))
  }

  predicate CountsGood(ticks: seq<Tick>, log: seq<Action>, n: nat)
    requires |log| <= |ticks|
  {
    InStint(log, n) && AllReachable(ticks, |log| - n, |log|)
    && (InStint(log, n + 1) ==> !ticks[|log| - n - 1].reachable)
  }

  ghost predicate Tracks(c: Config, ticks: seq<Tick>, log: seq<Action>, state: LinkState, bad: nat, good: nat)
    requires |log| <= |ticks|
  {
    && state == StateAfter(log)
    && (state == Direct ==> CountsBad(c, ticks, log, bad))
    && (state == Mesh ==> CountsGood(ticks, log, good))
  }

  lemma RemovalDueFromCount(c: Config, ticks: seq<Tick>, log: seq<Action>, bad: nat)
    requires |log| < |ticks| && StateAfter(log) == Direct && CountsBad(c, ticks, log, bad)
    ensures RemovalDue(c, ticks, log) <==> BadSample(c, ticks[|log|]) && bad + 1 >= DEGRADE_LIMIT
  {
    if BadSample(c, ticks[|log|]) && bad < 2 && InStint(log, 2) {
      assert InStint(log, bad + 1);
    }
  }

  lemma RestoreDueFromCount(ticks: seq<Tick>, log: seq<Action>, good: nat)
    requires |log| < |ticks| && StateAfter(log) == Mesh && CountsGood(ticks, log, good)
    ensures RestoreDue(ticks, log) <==> ticks[|log|].reachable && good + 1 >= RECOVER_LIMIT
  {
    if ticks[|log|].reachable && good < 1 && InStint(log, 1) {
      assert InStint(log, good + 1);
    }
  }

  lemma StintGrows(log: seq<Action>, a: Action, n: nat)
    ensures InStint(log + [a], n + 1) <==> InStint(log, n) && !Succeeded(a)
  {
    var log' := log + [a];
    if InStint(log', n + 1) {
      assert log'[|log|] == a;
      assert forall j :: |log| - n <= j < |log| ==> log[j] == log'[j];
    }
  }

  lemma CountBad(c: Config, ticks: seq<Tick>, log: seq<Action>, bad: nat, a: Action)
    requires |log| < |ticks| && CountsBad(c, ticks, log, bad) && !Succeeded(a)
    ensures CountsBad(c, ticks, log + [a], if BadSample(c, ticks[|log|]) then bad + 1 else 0)
  {
    StintGrows(log, a, bad);
    StintGrows(log, a, bad + 1);
    StintGrows(log, a, 0);
  }

  lemma CountGood(ticks: seq<Tick>, log: seq<Action>, good: nat, a: Action)
    requires |log| < |ticks| && CountsGood(ticks, log, good) && !Succeeded(a)
    ensures CountsGood(ticks, log + [a], if ticks[|log|].reachable then good + 1 else 0)
  {
    StintGrows(log, a, good);
    StintGrows(log, a, good + 1);
    StintGrows(log, a, 0);
  }

  lemma StateGrows(log: seq<Action>, a: Action)
    ensures StateAfter(log + [a]) == if Succeeded(a) then (if a.Removal? then Mesh else Direct) else StateAfter(log)
  {
    assert (log + [a])[..|log|] == log;
  }

  /** What one tick of the loop does to its variables. */
  ghost predicate TickStep(c: Config, t: Tick, state: LinkState, bad: nat, good: nat,
                           a: Action, state': LinkState, bad': nat, good': nat) {
    var b := if BadSample(c, t) then bad + 1 else 0;
    var g := if t.reachable then good + 1 else 0;
    if state == Direct then
      if b >= DEGRADE_LIMIT && t.opOk then a == Removal(true) && state' == Mesh && bad' == b && good' == 0
      else
        && a == (if b >= DEGRADE_LIMIT then Removal(false) else Nothing)
        && state' == Direct && bad' == b && good' == good
    else
      if g >= RECOVER_LIMIT && t.opOk then a == Restore(true) && state' == Direct && bad' == 0 && good' == g
      else a == (if g >= RECOVER_LIMIT then Restore(false) else Nothing) && state' == Mesh && bad' == bad && good' == g
  }

  lemma TickKeepsTrack(c: Config, ticks: seq<Tick>, log: seq<Action>, state: LinkState, bad: nat, good: nat,
                       a: Action, state': LinkState, bad': nat, good': nat)
    requires |log| < |ticks| && Tracks(c, ticks, log, state, bad, good)
    requires TickStep(c, ticks[|log|], state, bad, good, a, state', bad', good')
    ensures a == Due(c, ticks, log)
    ensures Tracks(c, ticks, log + [a], state', bad', good')
  {
    StateGrows(log, a);
    StintGrows(log, a, 0);
    if state == Direct {
      RemovalDueFromCount(c, ticks, log, bad);
      if !Succeeded(a) {
        CountBad(c, ticks, log, bad, a);
      }
    } else {
      RestoreDueFromCount(ticks, log, good);
      if !Succeeded(a) {
        CountGood(ticks, log, good, a);
      }
    }
  }

  lemma HysteresisGrows(c: Config, ticks: seq<Tick>, log: seq<Action>, a: Action)
    requires |log| < |ticks| && Hysteresis(c, ticks, log) && a == Due(c, ticks, log)
    ensures Hysteresis(c, ticks, log + [a])
  {
    var log' := log + [a];
    forall i | 0 <= i < |log'| ensures log'[i] == Due(c, ticks, log'[..i]) {
      assert log'[..i] == log[..i];
      assert log[..|log|] == log;
    }
  }

  /** `Run` over the given ticks: the action log is exactly the due one. */
  method Run(c: Config, ticks: seq<Tick>) returns (log: seq<Action>)
    ensures |log| == |ticks| && Hysteresis(c, ticks, log)
  {
    log := [];
    var state := Direct;
    var bad: nat, good: nat := 0, 0;
    for i := 0 to |ticks|
      invariant |log| == i && Hysteresis(c, ticks, log)
      invariant Tracks(c, ticks, log, state, bad, good)
    {
      ghost var state0, bad0, good0 := state, bad, good;
      var action := Nothing;
      match state {
        case Direct =>
          var latency, up := DirectLinkLatency(ticks[i].peers, c.serverKey);
          if up && latency <= c.maxLatency {
            bad := 0;
          } else {
            bad := bad + 1;
            if bad >= DEGRADE_LIMIT {
              action := Removal(ticks[i].opOk);
              if ticks[i].opOk {
                state := Mesh;
                good := 0;
              }
            }
          }
        case Mesh =>
          if ticks[i].reachable {
            good := good + 1;
          } else {
            good := 0;
          }
          if good >= RECOVER_LIMIT {
            action := Restore(ticks[i].opOk);
            if ticks[i].opOk {
              state := Direct;
              bad := 0;
            }
          }
      }
      TickKeepsTrack(c, ticks, log, state0, bad0, good0, action, state, bad, good);
      HysteresisGrows(c, ticks, log, action);
      log := log + [action];
    }
  }

  // ------------------------------------------------------------- no flapping

  function Removals(log: seq<Action>): nat {
    if log == [] then 0
    else Removals(log[..|log| - 1]) + (if log[|log| - 1] == Removal(true) then 1 else 0)
  }

  function Restores(log: seq<Action>): nat {
    if log == [] then 0
    else Restores(log[..|log| - 1]) + (if log[|log| - 1] == Restore(true) then 1 else 0)
  }

  /** The ticks of the current stint. */
  function StintLength(log: seq<Action>): nat {
    if log == [] || Succeeded(log[|log| - 1]) then 0 else 1 + StintLength(log[..|log| - 1])
  }

  lemma {:induction false} StintIsLong(log: seq<Action>, n: nat)
    requires InStint(log, n)
    ensures StintLength(log) >= n
    decreases n
  {
    if n > 0 {
      var rest := log[..|log| - 1];
      assert InStint(rest, n - 1) by {
        assert forall j :: 0 <= j < |rest| ==> rest[j] == log[j];
      }
      StintIsLong(rest, n - 1);
    }
  }

  lemma HysteresisOfPrefix(c: Config, ticks: seq<Tick>, log: seq<Action>)
    requires log != [] && |log| <= |ticks| && Hysteresis(c, ticks, log)
    ensures var rest := log[..|log| - 1]; Hysteresis(c, ticks, rest) && log[|log| - 1] == Due(c, ticks, rest)
  {
    var rest := log[..|log| - 1];
    forall i | 0 <= i < |rest| ensures rest[i] == Due(c, ticks, rest[..i]) {
      assert rest[..i] == log[..i];
    }
  }

  /** Successful removals and restores alternate, a removal first; each removal takes
      three ticks of its stint and each restore two, so flapping is bounded:
      3R + 2A never exceeds the number of ticks. */
  lemma {:induction false} NoFlapping(c: Config, ticks: seq<Tick>, log: seq<Action>)
    requires |log| <= |ticks| && Hysteresis(c, ticks, log)
    ensures Removals(log) == Restores(log) + (if StateAfter(log) == Mesh then 1 else 0)
    ensures 3 * Removals(log) + 2 * Restores(log) + StintLength(log) <= |log|
    decreases |log|
  {
    if log != [] {
      var rest := log[..|log| - 1];
      HysteresisOfPrefix(c, ticks, log);
      NoFlapping(c, ticks, rest);
      if RemovalDue(c, ticks, rest) {
        StintIsLong(rest, 2);
      } else if RestoreDue(ticks, rest) {
        StintIsLong(rest, 1);
      }
    }
  }
}
