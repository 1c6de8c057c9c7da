/** `directClient` as the program writes it: an object whose methods update its
    fields. Every method is proved to perform exactly the steps of the slot machine
    (module DirectSlot) that the interleaving proofs are about. */
module DirectClients {
  import opened Types
  import C = Channel
  import D = DirectSlot
  import opened Paths
  import Rtt

  /** The caller's own steps and those of the environment. */
  predicate OwnOrEnvironment(l: D.Label, who: Who) {
    || l.Tick? || l.Kill?
    || ((l.Call? || l.Acquire? || l.Opened? || l.Socket? || l.Handshake? || l.Advance? || l.First?) && l.who == who)
  }

  /** `ls` is a run of the slot machine in which only `who` and the environment act. */
  ghost predicate Performs(who: Who, d: D.Slot, ls: seq<D.Label>, e: D.Slot) {
    Path(D.Step, d, ls, e) && forall i :: 0 <= i < |ls| ==> OwnOrEnvironment(ls[i], who)
  }

  /** The two steps after a failed dial: MarkFailed and the fallback display. */
  lemma FailureReturns(who: Who, d0: D.Slot, ls: seq<D.Label>, d: D.Slot) returns (ls': seq<D.Label>)
    requires Performs(who, d0, ls, d) && who in d.ops && d.ops[who] == D.MarkingFailed
    ensures Performs(who, d0, ls', d.(ops := d.ops[who := D.Returned(D.Failed)]))
    ensures LogOf(ls', who) == LogOf(ls, who)
  {
    var l := D.Advance(who);
    var d1 := d.(ops := d.ops[who := D.ShowingFailed]);
    var d2 := d.(ops := d.ops[who := D.Returned(D.Failed)]);
    assert d2.ops == d1.ops[who := D.Returned(D.Failed)];
    PathThen(D.Step, d0, ls, d, l);
    PathThen(D.Step, d0, ls + [l], d1, l);
    ls' := ls + [l] + [l];
  }

  /** A connection that `openStream` finds alive and that is dead afterwards was ended by
      the environment, not by `openStream`. */
  lemma {:induction false} OnlyTheEnvironmentEnds(who: Who, d: D.Slot, ls: seq<D.Label>, e: D.Slot, c: ConnId)
    requires Performs(who, d, ls, e) && c in d.alive && c !in e.alive
    ensures D.Kill(c) in ls
    decreases |ls|
  {
    var next := D.Step(d, ls[0]).value;
    if c in next.alive {
      OnlyTheEnvironmentEnds(who, next, ls[1..], e, c);
    } else {
      assert OwnOrEnvironment(ls[0], who);
    }
  }

  /** What the slot machine keeps, every run of the code keeps. */
  lemma {:induction false} PathKeepsInv(d: D.Slot, ls: seq<D.Label>, e: D.Slot)
    requires Path(D.Step, d, ls, e) && D.Inv(d)
    ensures D.Inv(e)
    decreases |ls|
  {
    if ls != [] {
      D.InvStep(d, ls[0]);
      PathKeepsInv(D.Step(d, ls[0]).value, ls[1..], e);
    }
  }

  /** While no call is in progress the slot's connection has a waiting watcher, so that
      `watchConn` can be run as soon as it dies. */
  lemma CalmSlotIsWatched(d: D.Slot, c: ConnId)
    requires D.Inv(d) && d.qconn == Some(c) && d.ops == map[]
    ensures c in d.watchers && d.watchers[c] == D.Waiting
  {
    assert forall w :: !D.IsSpawning(d, w, c);
  }

  /** The watchers after a call: a connection dialled in it has got one. */
  function Watched(d: D.Slot, e: D.Slot): map<ConnId, D.WatchPc> {
    if e.nextConn == d.nextConn then d.watchers else d.watchers[d.nextConn := D.Waiting]
  }

  /** The steps of a watcher that runs alone, from the end of its connection on. */
  lemma WatcherRuns(d: D.Slot, c: ConnId) returns (ls: seq<D.Label>)
    requires D.Step(d, D.WatchFire(c)).Some?
    ensures Path(D.Step, d, ls, D.Step(d, D.WatchFire(c)).value.(watchers := d.watchers[c := D.Fired]))
    ensures NoCalls(ls)
    ensures D.Inv(d) ==> D.Inv(D.Step(d, D.WatchFire(c)).value.(watchers := d.watchers[c := D.Fired]))
  {
    var e := D.Step(d, D.WatchFire(c)).value;
    assert Path(D.Step, d, [], d);
    PathThen(D.Step, d, [], d, D.WatchFire(c));
    ls := [] + [D.WatchFire(c)];
    if e.watchers[c] == D.Clearing {
      var f := D.Step(e, D.WatchNext(c)).value;
      PathThen(D.Step, d, ls, e, D.WatchNext(c));
      PathThen(D.Step, d, ls + [D.WatchNext(c)], f, D.WatchNext(c));
      ls := ls + [D.WatchNext(c)] + [D.WatchNext(c)];
      assert D.Step(f, D.WatchNext(c)).value.watchers == d.watchers[c := D.Fired];
    }
    if D.Inv(d) {
      PathKeepsInv(d, ls, e.(watchers := d.watchers[c := D.Fired]));
    }
  }

  /** Steps of the environment and of watchers alone. */
  ghost predicate NoCalls(ls: seq<D.Label>) {
    forall i :: 0 <= i < |ls| ==> ls[i].Tick? || ls[i].Kill? || ls[i].WatchFire? || ls[i].WatchNext?
  }

  /** What a call went through: a dial of it failed, it tried to open a stream on the slot's
      connection, it opened a stream. */
  datatype Log = Log(dialFails: bool, tried: bool, opens: bool)

  ghost function LogOf(ls: seq<D.Label>, who: Who): Log {
    Log(D.Socket(who, false) in ls || D.Handshake(who, false) in ls,
        D.Opened(who, true) in ls || D.Opened(who, false) in ls,
        D.Opened(who, true) in ls || D.First(who, true) in ls)
  }

  /** The log after one more step. */
  function Noted(log: Log, l: D.Label, who: Who): Log {
    match l
    case Socket(w, ok) => log.(dialFails := log.dialFails || (w == who && !ok))
    case Handshake(w, ok) => log.(dialFails := log.dialFails || (w == who && !ok))
    case Opened(w, ok) => log.(tried := log.tried || w == who, opens := log.opens || (w == who && ok))
    case First(w, ok) => log.(opens := log.opens || (w == who && ok))
    case _ => log
  }

  /** The answer of the environment that a step records. */
  function Answer(l: D.Label): seq<bool> {
    match l
    case Opened(_, ok) => [ok]
    case Socket(_, ok) => [ok]
    case Handshake(_, ok) => [ok]
    case First(_, ok) => [ok]
    case _ => []
  }

  /** The QUIC library, its sockets and the clock: connections may die and time may
      pass whenever the program waits. */
  class Quic {
    var now: nat
    var alive: set<ConnId>
    var open: set<TrId>
    var nextConn: ConnId
    var nextTr: TrId
    ghost var asked: seq<bool>  // the answers given so far

    constructor (now: nat)
      ensures this.now == now && alive == {} && open == {} && nextConn == 0 && nextTr == 0 && asked == []
    {
      this.now := now;
      alive, open, nextConn, nextTr := {}, {}, 0, 0;
      asked := [];
    }

    /** A dial or a stream open ends, one way or the other. */
    method Ask() returns (ok: bool)
      modifies this`asked
      ensures asked == old(asked) + [ok]
    {
      ok := *;
      asked := asked + [ok];
    }

    method CloseConn(c: ConnId)
      modifies this`alive
      ensures alive == old(alive) - {c}
    {
      alive := alive - {c};
    }

    method CloseTransport(t: TrId)
      modifies this`open
      ensures open == old(open) - {t}
    {
      open := open - {t};
    }

    method NewTransport() returns (t: TrId)
      modifies this`open, this`nextTr
      ensures t == old(nextTr) && nextTr == t + 1 && open == old(open) + {t}
    {
      t := nextTr;
      open, nextTr := open + {t}, t + 1;
    }

    method Connected() returns (c: ConnId)
      modifies this`alive, this`nextConn
      ensures c == old(nextConn) && nextConn == c + 1 && alive == old(alive) + {c}
    {
      c := nextConn;
      alive, nextConn := alive + {c}, c + 1;
    }
  }

  class DirectClient {
    const quic: Quic
    const retryPeriod: int
    var qconn: Option<ConnId>
    var tr: Option<TrId>
    var failUntil: int
    var probeRTT: int
    var verifiedUntil: int
    var shown: PathState        // owner.probeState
    ghost var slot: D.Slot      // the abstract slot with its lock, callers and watchers
    ghost var told: seq<bool>   // the answers that its steps have recorded

    /** The object is the abstract slot, which knows all answers as they were given. */
    ghost predicate Valid()
      reads this, quic
    {
      Matches() && told == quic.asked
    }

    ghost predicate Matches()
      reads this, quic
    {
      slot == D.Slot(quic.now, qconn, tr, failUntil, quic.alive, quic.open, quic.nextConn, quic.nextTr,
                     slot.mu, slot.ops, slot.watchers)
    }

    /** Valid, but for the cooldown that a failure is about to set. */
    ghost predicate FailureToRecord()
      reads this, quic
    {
      && slot.failUntil == quic.now + DIRECT_FAIL_COOLDOWN && told == quic.asked
      && slot == D.Slot(quic.now, qconn, tr, slot.failUntil, quic.alive, quic.open, quic.nextConn, quic.nextTr,
                        slot.mu, slot.ops, slot.watchers)
    }

    constructor (quic: Quic, retryPeriod: int)
      requires quic.alive == {} && quic.open == {} && quic.nextConn == 0 && quic.nextTr == 0
      ensures Valid() && D.Init(slot) && this.quic == quic && this.retryPeriod == retryPeriod
      ensures verifiedUntil == 0 && probeRTT == Rtt.NO_BASELINE
    {
      this.quic := quic;
      this.retryPeriod := retryPeriod;
      qconn, tr, failUntil, probeRTT, verifiedUntil, shown := None, None, 0, Rtt.NO_BASELINE, 0, MeshOnly;
      slot := D.Slot(quic.now, None, None, 0, {}, {}, 0, 0, None, map[], map[]);
      told := quic.asked;
    }

    // ------------------------------------------------------- Alt-Svc cache

    /** The object and a state of the whole client have the same clock and the same cache. */
    ghost predicate CacheAgrees(s: C.State)
      reads this, quic
    {
      s.d.now == quic.now && s.verifiedUntil == verifiedUntil && s.retryPeriod == retryPeriod
    }

    method IsVerified() returns (v: bool)
      ensures v == (quic.now < verifiedUntil)
      ensures forall s :: CacheAgrees(s) ==> v == C.IsVerified(s)
    {
      v := quic.now < verifiedUntil;
    }

    function VerifyTTL(): (ttl: int)
      reads this, quic
      ensures forall s :: CacheAgrees(s) ==> ttl == C.VerifyTTL(s)
    {
      if retryPeriod > 0 then 2 * retryPeriod else 2 * DIRECT_FALLBACK_COOLDOWN
    }

    method MarkVerified(ttl: int)
      modifies this`verifiedUntil
      ensures verifiedUntil == quic.now + ttl
      ensures forall s :: old(CacheAgrees(s)) && ttl == C.VerifyTTL(s) ==> CacheAgrees(C.MarkVerified(s))
    {
      verifiedUntil := quic.now + ttl;
    }

    method MarkFailed()
      modifies this`verifiedUntil
      ensures verifiedUntil == 0
      ensures forall s :: old(CacheAgrees(s)) ==> CacheAgrees(C.MarkFailed(s))
    {
      verifiedUntil := 0;
    }

    // -------------------------------------------------- critical sections

    method ConnAlive() returns (b: bool)
      requires Valid()
      ensures b == D.ConnAlive(slot)
    {
      if qconn.None? {
        return false;
      }
      b := qconn.value in quic.alive;
    }

    /** Closes and forgets the connection together with its transport. */
    method DropConnLocked()
      modifies this`qconn, this`tr, quic`alive, quic`open
      ensures qconn.None? && tr.None?
      ensures quic.alive == old(quic.alive) - AsSet(old(qconn))
      ensures quic.open == old(quic.open) - AsSet(old(tr))
    {
      if qconn.Some? {
        quic.CloseConn(qconn.value);
      }
      if tr.Some? {
        quic.CloseTransport(tr.value);
      }
      qconn := None;
      tr := None;
    }

    method DropAndFail()
      requires Valid() && slot.mu.None?
      modifies this, quic`alive, quic`open
      ensures Valid() && D.Step(old(slot), D.DropAndFail) == Some(slot)
      ensures D.Inv(old(slot)) ==> D.Inv(slot)
      ensures verifiedUntil == 0 && shown == MeshFallback && probeRTT == old(probeRTT)
    {
      if D.Inv(slot) {
        D.InvStep(slot, D.DropAndFail);
      }
      DropConnLocked();
      failUntil := quic.now + DIRECT_FAIL_COOLDOWN;
      slot := D.Step(slot, D.DropAndFail).value;
      MarkFailed();
      shown := MeshFallback;
    }

    /** `watchConn` from the moment its connection is done, alone. */
    method WatchConn(conn: ConnId) returns (ghost ls: seq<D.Label>)
      requires Valid() && slot.mu.None? && conn !in quic.alive
      requires conn in slot.watchers && slot.watchers[conn] == D.Waiting
      modifies this, quic`alive, quic`open
      ensures Valid()
      ensures slot == D.Step(old(slot), D.WatchFire(conn)).value.(watchers := old(slot).watchers[conn := D.Fired])
      ensures Path(D.Step, old(slot), ls, slot) && NoCalls(ls)
      ensures D.Inv(old(slot)) ==> D.Inv(slot)
      ensures if old(qconn) == Some(conn) then verifiedUntil == 0 && shown == MeshFallback
              else verifiedUntil == old(verifiedUntil) && shown == old(shown)
      ensures probeRTT == old(probeRTT)
    {
      ls := WatcherRuns(slot, conn);
      var current := qconn == Some(conn);
      if current {
        DropConnLocked();
        failUntil := quic.now + DIRECT_FAIL_COOLDOWN;
        MarkFailed();
        shown := MeshFallback;
      }
      slot := D.Step(slot, D.WatchFire(conn)).value.(watchers := slot.watchers[conn := D.Fired]);
    }

    method Close()
      requires Valid() && slot.mu.None?
      modifies this`qconn, this`tr, this`slot, quic`alive, quic`open
      ensures Valid() && D.Step(old(slot), D.Close) == Some(slot)
      ensures D.Inv(old(slot)) ==> D.Inv(slot)
    {
      if D.Inv(slot) {
        D.InvStep(slot, D.Close);
      }
      DropConnLocked();
      slot := D.Step(slot, D.Close).value;
    }

    method ProbeHealthy(rtt: int) returns (healthy: bool)
      modifies this`probeRTT
      ensures Rtt.Judgement(healthy, probeRTT) == Rtt.Judge(old(probeRTT), rtt)
    {
      if probeRTT <= 0 {
        probeRTT := rtt;
        return true;
      }
      var threshold := 3 * probeRTT;
      if threshold < SECOND {
        threshold := SECOND;
      }
      if rtt > threshold {
        return false;
      }
      probeRTT := (7 * probeRTT + 3 * rtt) / 10;
      return true;
    }

    // ------------------------------------------------------------- openStream
    //
    // Each step of the code is followed by the step of the slot machine it performs;
    // `ls` collects these steps from the slot `d0` at the start of the call on.

    ghost method Take(who: Who, d0: D.Slot, ls: seq<D.Label>, l: D.Label) returns (ls': seq<D.Label>)
      requires Performs(who, d0, ls, slot) && D.Step(slot, l).Some? && OwnOrEnvironment(l, who)
      modifies this`slot, this`told
      ensures slot == D.Step(old(slot), l).value && Performs(who, d0, ls', slot)
      ensures told == old(told) + Answer(l) && LogOf(ls', who) == Noted(LogOf(ls, who), l, who)
    {
      PathThen(D.Step, d0, ls, slot, l);
      slot, told := D.Step(slot, l).value, told + Answer(l);
      ls' := ls + [l];
    }

    /** The program waits: time passes, and the connection it waits on may die. */
    method Wait(conn: Option<ConnId>, ghost who: Who, ghost d0: D.Slot, ghost ls: seq<D.Label>)
      returns (ok: bool, ghost ls': seq<D.Label>)
      requires Valid() && Performs(who, d0, ls, slot)
      modifies quic`now, quic`alive, quic`asked, this`slot, this`told
      ensures Matches() && quic.asked == told + [ok]
      ensures Performs(who, d0, ls', slot) && LogOf(ls', who) == LogOf(ls, who)
      ensures slot == old(slot).(now := slot.now, alive := slot.alive)
    {
      ok := quic.Ask();
      var dies: bool := *;
      var dt :| 0 <= dt;
      quic.now := quic.now + dt;
      ls' := Take(who, d0, ls, D.Tick(dt));
      if dies && conn.Some? && conn.value in quic.alive {
        quic.CloseConn(conn.value);
        ls' := Take(who, d0, ls', D.Kill(conn.value));
      }
    }

    /** The dial failed: cool down, clear the cache, show the fallback state. */
    method GiveUp(ghost who: Who, ghost d0: D.Slot, ghost ls: seq<D.Label>) returns (ghost ls': seq<D.Label>)
      requires Performs(who, d0, ls, slot) && who in slot.ops && slot.ops[who] == D.MarkingFailed
      requires FailureToRecord()
      modifies this
      ensures Valid() && Performs(who, d0, ls', slot) && LogOf(ls', who) == LogOf(ls, who)
      ensures slot == old(slot).(ops := old(slot).ops[who := D.Returned(D.Failed)])
      ensures verifiedUntil == 0 && shown == MeshFallback && probeRTT == old(probeRTT)
    {
      failUntil := quic.now + DIRECT_FAIL_COOLDOWN;
      MarkFailed();
      shown := MeshFallback;
      ls' := FailureReturns(who, d0, ls, slot);
      slot := slot.(ops := slot.ops[who := D.Returned(D.Failed)]);
    }

    /** The handshake of `directDialTransport` on its new transport: a failed one closes
        the transport, a good one fills the slot. */
    method Connect(newTr: TrId, ghost who: Who, ghost d0: D.Slot, ghost ls: seq<D.Label>)
      returns (conn: Option<ConnId>, ghost ls': seq<D.Label>)
      requires Valid() && Performs(who, d0, ls, slot) && !LogOf(ls, who).dialFails && !LogOf(ls, who).opens
      requires who in slot.ops && slot.ops[who] == D.Handshaking(newTr)
      modifies this`qconn, this`tr, this`slot, this`told, quic
      ensures Performs(who, d0, ls', slot) && LogOf(ls', who) == LogOf(ls, who).(dialFails := conn.None?)
      ensures slot.mu.None? && slot.watchers == old(slot).watchers
      ensures slot.ops == old(slot).ops[who := if conn.Some? then D.Spawning(conn.value) else D.MarkingFailed]
      ensures conn.Some? ==> Valid() && qconn == conn
      ensures conn.Some? ==> conn.value == old(slot).nextConn && slot.nextConn == conn.value + 1
      ensures conn.None? ==> FailureToRecord() && slot.nextConn == old(slot).nextConn
    {
      var ok;
      ok, ls' := Wait(None, who, d0, ls);
      if !ok {
        quic.CloseTransport(newTr);
        ls' := Take(who, d0, ls', D.Handshake(who, false));
        return None, ls';
      }
      var c := quic.Connected();
      qconn, tr := Some(c), Some(newTr);
      ls' := Take(who, d0, ls', D.Handshake(who, true));
      conn := Some(c);
    }

    /** The UDP socket and its transport, if there is a socket to be had. */
    method Socket(ghost who: Who, ghost d0: D.Slot, ghost ls: seq<D.Label>)
      returns (newTr: Option<TrId>, ghost ls': seq<D.Label>)
      requires Valid() && Performs(who, d0, ls, slot) && !LogOf(ls, who).dialFails && !LogOf(ls, who).opens
      requires who in slot.ops && slot.ops[who] == D.Dialing
      modifies this`slot, this`told, quic`open, quic`nextTr, quic`asked
      ensures Performs(who, d0, ls', slot) && LogOf(ls', who) == LogOf(ls, who).(dialFails := newTr.None?)
      ensures slot.watchers == old(slot).watchers && slot.nextConn == old(slot).nextConn
      ensures slot.ops
           == old(slot).ops[who := if newTr.Some? then D.Handshaking(newTr.value) else D.MarkingFailed]
      ensures newTr.Some? ==> Valid()
      ensures newTr.None? ==> FailureToRecord() && slot.mu.None?
    {
      var socketOk := quic.Ask();
      if socketOk {
        var t := quic.NewTransport();
        ls' := Take(who, d0, ls, D.Socket(who, true));
        newTr := Some(t);
      } else {
        ls' := Take(who, d0, ls, D.Socket(who, false));
        newTr := None;
      }
    }

    /** `directDialTransport`: a socket with its transport, and a handshake on it. */
    method DialTransport(ghost who: Who, ghost d0: D.Slot, ghost ls: seq<D.Label>)
      returns (conn: Option<ConnId>, ghost ls': seq<D.Label>)
      requires Valid() && Performs(who, d0, ls, slot) && !LogOf(ls, who).dialFails && !LogOf(ls, who).opens
      requires who in slot.ops && slot.ops[who] == D.Dialing
      modifies this`qconn, this`tr, this`slot, this`told, quic
      ensures Performs(who, d0, ls', slot) && LogOf(ls', who) == LogOf(ls, who).(dialFails := conn.None?)
      ensures slot.mu.None? && slot.watchers == old(slot).watchers
      ensures slot.ops == old(slot).ops[who := if conn.Some? then D.Spawning(conn.value) else D.MarkingFailed]
      ensures conn.Some? ==> Valid() && qconn == conn
      ensures conn.Some? ==> conn.value == old(slot).nextConn && slot.nextConn == conn.value + 1
      ensures conn.None? ==> FailureToRecord() && slot.nextConn == old(slot).nextConn
    {
      var newTr;
      newTr, ls' := Socket(who, d0, ls);
      if newTr.None? {
        return None, ls';
      }
      conn, ls' := Connect(newTr.value, who, d0, ls');
    }

    /** The dial under d.mu on an empty slot, and what follows a failure. */
    method Dial(ghost who: Who, ghost d0: D.Slot, ghost ls: seq<D.Label>)
      returns (conn: Option<ConnId>, ghost ls': seq<D.Label>)
      requires Valid() && Performs(who, d0, ls, slot) && !LogOf(ls, who).dialFails && !LogOf(ls, who).opens
      requires who in slot.ops && slot.ops[who] == D.Dialing
      modifies this, quic
      ensures Valid() && Performs(who, d0, ls', slot)
      ensures slot.mu.None? && slot.watchers == old(slot).watchers
      ensures slot.ops == old(slot).ops[who := if conn.Some? then D.Spawning(conn.value) else D.Returned(D.Failed)]
      ensures conn.Some? ==> qconn == conn && conn.value == old(slot).nextConn && slot.nextConn == conn.value + 1
      ensures conn.None? ==> slot.nextConn == old(slot).nextConn
      ensures probeRTT == old(probeRTT) && LogOf(ls', who) == LogOf(ls, who).(dialFails := conn.None?)
      ensures if conn.None? then verifiedUntil == 0 && shown == MeshFallback
              else verifiedUntil == old(verifiedUntil) && shown == old(shown)
    {
      conn, ls' := DialTransport(who, d0, ls);
      if conn.None? {
        ls' := GiveUp(who, d0, ls');
      }
    }

    /** Reuses the slot's connection if it can, and otherwise leaves the slot empty and
        d.mu held for a dial. */
    method Reuse(ghost who: Who, ghost d0: D.Slot, ghost ls: seq<D.Label>)
      returns (res: Option<D.OpResult>, ghost ls': seq<D.Label>)
      requires Valid() && Performs(who, d0, ls, slot) && LogOf(ls, who) == Log(false, false, false)
      requires slot.mu.None? && who in slot.ops && slot.ops[who] == D.Locking
      modifies this, quic
      ensures Valid() && Performs(who, d0, ls', slot)
      ensures !LogOf(ls', who).dialFails && (LogOf(ls', who).opens <==> res.Some? && res.value.Stream?)
      ensures old(D.ConnAlive(slot) && quic.now >= failUntil) ==> LogOf(ls', who).tried
      ensures slot.ops == old(slot).ops[who := if res.Some? then D.Returned(res.value) else D.Dialing]
      ensures slot.watchers == old(slot).watchers && slot.nextConn == old(slot).nextConn
      ensures res.Some? ==> slot.mu.None?
      ensures res.Some? && res.value.Stream? ==> qconn == Some(res.value.conn)
      ensures res == Some(D.Cooldown) <==> old(quic.now < failUntil)
      ensures probeRTT == old(probeRTT) && verifiedUntil == old(verifiedUntil) && shown == old(shown)
    {
      ls' := Take(who, d0, ls, D.Acquire(who));
      if quic.now < failUntil {
        return Some(D.Cooldown), ls';
      }
      if qconn.None? || qconn.value !in quic.alive {
        DropConnLocked();
        return None, ls';
      }
      var ok;
      ok, ls' := Wait(qconn, who, d0, ls');
      ls' := Take(who, d0, ls', D.Opened(who, ok));
      if ok {
        return Some(D.Stream(qconn.value)), ls';
      }
      if qconn.value in quic.alive {
        return Some(D.Failed), ls';
      }
      DropConnLocked();
      res := None;
    }

    /** Starts the watcher of the new connection and opens the first stream on it. */
    method Serve(conn: ConnId, ghost who: Who, ghost d0: D.Slot, ghost ls: seq<D.Label>)
      returns (res: D.OpResult, ghost ls': seq<D.Label>)
      requires Valid() && Performs(who, d0, ls, slot) && !LogOf(ls, who).opens
      requires who in slot.ops && slot.ops[who] == D.Spawning(conn)
      modifies quic`now, quic`alive, quic`asked, this`slot, this`told
      ensures Valid() && Performs(who, d0, ls', slot) && LogOf(ls', who) == LogOf(ls, who).(opens := res.Stream?)
      ensures slot.mu == old(slot).mu && slot.nextConn == old(slot).nextConn
      ensures slot.ops == old(slot).ops[who := D.Returned(res)]
      ensures slot.watchers == old(slot).watchers[conn := D.Waiting]
      ensures !res.Cooldown? && (res.Stream? ==> res.conn == conn)
    {
      ls' := Take(who, d0, ls, D.Advance(who));
      var ok;
      ok, ls' := Wait(Some(conn), who, d0, ls');
      ls' := Take(who, d0, ls', D.First(who, ok));
      res := if ok then D.Stream(conn) else D.Failed;
    }

    /** A new connection for the empty slot, and a stream on it. */
    method Redial(ghost who: Who, ghost d0: D.Slot, ghost ls: seq<D.Label>)
      returns (res: D.OpResult, ghost ls': seq<D.Label>)
      requires Valid() && Performs(who, d0, ls, slot) && !LogOf(ls, who).dialFails && !LogOf(ls, who).opens
      requires who in slot.ops && slot.ops[who] == D.Dialing
      modifies this, quic
      ensures Valid() && Performs(who, d0, ls', slot)
      ensures slot.mu.None? && slot.ops == old(slot).ops[who := D.Returned(res)]
      ensures slot.watchers == Watched(old(slot), slot)
      ensures !res.Cooldown? && (res.Stream? ==> qconn == Some(res.conn))
      ensures probeRTT == old(probeRTT)
      ensures LogOf(ls', who).tried == LogOf(ls, who).tried && LogOf(ls', who).opens == res.Stream?
      ensures if LogOf(ls', who).dialFails then res.Failed? && verifiedUntil == 0 && shown == MeshFallback
              else verifiedUntil == old(verifiedUntil) && shown == old(shown)
    {
      var conn;
      conn, ls' := Dial(who, d0, ls);
      if conn.None? {
        return D.Failed, ls';
      }
      res, ls' := Serve(conn.value, who, d0, ls');
    }

    /** `openStream` up to the point where it has its result. */
    method Attempt(ghost who: Who) returns (res: D.OpResult, ghost ls: seq<D.Label>)
      requires Valid() && slot.mu.None? && who !in slot.ops
      modifies this, quic
      ensures Valid() && Performs(who, old(slot), ls, slot)
      ensures slot.mu.None? && slot.ops == old(slot).ops[who := D.Returned(res)]
      ensures slot.watchers == Watched(old(slot), slot)
      ensures res.Stream? ==> qconn == Some(res.conn)
      ensures res.Cooldown? <==> old(quic.now < failUntil)
      ensures probeRTT == old(probeRTT)
      ensures LogOf(ls, who).opens <==> res.Stream?
      ensures old(D.ConnAlive(slot) && quic.now >= failUntil) ==> LogOf(ls, who).tried
      ensures if LogOf(ls, who).dialFails then res.Failed? && verifiedUntil == 0 && shown == MeshFallback
              else verifiedUntil == old(verifiedUntil) && shown == old(shown)
    {
      ghost var d0 := slot;
      ls := Take(who, d0, [], D.Call(who));
      var early;
      early, ls := Reuse(who, d0, ls);
      if early.Some? {
        return early.value, ls;
      }
      res, ls := Redial(who, d0, ls);
    }

    /** `openStream`, as one run of the caller's own steps of the slot machine that ends with
        its return: from the slot `last`, where the machine holds the same result. The
        caller can call again, and all other callers and watchers stand where they stood. */
    method OpenStream(ghost who: Who) returns (res: D.OpResult, ghost ls: seq<D.Label>, ghost last: D.Slot)
      requires Valid() && slot.mu.None? && who !in slot.ops
      modifies this, quic
      ensures Valid() && Performs(who, old(slot), ls, last) && D.Step(last, D.Return(who)) == Some(slot)
      ensures who in last.ops && last.ops[who] == D.Returned(res)
      ensures slot.mu.None? && slot.ops == old(slot).ops && slot.watchers == Watched(old(slot), slot)
      ensures D.Inv(old(slot)) ==> D.Inv(slot)
      ensures res.Stream? ==> qconn == Some(res.conn)
      ensures res.Cooldown? <==> old(quic.now < failUntil)
      ensures probeRTT == old(probeRTT)
      ensures LogOf(ls, who).opens <==> res.Stream?
      ensures old(D.ConnAlive(slot) && quic.now >= failUntil) ==> LogOf(ls, who).tried
      ensures if LogOf(ls, who).dialFails then res.Failed? && verifiedUntil == 0 && shown == MeshFallback
              else verifiedUntil == old(verifiedUntil) && shown == old(shown)
    {
      ghost var d0 := slot;
      res, ls := Attempt(who);
      last := slot;
      slot := D.Step(slot, D.Return(who)).value;
      assert slot.ops == d0.ops;
      if D.Inv(d0) {
        PathKeepsInv(d0, ls, last);
        D.InvStep(last, D.Return(who));
      }
    }

    /** Nobody calls: time passes, and the slot's connection may die. */
    method Rest() returns (ghost ls: seq<D.Label>)
      requires Valid()
      modifies quic`now, quic`alive, this`slot
      ensures Valid() && slot == old(slot).(now := slot.now, alive := slot.alive)
      ensures Path(D.Step, old(slot), ls, slot) && NoCalls(ls)
      ensures old(quic.now) <= quic.now && quic.alive <= old(quic.alive)
      ensures D.Inv(old(slot)) ==> D.Inv(slot)
    {
      var dies: bool := *;
      var dt :| 0 <= dt;
      ghost var d0 := slot;
      quic.now := quic.now + dt;
      assert Path(D.Step, d0, [], d0);
      PathThen(D.Step, d0, [], d0, D.Tick(dt));
      ls := [] + [D.Tick(dt)];
      slot := D.Step(slot, D.Tick(dt)).value;
      if dies && qconn.Some? && qconn.value in quic.alive {
        quic.CloseConn(qconn.value);
        PathThen(D.Step, d0, ls, slot, D.Kill(qconn.value));
        ls := ls + [D.Kill(qconn.value)];
        slot := D.Step(slot, D.Kill(qconn.value)).value;
      }
      if D.Inv(d0) {
        PathKeepsInv(d0, ls, slot);
      }
    }
  }
}
