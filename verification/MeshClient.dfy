/** The mesh half of `client` as the program writes it: an object that updates its
    cached connection, proved to perform exactly the steps of module MeshSlot. */
module MeshClients {
  import opened Types
  import M = MeshSlot
  import opened Paths

  predicate OwnOrEnvironment(l: M.Label, t: Tid) {
    || l.Kill?
    || ((l.Call? || l.Acquire? || l.Opened? || l.AskPeers? || l.Dialed? || l.First?) && l.tid == t)
  }

  ghost predicate Performs(t: Tid, m: M.Mesh, ls: seq<M.Label>, n: M.Mesh) {
    Path(M.Step, m, ls, n) && forall i :: 0 <= i < |ls| ==> OwnOrEnvironment(ls[i], t)
  }

  /** What the mesh machine keeps, every run of the code keeps. */
  lemma {:induction false} PathKeepsInv(m: M.Mesh, ls: seq<M.Label>, n: M.Mesh)
    requires Path(M.Step, m, ls, n) && M.Inv(m)
    ensures M.Inv(n)
    decreases |ls|
  {
    if ls != [] {
      M.InvStep(m, ls[0]);
      PathKeepsInv(M.Step(m, ls[0]).value, ls[1..], n);
    }
  }

  /** What a call went through: it tried to open a stream on the cached connection, it got
      one there, it opened a stream at all. */
  datatype Log = Log(tried: bool, reused: bool, opens: bool)

  ghost function LogOf(ls: seq<M.Label>, t: Tid): Log {
    Log(M.Opened(t, true) in ls || M.Opened(t, false) in ls, M.Opened(t, true) in ls,
        M.Opened(t, true) in ls || M.First(t, true) in ls)
  }

  /** The log after one more step. */
  function Noted(log: Log, l: M.Label, t: Tid): Log {
    match l
    case Opened(u, ok) =>
      if u == t then Log(true, log.reused || ok, log.opens || ok) else log
    case First(u, ok) => log.(opens := log.opens || (u == t && ok))
    case _ => log
  }

  /** The answer of the environment that a step records. */
  function Answer(l: M.Label): seq<bool> {
    match l
    case Acquire(_, up) => [up]
    case Opened(_, ok) => [ok]
    case AskPeers(_, up) => [up]
    case Dialed(_, ok) => [ok]
    case First(_, ok) => [ok]
    case _ => []
  }

  /** The steps that may cost a connection its life. */
  predicate MayEnd(l: M.Label, c: ConnId) {
    l == M.Kill(c) || (l.Acquire? && !l.up) || (l.Opened? && !l.ok) || (l.First? && !l.ok)
  }

  /** A call ends a living connection only if it finds no peering or its stream open on it
      fails; otherwise the environment did. */
  lemma {:induction false} WhatEnds(t: Tid, m: M.Mesh, ls: seq<M.Label>, n: M.Mesh, c: ConnId)
    requires Performs(t, m, ls, n) && M.Inv(m) && c in m.alive && c !in n.alive
    ensures exists i :: 0 <= i < |ls| && MayEnd(ls[i], c)
    decreases |ls|
  {
    var next := M.Step(m, ls[0]).value;
    M.InvStep(m, ls[0]);
    if c in next.alive {
      WhatEnds(t, next, ls[1..], n, c);
      var i :| 0 <= i < |ls[1..]| && MayEnd(ls[1..][i], c);
      assert ls[i + 1] == ls[1..][i];
    } else {
      assert MayEnd(ls[0], c);
    }
  }

  class Client {
    var qconn: Option<ConnId>
    var peers: nat              // peerings that are up
    var alive: set<ConnId>      // mesh connections whose context is not done
    var next: ConnId
    ghost var mesh: M.Mesh      // the abstract slot with its lock, callers and watchers
    ghost var asked: seq<bool>  // the answers of the environment so far
    ghost var told: seq<bool>   // the answers that the slot's steps have recorded

    /** The object is the abstract slot, which knows all answers as they were given. */
    ghost predicate Valid()
      reads this
    {
      Matches() && told == asked
    }

    ghost predicate Matches()
      reads this
    {
      mesh == M.Mesh(qconn, alive, next, mesh.mu, mesh.ops, mesh.watching)
    }

    constructor (peers: nat)
      ensures Valid() && M.Init(mesh) && this.peers == peers
    {
      this.peers := peers;
      qconn, alive, next := None, {}, 0;
      mesh := M.Mesh(None, {}, 0, None, map[], {});
      asked, told := [], [];
    }

    /** A dial or a stream open ends, one way or the other. */
    method Ask() returns (ok: bool)
      modifies this`asked
      ensures asked == old(asked) + [ok]
    {
      ok := *;
      asked := asked + [ok];
    }

    method MeshActive() returns (up: bool)
      modifies this`asked
      ensures up == (peers > 0) && asked == old(asked) + [up]
    {
      up := peers > 0;
      asked := asked + [up];
    }

    ghost method Take(t: Tid, m0: M.Mesh, ls: seq<M.Label>, l: M.Label) returns (ls': seq<M.Label>)
      requires Performs(t, m0, ls, mesh) && M.Step(mesh, l).Some? && OwnOrEnvironment(l, t)
      modifies this`mesh, this`told
      ensures mesh == M.Step(old(mesh), l).value && Performs(t, m0, ls', mesh)
      ensures told == old(told) + Answer(l) && LogOf(ls', t) == Noted(LogOf(ls, t), l, t)
    {
      PathThen(M.Step, m0, ls, mesh, l);
      mesh, told := M.Step(mesh, l).value, told + Answer(l);
      ls' := ls + [l];
    }

    /** The program waits: peerings come and go, and the connection it waits on may die. */
    method Wait(conn: Option<ConnId>, ghost t: Tid, ghost m0: M.Mesh, ghost ls: seq<M.Label>)
      returns (ok: bool, ghost ls': seq<M.Label>)
      requires Valid() && Performs(t, m0, ls, mesh)
      modifies this`peers, this`alive, this`mesh, this`asked, this`told
      ensures Matches() && asked == told + [ok]
      ensures Performs(t, m0, ls', mesh) && LogOf(ls', t) == LogOf(ls, t)
      ensures mesh == old(mesh).(alive := mesh.alive)
    {
      ok := Ask();
      var dies: bool := *;
      var up :| 0 <= up;
      peers := up;
      ls' := ls;
      if dies && conn.Some? && conn.value in alive {
        alive := alive - {conn.value};
        ls' := Take(t, m0, ls', M.Kill(conn.value));
      }
    }

    method Forget()
      requires qconn.Some?
      modifies this`qconn, this`alive
      ensures qconn.None? && alive == old(alive) - {old(qconn.value)}
    {
      alive := alive - {qconn.value};
      qconn := None;
    }

    /** The cached connection, if it is of any use; otherwise nothing is cached after. */
    method Reuse(ghost t: Tid, ghost m0: M.Mesh, ghost ls: seq<M.Label>)
      returns (res: Option<M.MeshResult>, ghost ls': seq<M.Label>)
      requires Valid() && Performs(t, m0, ls, mesh) && LogOf(ls, t) == Log(false, false, false)
      requires mesh.mu.None? && t in mesh.ops && mesh.ops[t] == M.Locking
      modifies this
      ensures Valid() && Performs(t, m0, ls', mesh) && mesh.watching == old(mesh).watching
      ensures mesh.ops == old(mesh).ops[t := if res.Some? then M.Returned(res.value) else M.Gate]
      ensures res.None? ==> qconn.None?
      ensures res.Some? ==> mesh.mu.None? && old(peers) > 0
      ensures res.Some? ==> qconn == old(qconn) && res.value.MeshStream? && qconn == Some(res.value.conn)
      ensures mesh.next == old(mesh).next
      ensures var log := LogOf(ls', t);
              && log.reused == log.opens == res.Some?
              && (old(qconn.Some? && qconn.value in alive && peers > 0) ==> log.tried)
    {
      var up := MeshActive();
      ls' := Take(t, m0, ls, M.Acquire(t, up));
      if qconn.Some? && !up {
        Forget();
      }
      if qconn.Some? && qconn.value !in alive {
        Forget();
      }
      if qconn.Some? {
        var ok;
        ok, ls' := Wait(qconn, t, m0, ls');
        ls' := Take(t, m0, ls', M.Opened(t, ok));
        if ok {
          return Some(M.MeshStream(qconn.value)), ls';
        }
        Forget();
      }
      res := None;
    }

    /** A new mesh connection; it is cached only once a stream is open on it. */
    method Dial(ghost t: Tid, ghost m0: M.Mesh, ghost ls: seq<M.Label>)
      returns (res: M.MeshResult, ghost ls': seq<M.Label>)
      requires Valid() && Performs(t, m0, ls, mesh) && qconn.None? && !LogOf(ls, t).opens
      requires t in mesh.ops && mesh.ops[t] == M.Dialing
      modifies this
      ensures Valid() && Performs(t, m0, ls', mesh)
      ensures mesh.mu.None? && mesh.ops == old(mesh).ops[t := M.Returned(res)]
      ensures qconn == if res.MeshStream? then Some(res.conn) else None
      ensures mesh.watching == old(mesh.watching) + AsSet(qconn)
      ensures LogOf(ls', t) == LogOf(ls, t).(opens := res.MeshStream?)
    {
      var ok;
      ok, ls' := Wait(None, t, m0, ls);
      if !ok {
        ls' := Take(t, m0, ls', M.Dialed(t, false));
        return M.MeshError, ls';
      }
      var conn := next;
      alive, next := alive + {conn}, conn + 1;
      ls' := Take(t, m0, ls', M.Dialed(t, true));
      ok, ls' := Wait(Some(conn), t, m0, ls');
      if !ok {
        alive := alive - {conn};
        ls' := Take(t, m0, ls', M.First(t, false));
        return M.MeshError, ls';
      }
      qconn := Some(conn);
      ls' := Take(t, m0, ls', M.First(t, true));
      res := M.MeshStream(conn);
    }

    /** The mesh half of `openStream` up to the point where it has its result. */
    method Attempt(ghost t: Tid) returns (res: M.MeshResult, ghost ls: seq<M.Label>)
      requires Valid() && mesh.mu.None? && t !in mesh.ops
      modifies this
      ensures Valid() && Performs(t, old(mesh), ls, mesh)
      ensures mesh.mu.None? && mesh.ops == old(mesh).ops[t := M.Returned(res)]
      ensures old(mesh).watching <= mesh.watching <= old(mesh).watching + AsSet(qconn)
      ensures qconn == if res.MeshStream? then Some(res.conn) else None
      ensures LogOf(ls, t).opens <==> res.MeshStream?
      ensures old(qconn.Some? && qconn.value in alive && peers > 0) ==>
                && LogOf(ls, t).tried
                && (LogOf(ls, t).reused ==> res == M.MeshStream(old(qconn).value) && next == old(next))
    {
      ghost var m0 := mesh;
      ls := Take(t, m0, [], M.Call(t));
      var early;
      early, ls := Reuse(t, m0, ls);
      if early.Some? {
        return early.value, ls;
      }
      var up := MeshActive();
      ls := Take(t, m0, ls, M.AskPeers(t, up));
      if !up {
        return M.MeshError, ls;
      }
      res, ls := Dial(t, m0, ls);
    }

    /** The mesh half of `openStream`, under c.mu from end to end: a stream comes from the
        connection that is cached afterwards, and after an error nothing is cached. It is
        one run of the caller's own steps that ends with its return, from the state `last`
        with the same result; all other callers and watchers stand where they stood. */
    method OpenMeshStream(ghost t: Tid) returns (res: M.MeshResult, ghost ls: seq<M.Label>, ghost last: M.Mesh)
      requires Valid() && mesh.mu.None? && t !in mesh.ops
      modifies this
      ensures Valid() && Performs(t, old(mesh), ls, last) && M.Step(last, M.Return(t)) == Some(mesh)
      ensures t in last.ops && last.ops[t] == M.Returned(res)
      ensures mesh.mu.None? && mesh.ops == old(mesh).ops
      ensures old(mesh).watching <= mesh.watching <= old(mesh).watching + AsSet(qconn)
      ensures M.Inv(old(mesh)) ==> M.Inv(mesh)
      ensures qconn == if res.MeshStream? then Some(res.conn) else None
      ensures LogOf(ls, t).opens <==> res.MeshStream?
      ensures old(qconn.Some? && qconn.value in alive && peers > 0) ==>
                && LogOf(ls, t).tried
                && (LogOf(ls, t).reused ==> res == M.MeshStream(old(qconn).value) && next == old(next))
    {
      ghost var m0 := mesh;
      res, ls := Attempt(t);
      last := mesh;
      mesh := M.Step(mesh, M.Return(t)).value;
      assert mesh.ops == m0.ops;
      if M.Inv(m0) {
        PathKeepsInv(m0, ls, last);
        M.InvStep(last, M.Return(t));
      }
    }

    /** Nobody calls: peerings come and go, and the cached connection may die. */
    method Rest()
      requires Valid()
      modifies this`peers, this`alive, this`mesh
      ensures Valid() && mesh == old(mesh).(alive := mesh.alive) && alive <= old(alive)
      ensures M.Inv(old(mesh)) ==> M.Inv(mesh)
    {
      var dies: bool := *;
      var up :| 0 <= up;
      peers := up;
      if dies && qconn.Some? && qconn.value in alive {
        if M.Inv(mesh) {
          M.InvStep(mesh, M.Kill(qconn.value));
        }
        alive := alive - {qconn.value};
        mesh := M.Step(mesh, M.Kill(qconn.value)).value;
      }
    }

    /** `watchMeshConn` from the moment its connection is done. */
    method WatchMeshConn(conn: ConnId)
      requires Valid() && mesh.mu.None? && conn !in alive && conn in mesh.watching
      modifies this`qconn, this`mesh
      ensures Valid() && M.Step(old(mesh), M.WatchFire(conn)) == Some(mesh)
      ensures M.Inv(old(mesh)) ==> M.Inv(mesh)
      ensures qconn == if old(qconn) == Some(conn) then None else old(qconn)
    {
      if M.Inv(mesh) {
        M.InvStep(mesh, M.WatchFire(conn));
      }
      if qconn == Some(conn) {
        qconn := None;
      }
      mesh := M.Step(mesh, M.WatchFire(conn)).value;
    }
  }
}
