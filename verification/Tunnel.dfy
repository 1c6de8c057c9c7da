/** `client.openStream` as the program writes it, over the two objects it uses, and the
    accept loop that calls it for every user connection. */
module Tunnel {
  import opened Types
  import D = DirectSlot
  import M = MeshSlot
  import opened DirectClients
  import opened MeshClients
  import opened Paths

  class TunnelClient {
    const direct: DirectClient
    const mesh: Client

    constructor (direct: DirectClient, mesh: Client)
      ensures this.direct == direct && this.mesh == mesh
    {
      this.direct, this.mesh := direct, mesh;
    }

    /** Both slots are sound and free. */
    ghost predicate Sound()
      reads this, direct, direct.quic, mesh
    {
      && direct.Valid() && D.Inv(direct.slot) && direct.slot.mu.None?
      && mesh.Valid() && M.Inv(mesh.mesh) && mesh.mesh.mu.None?
    }

    /** Handler t is not inside a call. */
    ghost predicate Ready(t: Tid)
      reads this, direct, direct.quic, mesh
    {
      Sound() && Handler(t) !in direct.slot.ops && t !in mesh.mesh.ops
    }

    /** One call of the direct half by handler t: the steps `ds` lead from slot d to `last`,
        where the call has its result, and its return leads on to e. */
    ghost predicate DirectCall(t: Tid, d: D.Slot, ds: seq<D.Label>, last: D.Slot, e: D.Slot) {
      && DirectClients.Performs(Handler(t), d, ds, last) && D.Step(last, D.Return(Handler(t))) == Some(e)
      && Handler(t) in last.ops && last.ops[Handler(t)].Returned?
    }

    ghost function DirectResult(t: Tid, last: D.Slot): D.OpResult
      requires Handler(t) in last.ops && last.ops[Handler(t)].Returned?
    {
      last.ops[Handler(t)].res
    }

    /** The direct attempt of a verified path. If the direct half opened a stream, that is the
        one; otherwise an error on a living connection leaves the cache alone, and without
        one the cache is cleared and the fallback state shown. */
    method TryDirect(ghost t: Tid) returns (conn: Option<ConnId>, ghost ds: seq<D.Label>, ghost last: D.Slot)
      requires Ready(t)
      modifies direct, direct.quic
      ensures Sound() && direct.slot.ops == old(direct.slot).ops
      ensures direct.slot.watchers == Watched(old(direct.slot), direct.slot)
      ensures mesh.mesh == old(mesh.mesh)
      ensures DirectCall(t, old(direct.slot), ds, last, direct.slot)
      ensures conn == if DirectResult(t, last).Stream? then Some(DirectResult(t, last).conn) else None
      ensures conn.Some? <==> DirectClients.LogOf(ds, Handler(t)).opens
      ensures conn.Some? ==> direct.qconn == conn && direct.verifiedUntil == old(direct.verifiedUntil)
      ensures conn.None? ==>
                || (direct.verifiedUntil == 0 && direct.shown == MeshFallback)
                || (D.ConnAlive(direct.slot) && direct.verifiedUntil == old(direct.verifiedUntil)
                    && direct.shown == old(direct.shown))
      ensures conn.None? && !D.ConnAlive(direct.slot) ==> direct.verifiedUntil == 0 && direct.shown == MeshFallback
    {
      var res;
      res, ds, last := direct.OpenStream(Handler(t));
      if res.Stream? {
        return Some(res.conn), ds, last;
      }
      conn := None;
      var alive := direct.ConnAlive();
      if !alive {
        direct.MarkFailed();
        direct.shown := MeshFallback;
      }
    }

    /** One call of the mesh half by handler t, likewise. */
    ghost predicate MeshCall(t: Tid, m: M.Mesh, ms: seq<M.Label>, last: M.Mesh, n: M.Mesh) {
      && MeshClients.Performs(t, m, ms, last) && M.Step(last, M.Return(t)) == Some(n)
      && t in last.ops && last.ops[t].Returned?
    }

    /** Direct exactly while verified, and the mesh otherwise or after a direct failure. A
        verified path is tried, by the call `ds`, `dlast` of the direct half, and its stream,
        if it opened one, is the outcome; a path that is not verified is not touched.
        Otherwise the outcome is that of the call `ms`, `mlast` of the mesh half. Afterwards
        whoever could call before can call again, the same handler included. */
    method OpenStream(ghost t: Tid)
      returns (out: Outcome, ghost ds: seq<D.Label>, ghost dlast: D.Slot, ghost ms: seq<M.Label>, ghost mlast: M.Mesh)
      requires Ready(t)
      modifies direct, direct.quic, mesh
      ensures forall u: Tid :: old(Ready(u)) ==> Ready(u)
      ensures direct.slot.ops == old(direct.slot).ops && mesh.mesh.ops == old(mesh.mesh).ops
      ensures direct.slot.watchers == Watched(old(direct.slot), direct.slot)
      ensures if old(direct.quic.now < direct.verifiedUntil) then
                && DirectCall(t, old(direct.slot), ds, dlast, direct.slot)
                && (out.ViaDirect? <==> DirectResult(t, dlast).Stream?)
                && (out.ViaDirect? ==> DirectResult(t, dlast) == D.Stream(out.conn))
              else !out.ViaDirect? && direct.slot == old(direct.slot)
      ensures direct.verifiedUntil == old(direct.verifiedUntil) || direct.verifiedUntil == 0
      ensures old(direct.quic.now >= direct.verifiedUntil) ==> direct.verifiedUntil == old(direct.verifiedUntil)
      ensures out.ViaDirect? ==> direct.qconn == Some(out.conn) && mesh.mesh == old(mesh.mesh)
      ensures !out.ViaDirect? ==>
                && MeshCall(t, old(mesh.mesh), ms, mlast, mesh.mesh)
                && mlast.ops[t].res == (if out.ViaMesh? then M.MeshStream(out.conn) else M.MeshError)
                && mesh.qconn == if out.ViaMesh? then Some(out.conn) else None
      ensures !out.ViaDirect? && !D.ConnAlive(direct.slot) && old(direct.quic.now < direct.verifiedUntil) ==>
                direct.verifiedUntil == 0 && direct.shown == MeshFallback
    {
      ds, dlast, ms, mlast := [], direct.slot, [], mesh.mesh;
      var verified := direct.IsVerified();
      if verified {
        var conn;
        conn, ds, dlast := TryDirect(t);
        if conn.Some? {
          return ViaDirect(conn.value), ds, dlast, [], mesh.mesh;
        }
      }
      var res;
      res, ms, mlast := mesh.OpenMeshStream(t);
      out := if res.MeshStream? then ViaMesh(res.conn) else NoStream;
    }

    /** No goroutine is inside a call of `openStream`. */
    ghost predicate Calm()
      reads this, direct, direct.quic, mesh
    {
      Sound() && direct.slot.ops == map[] && mesh.mesh.ops == map[]
    }

    /** Nobody calls: time passes, and connections and peerings may come to an end. */
    method Rest() returns (ghost ls: seq<D.Label>)
      requires Calm()
      modifies direct.quic`now, direct.quic`alive, direct`slot, mesh`peers, mesh`alive, mesh`mesh
      ensures Calm() && old(direct.quic.now) <= direct.quic.now
      ensures Path(D.Step, old(direct.slot), ls, direct.slot) && NoCalls(ls)
    {
      ls := direct.Rest();
      mesh.Rest();
    }

    /** The watchers of dead connections run: afterwards nothing dead is cached, and if the
        direct connection was dead, user traffic goes to the mesh. */
    method RunWatchers() returns (ghost ls: seq<D.Label>)
      requires Calm()
      modifies direct, direct.quic`alive, direct.quic`open, mesh`qconn, mesh`mesh
      ensures Calm()
      ensures direct.qconn.Some? ==> direct.qconn == old(direct.qconn) && direct.qconn.value in direct.quic.alive
      ensures mesh.qconn.Some? ==> mesh.qconn == old(mesh.qconn) && mesh.qconn.value in mesh.alive
      ensures if old(direct.qconn.Some? && direct.qconn.value !in direct.quic.alive)
              then direct.verifiedUntil == 0 && direct.shown == MeshFallback
                   && direct.failUntil == direct.quic.now + DIRECT_FAIL_COOLDOWN
              else direct.verifiedUntil == old(direct.verifiedUntil) && direct.slot == old(direct.slot)
      ensures Path(D.Step, old(direct.slot), ls, direct.slot) && NoCalls(ls)
    {
      ls := [];
      if direct.qconn.Some? && direct.qconn.value !in direct.quic.alive {
        CalmSlotIsWatched(direct.slot, direct.qconn.value);
        ls := direct.WatchConn(direct.qconn.value);
      }
      if mesh.qconn.Some? && mesh.qconn.value !in mesh.alive {
        mesh.WatchMeshConn(mesh.qconn.value);
      }
    }

    /** Between two user connections the environment and the watchers run. */
    method Between() returns (ghost ls: seq<D.Label>)
      requires Calm()
      modifies direct, direct.quic, mesh
      ensures Calm() && old(direct.quic.now) <= direct.quic.now
      ensures direct.verifiedUntil == old(direct.verifiedUntil) || direct.verifiedUntil == 0
      ensures Path(D.Step, old(direct.slot), ls, direct.slot) && NoCalls(ls)
    {
      ghost var before := direct.slot;
      ls := Rest();
      ghost var between := direct.slot;
      ghost var watch := RunWatchers();
      PathOn(D.Step, before, ls, between, watch, direct.slot);
      ls := ls + watch;
    }

    /** `acceptLoop` and `handle` for `n` user connections in turn, the environment and the
        watchers running before each. Without the prober a path that is not verified stays
        so: all streams go over the mesh, and the direct half is not called at all. All that
        happens to the direct slot are the steps `ls` of the environment and the watchers. */
    method AcceptLoop(n: nat) returns (outs: seq<Outcome>, ghost ls: seq<D.Label>)
      requires Calm()
      modifies direct, direct.quic, mesh
      ensures |outs| == n && Calm()
      ensures old(direct.quic.now >= direct.verifiedUntil) ==>
                && direct.quic.now >= direct.verifiedUntil
                && (forall i :: 0 <= i < n ==> !outs[i].ViaDirect?)
                && Path(D.Step, old(direct.slot), ls, direct.slot) && NoCalls(ls)
    {
      outs, ls := [], [];
      for t := 0 to n
        invariant |outs| == t && Calm()
        invariant old(direct.quic.now >= direct.verifiedUntil) ==>
                    && direct.quic.now >= direct.verifiedUntil
                    && (forall i :: 0 <= i < t ==> !outs[i].ViaDirect?)
                    && Path(D.Step, old(direct.slot), ls, direct.slot) && NoCalls(ls)
      {
        ghost var before := direct.slot;
        ghost var ms := Between();
        if old(direct.quic.now >= direct.verifiedUntil) {
          PathOn(D.Step, old(direct.slot), ls, before, ms, direct.slot);
          ls := ls + ms;
        }
        assert Ready(t);
        var out, _, _, _, _ := OpenStream(t);
        outs := outs + [out];
      }
    }
  }
}
