/** The mesh half of `client.openStream`: the cached mesh connection under `c.mu`,
    which a caller keeps for its whole attempt, and one `watchMeshConn` goroutine
    per cached connection. */
module MeshSlot {
  import opened Types

  datatype MeshResult = MeshStream(conn: ConnId) | MeshError

  datatype MeshPc =
    | Locking                   // about to take c.mu
    | Opening(conn: ConnId)     // holds c.mu, waits for a stream on the cached connection
    | Gate                      // holds c.mu, nothing cached, about to ask for a peering
    | Dialing                   // holds c.mu, waits in tr.Dial
    | FirstStream(conn: ConnId) // holds c.mu, waits for a stream on the new, uncached connection
    | Returned(res: MeshResult)

  datatype Mesh = Mesh(
    qconn: Option<ConnId>,
    alive: set<ConnId>,
    next: ConnId,
    mu: Option<Tid>,
    ops: map<Tid, MeshPc>,
    watching: set<ConnId>)      // connections whose watcher has not fired

  datatype Label =
    | Kill(conn: ConnId)
    | Call(tid: Tid)
    | Acquire(tid: Tid, up: bool)    // `up` is what meshActive answered
    | Opened(tid: Tid, ok: bool)
    | AskPeers(tid: Tid, up: bool)
    | Dialed(tid: Tid, ok: bool)
    | First(tid: Tid, ok: bool)
    | Return(tid: Tid)
    | WatchFire(conn: ConnId)

  function Forget(m: Mesh): Mesh {
    m.(alive := m.alive - AsSet(m.qconn), qconn := None)
  }

  function Hold(m: Mesh, t: Tid, pc: MeshPc): Mesh {
    m.(mu := Some(t), ops := m.ops[t := pc])
  }

  function Unlock(m: Mesh, t: Tid, res: MeshResult): Mesh {
    m.(mu := None, ops := m.ops[t := Returned(res)])
  }

  /** With nothing peered the cached connection is a black hole, and a dead one is
      useless: both are forgotten before anything is tried. */
  function StepAcquire(m: Mesh, t: Tid, up: bool): Mesh {
    if m.qconn.Some? && up && m.qconn.value in m.alive then Hold(m, t, Opening(m.qconn.value))
    else Hold(Forget(m), t, Gate)
  }

  function StepFirst(m: Mesh, t: Tid, c: ConnId, ok: bool): Mesh {
    if ok then Unlock(m.(qconn := Some(c), watching := m.watching + {c}), t, MeshStream(c))
    else Unlock(m.(alive := m.alive - {c}), t, MeshError)
  }

  function Step(m: Mesh, l: Label): Option<Mesh> {
    match l
    case Kill(c) => if c in m.alive then Some(m.(alive := m.alive - {c})) else None
    case Call(t) => if t !in m.ops then Some(m.(ops := m.ops[t := Locking])) else None
    case Acquire(t, up) =>
      if t in m.ops && m.ops[t] == Locking && m.mu == None then Some(StepAcquire(m, t, up)) else None
    case Opened(t, ok) =>
      if t in m.ops && m.ops[t].Opening? then
        Some(if ok then Unlock(m, t, MeshStream(m.ops[t].conn)) else Hold(Forget(m), t, Gate))
      else None
    case AskPeers(t, up) =>
      if t in m.ops && m.ops[t] == Gate then
        Some(if up then Hold(m, t, Dialing) else Unlock(m, t, MeshError))
      else None
    case Dialed(t, ok) =>
      if t in m.ops && m.ops[t] == Dialing then
        Some(if ok then Hold(m.(alive := m.alive + {m.next}, next := m.next + 1), t, FirstStream(m.next))
             else Unlock(m, t, MeshError))
      else None
    case First(t, ok) =>
      if t in m.ops && m.ops[t].FirstStream? then Some(StepFirst(m, t, m.ops[t].conn, ok)) else None
    case Return(t) =>
      if t in m.ops && m.ops[t].Returned? then Some(m.(ops := m.ops - {t})) else None
    case WatchFire(c) =>
      if c in m.watching && c !in m.alive && m.mu == None then
        Some(m.(watching := m.watching - {c}, qconn := if m.qconn == Some(c) then None else m.qconn))
      else None
  }

  predicate Init(m: Mesh) {
    m == Mesh(None, {}, 0, None, map[], {})
  }

  // ----------------------------------------------------------- invariants

  predicate HoldsMu(pc: MeshPc) {
    pc.Opening? || pc.Gate? || pc.Dialing? || pc.FirstStream?
  }

  ghost predicate LockInv(m: Mesh) {
    forall t: Tid :: (t in m.ops && HoldsMu(m.ops[t])) <==> m.mu == Some(t)
  }

  /** A connection that is dialled but not cached yet. */
  function InFlight(m: Mesh): set<ConnId> {
    if m.mu.Some? && m.mu.value in m.ops && m.ops[m.mu.value].FirstStream? then {m.ops[m.mu.value].conn} else {}
  }

  /** Nothing but the cached connection lives, except one that a caller has just
      dialled under the lock; while a caller dials nothing is cached. A cached
      connection has an unfired watcher. */
  ghost predicate Ownership(m: Mesh) {
    && m.alive <= AsSet(m.qconn) + InFlight(m)
    && AsSet(m.qconn) <= m.watching
    && (m.mu.Some? && m.mu.value in m.ops && m.ops[m.mu.value].Opening? ==> m.qconn == Some(m.ops[m.mu.value].conn))
    && (m.mu.Some? && m.mu.value in m.ops && !m.ops[m.mu.value].Opening? ==> m.qconn == None)
    && (forall c :: c in m.watching ==> c < m.next)
    && (forall c :: c in InFlight(m) ==> c < m.next && c !in m.watching)
  }

  ghost predicate Inv(m: Mesh) {
    LockInv(m) && Ownership(m)
  }

  lemma InvStep(m: Mesh, l: Label)
    requires Inv(m) && Step(m, l).Some?
    ensures Inv(Step(m, l).value)
  {
  }
}
