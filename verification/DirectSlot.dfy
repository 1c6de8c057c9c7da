/** The direct slot of `directClient` (`qconn`, `tr`, `failUntil` under `d.mu`) as
    a state machine whose steps are the critical sections of `openStream`,
    `watchConn`, `dropAndFail` and `Close`. Any number of goroutines may be inside
    `openStream`; the lock holder is explicit because `openStream` keeps `d.mu`
    while it waits for a stream or dials. */
module DirectSlot {
  import opened Types

  datatype OpResult = Stream(conn: ConnId) | Cooldown | Failed

  /** Where a goroutine stands inside `openStream`. */
  datatype OpPc =
    | Locking                   // about to take d.mu
    | Opening(conn: ConnId)     // holds d.mu, waits in OpenStreamSync on the slot's connection
    | Dialing                   // holds d.mu, about to create the UDP socket and its transport
    | Handshaking(tr: TrId)     // holds d.mu, waits in tr.Dial
    | MarkingFailed             // dial failed, about to run MarkFailed
    | ShowingFailed             // about to show the fallback state
    | Spawning(conn: ConnId)    // connected, about to start watchConn
    | FirstStream(conn: ConnId) // waits for a stream on the new connection, without d.mu
    | Returned(res: OpResult)

  /** Where the `watchConn` goroutine of one connection stands. */
  datatype WatchPc = Waiting | Clearing | Showing | Fired

  datatype Slot = Slot(
    now: nat,
    qconn: Option<ConnId>,
    tr: Option<TrId>,
    failUntil: int,
    alive: set<ConnId>,         // connections whose context is not done
    open: set<TrId>,            // transports that are not closed
    nextConn: ConnId,
    nextTr: TrId,
    mu: Option<Who>,            // holder of d.mu
    ops: map<Who, OpPc>,        // calls of openStream in progress
    watchers: map<ConnId, WatchPc>)

  datatype Label =
    | Tick(dt: nat)
    | Kill(conn: ConnId)        // the peer, the network or a QUIC timeout ends a connection
    | Call(who: Who)
    | Acquire(who: Who)
    | Opened(who: Who, ok: bool)
    | Socket(who: Who, ok: bool)
    | Handshake(who: Who, ok: bool)
    | Advance(who: Who)
    | First(who: Who, ok: bool)
    | Return(who: Who)
    | WatchFire(conn: ConnId)
    | WatchNext(conn: ConnId)
    | DropAndFail
    | Close

  // ---------------------------------------------------------------- steps

  predicate ConnAlive(d: Slot) {
    d.qconn.Some? && d.qconn.value in d.alive
  }

  function DropConn(d: Slot): Slot {
    d.(alive := d.alive - AsSet(d.qconn), open := d.open - AsSet(d.tr), qconn := None, tr := None)
  }

  function CoolDown(d: Slot): Slot {
    d.(failUntil := d.now + DIRECT_FAIL_COOLDOWN)
  }

  /** Gives up d.mu and leaves the goroutine at `pc`. */
  function Unlock(d: Slot, who: Who, pc: OpPc): Slot {
    d.(mu := None, ops := d.ops[who := pc])
  }

  /** Keeps (or takes) d.mu and moves on to `pc`. */
  function Hold(d: Slot, who: Who, pc: OpPc): Slot {
    d.(mu := Some(who), ops := d.ops[who := pc])
  }

  function DialFailed(d: Slot, who: Who): Slot {
    Unlock(CoolDown(d), who, MarkingFailed)
  }

  function StepAcquire(d: Slot, who: Who): Slot {
    if d.now < d.failUntil then Unlock(d, who, Returned(Cooldown))
    else if ConnAlive(d) then Hold(d, who, Opening(d.qconn.value))
    else Hold(DropConn(d), who, Dialing)
  }

  function StepOpened(d: Slot, who: Who, conn: ConnId, ok: bool): Slot {
    if ok then Unlock(d, who, Returned(Stream(conn)))
    else if ConnAlive(d) then Unlock(d, who, Returned(Failed))
    else Hold(DropConn(d), who, Dialing)
  }

  function StepSocket(d: Slot, who: Who, ok: bool): Slot {
    if ok then Hold(d.(open := d.open + {d.nextTr}, nextTr := d.nextTr + 1), who, Handshaking(d.nextTr))
    else DialFailed(d, who)
  }

  function StepHandshake(d: Slot, who: Who, tr: TrId, ok: bool): Slot {
    if ok then
      Unlock(d.(qconn := Some(d.nextConn), tr := Some(tr), alive := d.alive + {d.nextConn}, nextConn := d.nextConn + 1),
             who, Spawning(d.nextConn))
    else DialFailed(d.(open := d.open - {tr}), who)
  }

  function StepAdvance(d: Slot, who: Who, pc: OpPc): Option<Slot> {
    match pc
    case MarkingFailed => Some(d.(ops := d.ops[who := ShowingFailed]))
    case ShowingFailed => Some(d.(ops := d.ops[who := Returned(Failed)]))
    case Spawning(c) => Some(d.(watchers := d.watchers[c := Waiting], ops := d.ops[who := FirstStream(c)]))
    case _ => None
  }

  function StepWatchFire(d: Slot, conn: ConnId): Slot {
    if d.qconn == Some(conn) then CoolDown(DropConn(d)).(watchers := d.watchers[conn := Clearing])
    else d.(watchers := d.watchers[conn := Fired])
  }

  function Step(d: Slot, l: Label): Option<Slot> {
    match l
    case Tick(dt) => Some(d.(now := d.now + dt))
    case Kill(c) => if c in d.alive then Some(d.(alive := d.alive - {c})) else None
    case Call(w) => if w !in d.ops then Some(d.(ops := d.ops[w := Locking])) else None
    case Acquire(w) =>
      if w in d.ops && d.ops[w] == Locking && d.mu == None then Some(StepAcquire(d, w)) else None
    case Opened(w, ok) =>
      if w in d.ops && d.ops[w].Opening? then Some(StepOpened(d, w, d.ops[w].conn, ok)) else None
    case Socket(w, ok) =>
      if w in d.ops && d.ops[w] == Dialing then Some(StepSocket(d, w, ok)) else None
    case Handshake(w, ok) =>
      if w in d.ops && d.ops[w].Handshaking? then Some(StepHandshake(d, w, d.ops[w].tr, ok)) else None
    case Advance(w) =>
      if w in d.ops then StepAdvance(d, w, d.ops[w]) else None
    case First(w, ok) =>
      if w in d.ops && d.ops[w].FirstStream? then
        Some(d.(ops := d.ops[w := Returned(if ok then Stream(d.ops[w].conn) else Failed)]))
      else None
    case Return(w) =>
      if w in d.ops && d.ops[w].Returned? then Some(d.(ops := d.ops - {w})) else None
    case WatchFire(c) =>
      if c in d.watchers && d.watchers[c] == Waiting && c !in d.alive && d.mu == None then Some(StepWatchFire(d, c))
      else None
    case WatchNext(c) =>
      if c in d.watchers && d.watchers[c] == Clearing then Some(d.(watchers := d.watchers[c := Showing]))
      else if c in d.watchers && d.watchers[c] == Showing then Some(d.(watchers := d.watchers[c := Fired]))
      else None
    case DropAndFail => if d.mu == None then Some(CoolDown(DropConn(d))) else None
    case Close => if d.mu == None then Some(DropConn(d)) else None
  }

  predicate Init(d: Slot) {
    d == Slot(d.now, None, None, 0, {}, {}, 0, 0, None, map[], map[])
  }

  // ----------------------------------------------------------- invariants

  predicate HoldsMu(pc: OpPc) {
    pc.Opening? || pc.Dialing? || pc.Handshaking?
  }

  ghost predicate LockInv(d: Slot) {
    forall w :: (w in d.ops && HoldsMu(d.ops[w])) <==> d.mu == Some(w)
  }

  /** The transport of a dial in progress. */
  function InFlight(d: Slot): set<TrId> {
    if d.mu.Some? && d.mu.value in d.ops && d.ops[d.mu.value].Handshaking? then {d.ops[d.mu.value].tr} else {}
  }

  /** Single ownership. A connection and its transport enter and leave the slot
      together; nothing but the slot's connection lives, and no transport is open
      but the slot's own or the one a dial under the lock is using. */
  ghost predicate Ownership(d: Slot) {
    && (d.qconn.None? <==> d.tr.None?)
    && d.alive <= AsSet(d.qconn)
    && d.open == AsSet(d.tr) + InFlight(d)
    && (d.mu.Some? && d.mu.value in d.ops && !d.ops[d.mu.value].Opening? ==> d.qconn.None?)
    && (d.mu.Some? && d.mu.value in d.ops && d.ops[d.mu.value].Opening? ==> d.qconn == Some(d.ops[d.mu.value].conn))
  }

  ghost predicate IdsInv(d: Slot) {
    && (d.qconn.Some? ==> d.qconn.value < d.nextConn)
    && (forall t :: t in d.open ==> t < d.nextTr)
  }

  ghost predicate CooldownInv(d: Slot) {
    && d.failUntil <= d.now + DIRECT_FAIL_COOLDOWN
    && (d.mu.Some? ==> d.failUntil <= d.now)
  }

  predicate IsSpawning(d: Slot, w: Who, c: ConnId) {
    w in d.ops && d.ops[w] == Spawning(c)
  }

  /** A watcher past its wait belongs to a dead connection that is no longer in
      the slot. */
  ghost predicate FiredInv(d: Slot) {
    forall c :: c in d.watchers ==>
      c < d.nextConn && (d.watchers[c] != Waiting ==> d.qconn != Some(c) && c !in d.alive)
  }

  /** Every connection ever dialled has exactly one watcher: started, or about to
      be started by exactly one caller. */
  ghost predicate WatchInv(d: Slot) {
    && (forall w, c: ConnId :: IsSpawning(d, w, c) ==> c < d.nextConn && c !in d.watchers)
    && (forall w, w', c: ConnId :: IsSpawning(d, w, c) && IsSpawning(d, w', c) ==> w == w')
    && (forall c: ConnId :: c < d.nextConn && c !in d.watchers ==> exists w :: IsSpawning(d, w, c))
  }

  ghost predicate Inv(d: Slot) {
    LockInv(d) && Ownership(d) && IdsInv(d) && CooldownInv(d) && FiredInv(d) && WatchInv(d)
  }

  lemma InitInv(d: Slot)
    requires Init(d)
    ensures Inv(d)
  {
  }

  lemma LockStep(d: Slot, l: Label)
    requires LockInv(d) && Step(d, l).Some?
    ensures LockInv(Step(d, l).value)
  {
  }

  predicate ByCaller(l: Label) {
    l.Acquire? || l.Opened? || l.Socket? || l.Handshake?
  }

  lemma OwnershipOfCaller(d: Slot, l: Label)
    requires LockInv(d) && Ownership(d) && IdsInv(d) && ByCaller(l) && Step(d, l).Some?
    ensures Ownership(Step(d, l).value) && IdsInv(Step(d, l).value)
  {
  }

  lemma OwnershipStep(d: Slot, l: Label)
    requires LockInv(d) && Ownership(d) && IdsInv(d) && Step(d, l).Some?
    ensures Ownership(Step(d, l).value) && IdsInv(Step(d, l).value)
  {
    if ByCaller(l) {
      OwnershipOfCaller(d, l);
    }
  }

  lemma CooldownStep(d: Slot, l: Label)
    requires LockInv(d) && CooldownInv(d) && Step(d, l).Some?
    ensures CooldownInv(Step(d, l).value)
  {
  }

  lemma FiredStep(d: Slot, l: Label)
    requires Ownership(d) && IdsInv(d) && FiredInv(d) && WatchInv(d) && Step(d, l).Some?
    ensures FiredInv(Step(d, l).value)
  {
    assert l.Advance? && d.ops[l.who].Spawning? ==> IsSpawning(d, l.who, d.ops[l.who].conn);
  }

  /** A caller that is about to start a watcher either was so before the step or
      has just finished dialling. */
  lemma SpawningFrom(d: Slot, l: Label, w: Who, c: ConnId)
    requires Step(d, l).Some? && IsSpawning(Step(d, l).value, w, c)
    ensures IsSpawning(d, w, c) || (l.Handshake? && w == l.who && c == d.nextConn)
  {
  }

  lemma WatchStep(d: Slot, l: Label)
    requires FiredInv(d) && WatchInv(d) && Step(d, l).Some?
    ensures WatchInv(Step(d, l).value)
  {
    var e := Step(d, l).value;
    forall w, c: ConnId | IsSpawning(e, w, c)
      ensures c < e.nextConn && c !in e.watchers
      ensures forall w' :: IsSpawning(e, w', c) ==> w == w'
    {
      SpawningFrom(d, l, w, c);
      assert l.Advance? && d.ops[l.who].Spawning? ==> IsSpawning(d, l.who, d.ops[l.who].conn);
      forall w' | IsSpawning(e, w', c) ensures w == w' {
        SpawningFrom(d, l, w', c);
      }
    }
    forall c: ConnId | c < e.nextConn && c !in e.watchers
      ensures exists w :: IsSpawning(e, w, c)
    {
      if c < d.nextConn {
        var w :| IsSpawning(d, w, c);
        assert IsSpawning(e, w, c);
      } else {
        assert IsSpawning(e, l.who, c);
      }
    }
  }

  lemma InvStep(d: Slot, l: Label)
    requires Inv(d) && Step(d, l).Some?
    ensures Inv(Step(d, l).value)
  {
    LockStep(d, l);
    OwnershipStep(d, l);
    CooldownStep(d, l);
    FiredStep(d, l);
    WatchStep(d, l);
  }
}
