/** Direct/mesh channel selection as one concurrent system: the background prober,
    any number of user handlers inside `client.openStream`, a watcher per connection
    and `Close`, over the direct slot, the mesh slot, the Alt-Svc cache
    (`verifiedUntil`) and the displayed state (`probeState`). A step is one critical
    section or one decision between two of them; the scheduler and the environment
    choose the next step freely. */
module Channel {
  import opened Types
  import D = DirectSlot
  import M = MeshSlot
  import Rtt

  /** Why the prober calls `dropAndFail`: a streak of failures on a living
      connection, a connection that is gone, or a degraded round trip. */
  datatype DropKind = Streak | Gone | SlowRtt

  /** Where the prober's loop stands. */
  datatype ProbePc =
    | Select                                        // blocked in select
    | MeshGate                                      // about to call meshActive
    | IdleGate                                      // about to compare the idle time
    | IdleCheck                                     // idle: about to read IsVerified
    | IdleMark                                      // idle: about to run MarkFailed
    | IdleShow                                      // idle: about to show "probing"
    | ReadVerified                                  // about to read wasVerified
    | SyncVerified                                  // unverified: PathState reads IsVerified
    | SyncState                                     // unverified: PathState reads probeState
    | SyncShow                                      // unverified: about to show "probing"
    | Begin(was: bool)                              // about to note the start time and open a stream
    | InOpen(was: bool, start: int)                 // inside directClient.openStream
    | RoundTrip(was: bool, start: int, conn: ConnId)  // waits for the echo
    | AfterFailure                                  // about to call connAlive
    | Dropping(kind: DropKind)                      // dropAndFail: about to take d.mu
    | DropMark(kind: DropKind)                      // dropAndFail: about to run MarkFailed
    | DropShow(kind: DropKind)                      // dropAndFail: about to show the fallback state
    | Judging(was: bool, elapsed: int)              // about to call probeHealthy
    | Verifying                                     // about to run MarkVerified
    | ShowVerified                                  // about to show h2+h3
    | Stopped

  datatype ProbeLoop = ProbeLoop(pc: ProbePc, timerOn: bool, fastOn: bool, slowOn: bool, failStreak: nat)

  datatype WakeUp = Timer | Fast | Slow | Stop

  /** How a probe round trip ends: the write fails, the read fails or times out, or
      two bytes come back. */
  datatype EchoOutcome = WriteError | ReadError | Echoed(bytes: seq<Byte>)

  /** Where a user handler stands inside `client.openStream`. */
  datatype HandlerPc =
    | Check             // about to read IsVerified
    | InDirect          // inside directClient.openStream
    | CheckAlive        // direct attempt failed, about to call connAlive
    | MarkingFailed
    | ShowingFallback
    | InMesh            // inside the mesh half
    | Done(out: Outcome)

  datatype State = State(
    d: D.Slot,
    m: M.Mesh,
    verifiedUntil: int,
    probeState: PathState,
    probeRTT: int,
    peers: nat,
    lastActive: int,
    retryPeriod: int,
    stopped: bool,
    prober: ProbeLoop,
    handlers: map<Tid, HandlerPc>)

  datatype Label =
    | Tick(dt: nat)
    | KillDirect(conn: ConnId)
    | KillMesh(conn: ConnId)
    | SetPeers(n: nat)
    | Close
    | Op(op: D.Label)           // a step inside directClient.openStream
    | Watch(conn: ConnId)       // a step of watchConn
    | Wake(src: WakeUp)         // the prober's select fires
    | Echo(echo: EchoOutcome)   // the prober's round trip ends
    | Probe                     // any other step of the prober
    | Start(tid: Tid)           // a user connection is accepted
    | Handle(tid: Tid)          // a step of a handler outside the two slots
    | MeshOp(mop: M.Label)      // a step inside the mesh half
    | MeshWatch(conn: ConnId)   // a step of watchMeshConn

  // ----------------------------------------------------------- Alt-Svc cache

  predicate IsVerified(s: State) {
    s.d.now < s.verifiedUntil
  }

  /** `PathState`: the cache decides first, then the displayed state. */
  function Shown(s: State): PathState {
    if IsVerified(s) then H2H3 else s.probeState
  }

  function VerifyTTL(s: State): int {
    if s.retryPeriod > 0 then 2 * s.retryPeriod else 2 * DIRECT_FALLBACK_COOLDOWN
  }

  function MarkVerified(s: State): State {
    s.(verifiedUntil := s.d.now + VerifyTTL(s))
  }

  function MarkFailed(s: State): State {
    s.(verifiedUntil := 0)
  }

  function Show(s: State, p: PathState): State {
    s.(probeState := p)
  }

  // ------------------------------------------------------------------- steps

  function WithD(s: State, d: Option<D.Slot>): Option<State> {
    if d.Some? then Some(s.(d := d.value)) else None
  }

  function WithM(s: State, m: Option<M.Mesh>): Option<State> {
    if m.Some? then Some(s.(m := m.value)) else None
  }

  function Goto(s: State, pc: ProbePc): State {
    s.(prober := s.prober.(pc := pc))
  }

  function FastCadence(s: State): State {
    s.(prober := s.prober.(fastOn := true, slowOn := false))
  }

  function SlowCadence(s: State): State {
    s.(prober := s.prober.(timerOn := false, fastOn := false, slowOn := true))
  }

  function SetStreak(s: State, n: nat): State {
    s.(prober := s.prober.(failStreak := n))
  }

  function HandlerAt(s: State, t: Tid, pc: HandlerPc): State {
    s.(handlers := s.handlers[t := pc])
  }

  predicate InsideOpenStream(l: D.Label) {
    l.Acquire? || l.Opened? || l.Socket? || l.Handshake? || l.Advance? || l.First?
  }

  predicate InsideMeshHalf(l: M.Label) {
    l.Acquire? || l.Opened? || l.AskPeers? || l.Dialed? || l.First?
  }

  /** A failed dial clears the cache and shows the fallback state, one step each. */
  function StepOp(s: State, l: D.Label): Option<State> {
    if !InsideOpenStream(l) then None
    else if l.Advance? && l.who in s.d.ops && s.d.ops[l.who].MarkingFailed? then WithD(MarkFailed(s), D.Step(s.d, l))
    else if l.Advance? && l.who in s.d.ops && s.d.ops[l.who].ShowingFailed? then
      WithD(Show(s, MeshFallback), D.Step(s.d, l))
    else WithD(s, D.Step(s.d, l))
  }

  function StepWatch(s: State, c: ConnId): Option<State> {
    if c !in s.d.watchers then None
    else match s.d.watchers[c]
      case Waiting => WithD(s, D.Step(s.d, D.WatchFire(c)))
      case Clearing => WithD(MarkFailed(s), D.Step(s.d, D.WatchNext(c)))
      case Showing => WithD(Show(s, MeshFallback), D.Step(s.d, D.WatchNext(c)))
      case Fired => None
  }

  function StepWake(s: State, src: WakeUp): Option<State> {
    if s.prober.pc != Select then None
    else match src
      case Timer => if s.prober.timerOn then Some(Goto(s.(prober := s.prober.(timerOn := false)), MeshGate)) else None
      case Fast => if s.prober.fastOn then Some(Goto(s, MeshGate)) else None
      case Slow => if s.prober.slowOn then Some(Goto(s, MeshGate)) else None
      case Stop => if s.stopped then Some(Goto(s, Stopped)) else None
  }

  function StepEcho(s: State, e: EchoOutcome): Option<State> {
    match s.prober.pc
    case RoundTrip(was, start, conn) =>
      if e.Echoed? && |e.bytes| != |PROBE_PING| then None
      else if e.Echoed? && e.bytes == PROBE_PING then Some(Goto(SetStreak(s, 0), Judging(was, s.d.now - start)))
      else Some(Goto(s, AfterFailure))
    case _ => None
  }

  /** The gates that precede a probe. */
  function StepGates(s: State): Option<State> {
    match s.prober.pc
    case MeshGate => Some(Goto(s, if s.peers > 0 then IdleGate else Select))
    case IdleGate => Some(Goto(s, if s.d.now - s.lastActive > PROBE_IDLE_LIMIT then IdleCheck else ReadVerified))
    case IdleCheck => Some(Goto(s, if IsVerified(s) then IdleMark else Select))
    case IdleMark => Some(Goto(MarkFailed(s), IdleShow))
    case IdleShow => Some(Goto(FastCadence(Show(s, MeshProbing)), Select))
    case _ => None
  }

  /** From reading wasVerified to the call of `openStream`, with the stale-display
      sync of an unverified iteration. */
  function StepSync(s: State): Option<State> {
    match s.prober.pc
    case ReadVerified => Some(Goto(s, if IsVerified(s) then Begin(true) else SyncVerified))
    case SyncVerified => Some(Goto(s, if IsVerified(s) then SyncShow else SyncState))
    case SyncState => Some(Goto(s, if s.probeState == H2H3 then SyncShow else Begin(false)))
    case SyncShow => Some(Goto(Show(s, MeshProbing), Begin(false)))
    case Begin(was) => WithD(Goto(s, InOpen(was, s.d.now)), D.Step(s.d, D.Call(Prober)))
    case _ => None
  }

  /** What the prober does with the stream or the error it got. */
  function StepOpenResult(s: State, was: bool, start: int): Option<State> {
    if Prober in s.d.ops && s.d.ops[Prober].Returned? then
      var pc := match s.d.ops[Prober].res
                case Cooldown => Select
                case Failed => AfterFailure
                case Stream(c) => RoundTrip(was, start, c);
      WithD(Goto(s, pc), D.Step(s.d, D.Return(Prober)))
    else None
  }

  function StepAfterFailure(s: State): Option<State> {
    if s.d.mu.Some? then None
    else if !D.ConnAlive(s.d) then Some(Goto(s, Dropping(Gone)))
    else
      var n := s.prober.failStreak + 1;
      Some(Goto(SetStreak(s, n), if n >= PROBE_FAIL_STREAK_LIMIT then Dropping(Streak) else Select))
  }

  /** The end of `dropAndFail`; only a vanished connection resets streak and cadence. */
  function StepDropShow(s: State, kind: DropKind): State {
    var t := Goto(Show(s, MeshFallback), Select);
    if kind == Gone then FastCadence(SetStreak(t, 0)) else t
  }

  function StepJudging(s: State, was: bool, elapsed: int): Option<State> {
    if s.d.mu.Some? then None
    else
      var j := Rtt.Judge(s.probeRTT, elapsed);
      Some(Goto(s.(probeRTT := j.base),
                if j.healthy then Verifying else if was then Dropping(SlowRtt) else Select))
  }

  /** The two ways an iteration ends once the path was reached: verify or drop. */
  function StepVerdict(s: State): Option<State> {
    match s.prober.pc
    case Judging(was, elapsed) => StepJudging(s, was, elapsed)
    case Verifying => Some(Goto(MarkVerified(s), ShowVerified))
    case ShowVerified => Some(Goto(SlowCadence(Show(s, H2H3)), Select))
    case Dropping(kind) => WithD(Goto(s, DropMark(kind)), D.Step(s.d, D.DropAndFail))
    case DropMark(kind) => Some(Goto(MarkFailed(s), DropShow(kind)))
    case DropShow(kind) => Some(StepDropShow(s, kind))
    case _ => None
  }

  function StepProbe(s: State): Option<State> {
    match s.prober.pc
    case MeshGate => StepGates(s)
    case IdleGate => StepGates(s)
    case IdleCheck => StepGates(s)
    case IdleMark => StepGates(s)
    case IdleShow => StepGates(s)
    case ReadVerified => StepSync(s)
    case SyncVerified => StepSync(s)
    case SyncState => StepSync(s)
    case SyncShow => StepSync(s)
    case Begin(_) => StepSync(s)
    case InOpen(was, start) => StepOpenResult(s, was, start)
    case AfterFailure => StepAfterFailure(s)
    case _ => StepVerdict(s)
  }

  /** The handler goes on with the mesh half. */
  function EnterMesh(s: State, t: Tid): Option<State> {
    WithM(HandlerAt(s, t, InMesh), M.Step(s.m, M.Call(t)))
  }

  function StepHandle(s: State, t: Tid): Option<State> {
    if t !in s.handlers then None
    else match s.handlers[t]
      case Check =>
        if IsVerified(s) then WithD(HandlerAt(s, t, InDirect), D.Step(s.d, D.Call(Handler(t)))) else EnterMesh(s, t)
      case InDirect =>
        if Handler(t) in s.d.ops && s.d.ops[Handler(t)].Returned? then
          var res := s.d.ops[Handler(t)].res;
          WithD(HandlerAt(s, t, if res.Stream? then Done(ViaDirect(res.conn)) else CheckAlive),
                D.Step(s.d, D.Return(Handler(t))))
        else None
      case CheckAlive =>
        if s.d.mu.Some? then None
        else if D.ConnAlive(s.d) then EnterMesh(s, t)
        else Some(HandlerAt(s, t, MarkingFailed))
      case MarkingFailed => Some(HandlerAt(MarkFailed(s), t, ShowingFallback))
      case ShowingFallback => EnterMesh(Show(s, MeshFallback), t)
      case InMesh =>
        if t in s.m.ops && s.m.ops[t].Returned? then
          var res := s.m.ops[t].res;
          WithM(HandlerAt(s, t, Done(if res.MeshStream? then ViaMesh(res.conn) else NoStream)),
                M.Step(s.m, M.Return(t)))
        else None
      case Done(_) => None
  }

  function StepMeshOp(s: State, l: M.Label): Option<State> {
    if !InsideMeshHalf(l) then None
    else if l.Acquire? && l.up != (s.peers > 0) then None
    else if l.AskPeers? && l.up != (s.peers > 0) then None
    else WithM(s, M.Step(s.m, l))
  }

  function Step(s: State, l: Label): Option<State> {
    match l
    case Tick(dt) => WithD(s, D.Step(s.d, D.Tick(dt)))
    case KillDirect(c) => WithD(s, D.Step(s.d, D.Kill(c)))
    case KillMesh(c) => WithM(s, M.Step(s.m, M.Kill(c)))
    case SetPeers(n) => Some(s.(peers := n))
    case Close => WithD(s.(stopped := true), D.Step(s.d, D.Close))
    case Op(op) => StepOp(s, op)
    case Watch(c) => StepWatch(s, c)
    case Wake(src) => StepWake(s, src)
    case Echo(e) => StepEcho(s, e)
    case Probe => StepProbe(s)
    case Start(t) =>
      if t in s.handlers then None else Some(HandlerAt(s, t, Check).(lastActive := s.d.now))
    case Handle(t) => StepHandle(s, t)
    case MeshOp(mop) => StepMeshOp(s, mop)
    case MeshWatch(c) => WithM(s, M.Step(s.m, M.WatchFire(c)))
  }

  /** `startProber` gives an unset retry period its default. */
  function EffectiveRetry(configured: int): int {
    if configured > 0 then configured else DIRECT_FALLBACK_COOLDOWN
  }

  ghost predicate Init(s: State) {
    && D.Init(s.d)
    && M.Init(s.m)
    && (exists configured :: s.retryPeriod == EffectiveRetry(configured))
    && s.lastActive <= s.d.now
    && s == State(s.d, s.m, 0, MeshOnly, Rtt.NO_BASELINE, s.peers, s.lastActive, s.retryPeriod, false,
                  ProbeLoop(Select, true, true, false, 0), map[])
  }

  // -------------------------------------------------- what a step can change

  /** The step is the prober's MarkVerified. */
  predicate Marks(s: State, l: Label) {
    l.Probe? && s.prober.pc == Verifying
  }

  /** The step is some goroutine's MarkFailed. */
  predicate Clears(s: State, l: Label) {
    || (l.Op? && l.op.Advance? && l.op.who in s.d.ops && s.d.ops[l.op.who] == D.MarkingFailed)
    || (l.Watch? && l.conn in s.d.watchers && s.d.watchers[l.conn] == D.Clearing)
    || (l.Probe? && (s.prober.pc == IdleMark || s.prober.pc.DropMark?))
    || (l.Handle? && l.tid in s.handlers && s.handlers[l.tid] == MarkingFailed)
  }

  /** The step shows the fallback state: the second half of a downgrade by a caller whose
      dial failed, a watcher, the prober or a handler. */
  predicate ShowsFallback(s: State, l: Label) {
    || (l.Op? && l.op.Advance? && l.op.who in s.d.ops && s.d.ops[l.op.who] == D.ShowingFailed)
    || (l.Watch? && l.conn in s.d.watchers && s.d.watchers[l.conn] == D.Showing)
    || (l.Probe? && s.prober.pc.DropShow?)
    || (l.Handle? && l.tid in s.handlers && s.handlers[l.tid] == ShowingFallback)
  }

  predicate ShowsProbing(s: State, l: Label) {
    l.Probe? && (s.prober.pc == IdleShow || s.prober.pc == SyncShow)
  }

  predicate ShowsVerified(s: State, l: Label) {
    l.Probe? && s.prober.pc == ShowVerified
  }

  predicate OfProber(l: Label) {
    l.Wake? || l.Echo? || l.Probe?
  }

  /** The clock, the Alt-Svc cache, the displayed state, the activity stamp and the
      prober change only through the steps that own them. */
  ghost predicate Effects(s: State, l: Label, t: State) {
    && t.d.now == s.d.now + (if l.Tick? then l.dt else 0)
    && t.retryPeriod == s.retryPeriod
    && t.verifiedUntil == (if Marks(s, l) then s.d.now + VerifyTTL(s) else if Clears(s, l) then 0 else s.verifiedUntil)
    && t.probeState == (if ShowsVerified(s, l) then H2H3 else if ShowsFallback(s, l) then MeshFallback
                        else if ShowsProbing(s, l) then MeshProbing else s.probeState)
    && t.lastActive == (if l.Start? then s.d.now else s.lastActive)
    && t.stopped == (s.stopped || l.Close?)
    && (!OfProber(l) ==> t.prober == s.prober && t.probeRTT == s.probeRTT)
  }

  // The slots' own steps inside a step of the system.

  function DirectLabel(s: State, l: Label): Option<D.Label> {
    match l
    case Tick(dt) => Some(D.Tick(dt))
    case KillDirect(c) => Some(D.Kill(c))
    case Close => Some(D.Close)
    case Op(op) => Some(op)
    case Watch(c) =>
      Some(if c in s.d.watchers && s.d.watchers[c] == D.Waiting then D.WatchFire(c) else D.WatchNext(c))
    case Probe =>
      if s.prober.pc.Begin? then Some(D.Call(Prober))
      else if s.prober.pc.InOpen? then Some(D.Return(Prober))
      else if s.prober.pc.Dropping? then Some(D.DropAndFail)
      else None
    case Handle(t) =>
      if t in s.handlers && s.handlers[t] == Check && IsVerified(s) then Some(D.Call(Handler(t)))
      else if t in s.handlers && s.handlers[t] == InDirect then Some(D.Return(Handler(t)))
      else None
    case _ => None
  }

  function MeshLabel(s: State, l: Label): Option<M.Label> {
    match l
    case KillMesh(c) => Some(M.Kill(c))
    case MeshOp(mop) => Some(mop)
    case MeshWatch(c) => Some(M.WatchFire(c))
    case Handle(t) =>
      if t !in s.handlers then None
      else if s.handlers[t] == InMesh then Some(M.Return(t))
      else if s.handlers[t] == ShowingFallback then Some(M.Call(t))
      else if s.handlers[t] == Check && !IsVerified(s) then Some(M.Call(t))
      else if s.handlers[t] == CheckAlive && D.ConnAlive(s.d) then Some(M.Call(t))
      else None
    case _ => None
  }

  /** A step of the system is at most one step of each slot. */
  lemma SlotsOfStep(s: State, l: Label, t: State)
    requires Step(s, l) == Some(t)
    ensures match DirectLabel(s, l) case Some(dl) => D.Step(s.d, dl) == Some(t.d) case None => t.d == s.d
    ensures match MeshLabel(s, l) case Some(ml) => M.Step(s.m, ml) == Some(t.m) case None => t.m == s.m
  {
  }

  lemma EffectsOfEnvironment(s: State, l: Label, t: State)
    requires Step(s, l) == Some(t)
    requires l.Tick? || l.KillDirect? || l.KillMesh? || l.SetPeers? || l.Close? || l.Start?
    ensures Effects(s, l, t)
  {
  }

  lemma EffectsOfOpenStream(s: State, l: Label, t: State)
    requires Step(s, l) == Some(t) && l.Op?
    ensures Effects(s, l, t)
  {
  }

  lemma EffectsOfWatchers(s: State, l: Label, t: State)
    requires Step(s, l) == Some(t) && (l.Watch? || l.MeshOp? || l.MeshWatch?)
    ensures Effects(s, l, t)
  {
  }

  lemma EffectsOfHandler(s: State, l: Label, t: State)
    requires Step(s, l) == Some(t) && l.Handle?
    ensures Effects(s, l, t)
  {
  }

  lemma EffectsOfWakeUp(s: State, l: Label, t: State)
    requires Step(s, l) == Some(t) && (l.Wake? || l.Echo?)
    ensures Effects(s, l, t)
  {
  }

  lemma EffectsOfGates(s: State, t: State)
    requires StepGates(s) == Some(t) || StepSync(s) == Some(t)
    ensures Effects(s, Probe, t)
  {
  }

  lemma EffectsOfVerdict(s: State, t: State)
    requires StepVerdict(s) == Some(t)
    ensures Effects(s, Probe, t)
  {
  }

  lemma EffectsOfProbe(s: State, t: State)
    requires StepProbe(s) == Some(t)
    ensures Effects(s, Probe, t)
  {
    if StepGates(s) == Some(t) || StepSync(s) == Some(t) {
      EffectsOfGates(s, t);
    } else if StepVerdict(s) == Some(t) {
      EffectsOfVerdict(s, t);
    }
  }

  lemma EffectsOfStep(s: State, l: Label, t: State)
    requires Step(s, l) == Some(t)
    ensures Effects(s, l, t)
  {
    match l
    case Tick(_) => EffectsOfEnvironment(s, l, t);
    case KillDirect(_) => EffectsOfEnvironment(s, l, t);
    case KillMesh(_) => EffectsOfEnvironment(s, l, t);
    case SetPeers(_) => EffectsOfEnvironment(s, l, t);
    case Close => EffectsOfEnvironment(s, l, t);
    case Start(_) => EffectsOfEnvironment(s, l, t);
    case Handle(_) => EffectsOfHandler(s, l, t);
    case Wake(_) => EffectsOfWakeUp(s, l, t);
    case Echo(_) => EffectsOfWakeUp(s, l, t);
    case Probe => EffectsOfProbe(s, t);
    case Op(_) => EffectsOfOpenStream(s, l, t);
    case _ => EffectsOfWatchers(s, l, t);
  }

  // -------------------------------------------------------------------- runs

  datatype Run = Run(states: seq<State>, labels: seq<Label>)

  ghost predicate Linked(r: Run, i: int) {
    0 <= i < |r.labels| && i + 1 < |r.states| && Step(r.states[i], r.labels[i]) == Some(r.states[i + 1])
  }

  ghost predicate IsRun(r: Run) {
    && |r.states| == |r.labels| + 1
    && Init(r.states[0])
    && forall i :: 0 <= i < |r.labels| ==> Linked(r, i)
  }

  lemma EffectsAt(r: Run, i: nat)
    requires IsRun(r) && i < |r.labels|
    ensures Effects(r.states[i], r.labels[i], r.states[i + 1])
  {
    assert Linked(r, i);
    EffectsOfStep(r.states[i], r.labels[i], r.states[i + 1]);
  }

  /** A condition that holds at k but not at an earlier `lo` began to hold at some step
      between them and has held ever since. */
  lemma {:induction false} LastRiseFrom(r: Run, p: State -> bool, lo: nat, k: nat) returns (j: nat)
    requires IsRun(r) && lo <= k < |r.states| && p(r.states[k]) && !p(r.states[lo])
    ensures lo <= j < k && !p(r.states[j])
    ensures forall i :: j < i <= k ==> p(r.states[i])
  {
    if p(r.states[k - 1]) {
      j := LastRiseFrom(r, p, lo, k - 1);
    } else {
      j := k - 1;
    }
  }

  lemma LastRise(r: Run, p: State -> bool, k: nat) returns (j: nat)
    requires IsRun(r) && k < |r.states| && p(r.states[k]) && !p(r.states[0])
    ensures j < k && !p(r.states[j])
    ensures forall i :: j < i <= k ==> p(r.states[i])
  {
    j := LastRiseFrom(r, p, 0, k);
  }

  lemma {:induction false} ClockMonotone(r: Run, i: nat, k: nat)
    requires IsRun(r) && i <= k < |r.states|
    ensures r.states[i].d.now <= r.states[k].d.now
    ensures r.states[i].retryPeriod == r.states[k].retryPeriod
  {
    if i < k {
      ClockMonotone(r, i, k - 1);
      EffectsAt(r, k - 1);
    }
  }

  // -------------------------------------------------------------- invariants

  /** What the prober knows at each point of an iteration. */
  predicate ProberInv(s: State) {
    && s.prober.fastOn != s.prober.slowOn
    && (s.prober.pc.DropShow? || s.prober.pc.IdleShow? ==> s.verifiedUntil == 0)
    && (s.prober.pc.SyncVerified? || s.prober.pc.SyncState? || s.prober.pc.SyncShow? ==> !IsVerified(s))
    && (s.prober.pc.Begin? && !s.prober.pc.was ==> !IsVerified(s) && s.probeState != H2H3)
  }

  lemma ProberInvFramed(s: State, l: Label, t: State)
    requires ProberInv(s) && Effects(s, l, t) && !OfProber(l) && s.retryPeriod > 0
    ensures ProberInv(t)
  {
  }

  lemma ProberInvWake(s: State, l: Label, t: State)
    requires ProberInv(s) && (l.Wake? || l.Echo?) && Step(s, l) == Some(t)
    ensures ProberInv(t)
  {
  }

  lemma ProberInvGates(s: State, t: State)
    requires ProberInv(s) && StepGates(s) == Some(t)
    ensures ProberInv(t)
  {
  }

  lemma ProberInvSync(s: State, t: State)
    requires ProberInv(s) && StepSync(s) == Some(t)
    ensures ProberInv(t)
  {
  }

  lemma ProberInvVerdict(s: State, t: State)
    requires ProberInv(s) && StepVerdict(s) == Some(t)
    ensures ProberInv(t)
  {
  }

  lemma ProberInvStep(s: State, l: Label, t: State)
    requires ProberInv(s) && s.retryPeriod > 0 && Step(s, l) == Some(t)
    ensures ProberInv(t)
  {
    if !OfProber(l) {
      EffectsOfStep(s, l, t);
      ProberInvFramed(s, l, t);
    } else if !l.Probe? {
      ProberInvWake(s, l, t);
    } else if StepGates(s) == Some(t) {
      ProberInvGates(s, t);
    } else if StepSync(s) == Some(t) {
      ProberInvSync(s, t);
    } else if StepVerdict(s) == Some(t) {
      ProberInvVerdict(s, t);
    }
  }

  ghost predicate Inv(s: State) {
    && D.Inv(s.d)
    && M.Inv(s.m)
    && ProberInv(s)
    && s.lastActive <= s.d.now
    && s.retryPeriod > 0
    && 0 <= s.verifiedUntil <= s.d.now + VerifyTTL(s)
  }

  lemma {:induction false} RunInv(r: Run, k: nat)
    requires IsRun(r) && k < |r.states|
    ensures Inv(r.states[k])
  {
    if k == 0 {
      D.InitInv(r.states[0].d);
    } else {
      RunInv(r, k - 1);
      InvAt(r, k - 1);
    }
  }

  lemma SlotsInv(s: State, l: Label, t: State)
    requires Step(s, l) == Some(t) && D.Inv(s.d) && M.Inv(s.m)
    ensures D.Inv(t.d) && M.Inv(t.m)
  {
    SlotsOfStep(s, l, t);
    if DirectLabel(s, l).Some? {
      D.InvStep(s.d, DirectLabel(s, l).value);
    }
    if MeshLabel(s, l).Some? {
      M.InvStep(s.m, MeshLabel(s, l).value);
    }
  }

  lemma InvAt(r: Run, i: nat)
    requires IsRun(r) && i < |r.labels| && Inv(r.states[i])
    ensures Inv(r.states[i + 1])
  {
    EffectsAt(r, i);
    assert Linked(r, i);
    SlotsInv(r.states[i], r.labels[i], r.states[i + 1]);
    ProberInvStep(r.states[i], r.labels[i], r.states[i + 1]);
  }
}
