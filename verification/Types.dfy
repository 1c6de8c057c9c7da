/** Names shared by the models: optional values, ids, durations and the
    displayed channel state. */
module Types {

  datatype Option<+T> = None | Some(value: T)

  /** Direct connections, transports, mesh connections and handler goroutines
      are named by numbers handed out in order. */
  type ConnId = nat
  type TrId = nat
  type Tid = nat

  /** A `Who` is a goroutine that may call `directClient.openStream`. */
  datatype Who = Prober | Handler(tid: Tid)

  /** What `client.openStream` gives its caller. */
  datatype Outcome = ViaDirect(conn: ConnId) | ViaMesh(conn: ConnId) | NoStream

  datatype PathState = MeshOnly | H2H3 | MeshProbing | MeshFallback

  /** Instants and durations are nanoseconds; the clock starts at 0 or later, so
      instant 0 plays the part of Go's zero time, which is always in the past. */
  const SECOND: int := 1_000_000_000
  const DIRECT_FAIL_COOLDOWN: int := 2 * SECOND
  const DIRECT_FALLBACK_COOLDOWN: int := 30 * SECOND
  const PROBE_IDLE_LIMIT: int := 600 * SECOND
  const PROBE_FAIL_STREAK_LIMIT: int := 2

  type Byte = b: int | 0 <= b < 256

  const PROBE_PING: seq<Byte> := [0x59, 0x21]

  function AsSet<T>(o: Option<T>): set<T> {
    if o.Some? then {o.value} else {}
  }
}
