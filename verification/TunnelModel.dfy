/** The state the tunnel server guards with its lock, and the steps that change it
    (internal/tunnel/server.go). */
module TunnelModel {
  import opened Go
  import opened Text
  import opened RoundRobin

  /** Nanoseconds for which a push outranks the file. */
  const PUSH_WINDOW := 120_000_000_000

  /** A session is known by its number; lastPush is None until the first push. */
  datatype Server = Server(
    sessions: seq<nat>,
    targets: seq<string>,
    pushTargets: seq<string>,
    lastPush: Option<int>,
    rrIndex: nat)

  // ---- Connections and sessions ----

  predicate Serves(s: Server) {
    s.sessions != [] && s.targets != []
  }

  /** The target and the session of a new connection, or None if it is dropped. */
  function Dispatch(s: Server): (Server, Option<(string, nat)>) {
    if !Serves(s) then (s, None)
    else
      var (t, k) := Pick(s.rrIndex, |s.targets|, |s.sessions|);
      (s.(rrIndex := Counter(s.rrIndex, 1)), Some((s.targets[t], s.sessions[k])))
  }

  function Without(sessions: seq<nat>, id: nat): seq<nat> {
    if sessions == [] then []
    else if sessions[0] == id then sessions[1..]
    else [sessions[0]] + Without(sessions[1..], id)
  }

  // ---- Targets ----

  predicate InWindow(s: Server, now: int) {
    s.lastPush.Some? && now - s.lastPush.value < PUSH_WINDOW
  }

  /** What a fresh push means for the server: it serves what was pushed. */
  predicate ServesPush(s: Server, now: int) {
    InWindow(s, now) ==> s.targets == s.pushTargets
  }

  function Push(s: Server, query: string, now: int): Server {
    s.(targets := Fields(query), pushTargets := Fields(query), lastPush := Some(now))
  }

  /** The locked half of loadTargetsFromFile: a fresh push hides a file that says something else. */
  function Commit(s: Server, parsed: seq<string>, now: int): Server {
    if InWindow(s, now) && parsed != s.pushTargets then s else s.(targets := parsed)
  }

  /** loadTargetsFromFile with nothing in between: a file that cannot be read changes nothing. */
  function Load(s: Server, file: Option<string>, now: int): Server {
    if file.None? then s else Commit(s, Fields(TrimSpace(file.value)), now)
  }

  /** A reload request: with targets it is a push, without any it makes the server look at its file. */
  function Reload(s: Server, query: string, file: Option<string>, now: int): Server {
    if query != "" then Push(s, query, now) else Load(s, file, now)
  }

  // ---- Everything that may happen, in any order ----

  /** pending: what each reader of the file has parsed and not yet committed. */
  datatype World = World(server: Server, now: int, file: Option<string>, pending: map<nat, seq<string>>)

  datatype Event =
    | Tick(ns: nat)
    | Connection
    | Connect(session: nat)
    | Disconnect(session: nat)
    | ReloadRequest(query: string)
    | WriteFile(content: Option<string>)
    | Read(reader: nat)
    | CommitRead(reader: nat)

  function Apply(w: World, e: Event): World {
    match e
    case Tick(ns) => w.(now := w.now + ns)
    case Connection => w.(server := Dispatch(w.server).0)
    case Connect(id) => w.(server := w.server.(sessions := w.server.sessions + [id]))
    case Disconnect(id) => w.(server := w.server.(sessions := Without(w.server.sessions, id)))
    case ReloadRequest(query) => w.(server := Reload(w.server, query, w.file, w.now))
    case WriteFile(content) => w.(file := content)
    case Read(reader) =>
      if w.file.None? then w else w.(pending := w.pending[reader := Fields(TrimSpace(w.file.value))])
    case CommitRead(reader) =>
      if reader !in w.pending then w
      else w.(server := Commit(w.server, w.pending[reader], w.now), pending := w.pending - {reader})
  }

  function Run(w: World, events: seq<Event>): World
    decreases |events|
  {
    if events == [] then w else Run(Apply(w, events[0]), events[1..])
  }
}
