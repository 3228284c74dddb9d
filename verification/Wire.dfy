/** The messages exchanged between browsers, server and Connect agent, and the bounded queues they travel through. */
module Wire {
  datatype Option<+T> = None | Some(value: T)

  type Byte = x: int | 0 <= x < 256

  /** Strings stand for their UTF-8 encoding, so the length of a `Text` is its length in bytes. */
  type Text = string

  type SessionId = Text

  datatype SessionInfo = SessionInfo(
    sessionId: SessionId, command: seq<Text>, workingDir: Option<Text>, startedAt: Text,
    cols: nat, rows: nat, pid: nat)

  datatype EventKind = Started | Exited(exitCode: int) | Killed | SpawnFailed(error: Text) {
    /** The events that end a session on the server: everything but `Started`. */
    predicate Terminal() {
      !Started?
    }
  }

  /** Terminal payloads are carried as the bytes themselves; the base64 text form is an injective encoding of them. */
  datatype AgentMessage =
    | AgentStatus(connected: bool)
    | SessionOutput(sessionId: SessionId, data: seq<Byte>)
    | SessionEvent(sessionId: SessionId, event: EventKind)
    | ScrollbackDump(sessionId: SessionId, data: seq<Byte>)
    | SessionList(sessions: seq<SessionInfo>)
    | Ready(agentVersion: Text, hostname: Text, os: Text)
    | Pong(ts: nat)

  /** The environment of a spawn request is a hash map; `env` is one listing of its entries. */
  datatype ServerMessage =
    | SpawnSession(sessionId: SessionId, command: seq<Text>, workingDir: Option<Text>,
                   env: seq<(Text, Text)>, cols: nat, rows: nat)
    | SessionInput(sessionId: SessionId, data: seq<Byte>)
    | SessionResize(sessionId: SessionId, cols: nat, rows: nat)
    | SessionKill(sessionId: SessionId, force: bool)
    | ScrollbackRequest(sessionId: SessionId)
    | ListSessions
    | Ping(ts: nat)

  const CHANNEL_CAPACITY: nat := 64

  const MAX_SESSIONS: nat := 32

  const MAX_SESSION_ID: nat := 128

  predicate ValidSessionId(s: SessionId) {
    0 < |s| <= MAX_SESSION_ID
  }

  /** A bounded queue. `sent` is every message it ever accepted, in order, and `taken` counts
      those its receiver has already removed, so the queue holds `sent[taken..]`. */
  datatype Channel<T> = Channel(sent: seq<T>, taken: nat, open: bool) {
    predicate Valid() {
      taken <= |sent| <= taken + CHANNEL_CAPACITY
    }

    /** When a non-blocking send succeeds: the receiver still exists and the queue has room. */
    predicate CanSend() {
      open && |sent| < taken + CHANNEL_CAPACITY
    }

    function Push(m: T): Channel<T> {
      this.(sent := sent + [m])
    }
  }

  function NewChannel<T>(): Channel<T> {
    Channel([], 0, true)
  }

  function SessionIds(infos: seq<SessionInfo>): set<SessionId> {
    set info <- infos :: info.sessionId
  }

  function BytesIn(m: AgentMessage, s: SessionId): seq<Byte> {
    if m.SessionOutput? && m.sessionId == s then m.data else []
  }

  /** The bytes of every output frame of session `s` in `ms`, in order. */
  function OutputBytes(ms: seq<AgentMessage>, s: SessionId): seq<Byte> {
    if ms == [] then [] else OutputBytes(ms[..|ms| - 1], s) + BytesIn(ms[|ms| - 1], s)
  }

  predicate IsTerminalFor(m: AgentMessage, s: SessionId) {
    m.SessionEvent? && m.sessionId == s && m.event.Terminal()
  }

  predicate HasTerminal(ms: seq<AgentMessage>, s: SessionId) {
    exists i :: 0 <= i < |ms| && IsTerminalFor(ms[i], s)
  }

  /** The last `n` elements, or all of them when there are fewer. */
  function LastN<T>(s: seq<T>, n: nat): seq<T> {
    if |s| <= n then s else s[|s| - n..]
  }
}
