/** The agent's PTY manager as a step protocol.

    Three locks and one FIFO channel connect the dispatcher, which handles one server command at a
    time, and one reader task per session. Each action below is one section between two suspension
    points: either it runs under the `sessions` lock, or it takes or releases `output_lock`, or it
    puts one message on the channel. Actions of different tasks interleave freely. The process table,
    the signals and the PTYs themselves are inputs of the actions. `Abort` is the end of a connection,
    whose dispatcher is cancelled while it waits for a lock or for room on the channel. */
module PtyAgent {
  import opened Wire

  type PtyId = nat

  const CHUNK: nat := 4096

  const BATCH: nat := 64 * 1024

  /** A message on the agent's channel together with the PTY it speaks for. The label is for the proofs:
      nothing on the wire carries it. */
  datatype Frame = Frame(pty: Option<PtyId>, msg: AgentMessage)

  /** `Starting`: in the table, `Started` not yet queued. `Deciding`: the output is at its end and the
      kill flag has been read. `Reported`: the terminal event is queued, the table entry not yet removed. */
  datatype Phase = Starting | Running | Deciding(killed: bool) | Reported

  /** `pipe` holds the chunks the blocking reader has read and the reader task has not; `held` is the
      chunk the reader task has taken and not yet appended. */
  datatype Session = Session(
    pty: PtyId, info: SessionInfo, pipe: seq<seq<Byte>>, held: Option<seq<Byte>>, eof: bool,
    scrollback: seq<Byte>, killed: bool, phase: Phase)

  datatype OutputLock =
    | Free
    | Reader(session: SessionId, batch: seq<Byte>)
    | Dumper(session: SessionId, snapshot: Option<(Option<PtyId>, seq<Byte>)>)

  datatype SpawnRequest = SpawnRequest(sessionId: SessionId, command: seq<Text>, cols: nat, rows: nat)

  /** Where the dispatcher stands in the command it is handling. */
  datatype Task =
    | Idle
    | Checked(request: SpawnRequest)
    | Opening(request: SpawnRequest)
    | Refusing(session: SessionId, error: Text)
    | Publishing(session: SessionId)
    | Listing(infos: seq<SessionInfo>, pong: Option<nat>)
    | Ponging(ts: nat)
    | Dumping(session: SessionId)

  /** `queued` is everything ever put on the agent's channel. The last four fields are history: the
      session each PTY was opened for, all bytes it produced, whether a kill signal reached it, and
      the kill flag its reader saw. */
  datatype State = State(
    sessions: map<SessionId, Session>, lock: OutputLock, task: Task, queued: seq<Frame>,
    owners: seq<SessionId>, streams: seq<seq<Byte>>, signalled: set<PtyId>, verdicts: map<PtyId, bool>)

  datatype Action =
    | SpawnBegin(request: SpawnRequest)
    | SpawnCheck(permitted: bool)
    | SpawnOpen(launched: Option<SessionInfo>, failure: Text)
    | Refuse
    | Publish
    | Kill(session: SessionId, delivered: bool)
    | Resize(session: SessionId, cols: nat, rows: nat, applied: bool)
    | ListBegin(infos: seq<SessionInfo>, pong: Option<nat>)
    | ListSend
    | PongSend
    | DumpBegin(session: SessionId)
    | DumpLock
    | DumpRead
    | DumpSend
    | Abort
    | Produce(session: SessionId, chunk: seq<Byte>)
    | Eof(session: SessionId)
    | Receive(session: SessionId)
    | ReaderLock(session: SessionId)
    | Append(session: SessionId)
    | Flush(session: SessionId)
    | Decide(session: SessionId)
    | Report(session: SessionId, exitCode: int)
    | Remove(session: SessionId)

  const INITIAL := State(map[], Free, Idle, [], [], [], {}, map[])

  function ListedInfos(sessions: map<SessionId, Session>): set<SessionInfo> {
    set s | s in sessions :: sessions[s].info
  }

  function BatchOf(lock: OutputLock, s: SessionId): seq<Byte> {
    if lock.Reader? && lock.session == s then lock.batch else []
  }

  predicate Holds(lock: OutputLock, s: SessionId) {
    lock.Reader? && lock.session == s
  }

  predicate Reading(st: State, s: SessionId) {
    s in st.sessions && st.sessions[s].phase.Running?
  }

  /** When an action can run. The server only forwards spawn requests with well-formed ids. */
  predicate Enabled(st: State, a: Action) {
    match a
    case SpawnBegin(request) => st.task.Idle? && ValidSessionId(request.sessionId)
    case SpawnCheck(_) => st.task.Checked?
    case SpawnOpen(launched, _) =>
      st.task.Opening? && (launched.Some? ==> launched.value.sessionId == st.task.request.sessionId)
    case Refuse => st.task.Refusing?
    case Publish => st.task.Publishing? && st.task.session in st.sessions
    case Kill(s, delivered) =>
      st.task.Idle? && (delivered ==> s in st.sessions && st.sessions[s].info.pid != 0)
    case Resize(s, _, _, applied) => st.task.Idle? && (applied ==> s in st.sessions)
    case ListBegin(infos, _) =>
      st.task.Idle? && |infos| == |st.sessions| && (set info <- infos) == ListedInfos(st.sessions)
    case ListSend => st.task.Listing?
    case PongSend => st.task.Ponging?
    case DumpBegin(_) => st.task.Idle?
    case DumpLock => st.task.Dumping? && st.lock.Free?
    case DumpRead => st.lock.Dumper? && st.lock.snapshot.None?
    case DumpSend => st.lock.Dumper? && st.lock.snapshot.Some?
    case Abort => st.task.Listing? || st.task.Ponging? || st.task.Dumping?
    case Produce(s, chunk) => Reading(st, s) && !st.sessions[s].eof && 0 < |chunk| <= CHUNK
    case Eof(s) => Reading(st, s)
    case Receive(s) =>
      Reading(st, s) && st.sessions[s].held.None? && st.sessions[s].pipe != []
      && |BatchOf(st.lock, s)| < BATCH
    case ReaderLock(s) => Reading(st, s) && st.sessions[s].held.Some? && st.lock.Free?
    case Append(s) => Reading(st, s) && st.sessions[s].held.Some? && Holds(st.lock, s)
    case Flush(s) =>
      Reading(st, s) && st.sessions[s].held.None? && Holds(st.lock, s)
      && (|st.lock.batch| >= BATCH || st.sessions[s].pipe == [])
    case Decide(s) =>
      Reading(st, s) && st.sessions[s].eof && st.sessions[s].pipe == [] && st.sessions[s].held.None?
      && !Holds(st.lock, s)
    case Report(s, _) => s in st.sessions && st.sessions[s].phase.Deciding?
    case Remove(s) => s in st.sessions && st.sessions[s].phase.Reported?
  }

  function Queue(st: State, pty: Option<PtyId>, msg: AgentMessage): State {
    st.(queued := st.queued + [Frame(pty, msg)])
  }

  function Put(st: State, s: SessionId, x: Session): State {
    st.(sessions := st.sessions[s := x])
  }

  function CheckSpawn(st: State, request: SpawnRequest, permitted: bool): Task {
    var s := request.sessionId;
    if request.command == [] then Refusing(s, "empty command")
    else if !permitted then Refusing(s, "command not allowed: " + request.command[0])
    else if s in st.sessions then Refusing(s, "session already exists: " + s)
    else Opening(request)
  }

  function Open(st: State, info: SessionInfo): State {
    var pty := |st.owners|;
    var s := info.sessionId;
    Put(st, s, Session(pty, info, [], None, false, [], false, Starting))
      .(owners := st.owners + [s], streams := st.streams + [[]], task := Publishing(s))
  }

  /** What appending one chunk does to a session's ring of `capacity` bytes. */
  function Scrolled(ring: seq<Byte>, chunk: seq<Byte>, capacity: nat): seq<Byte> {
    LastN(ring + chunk, capacity)
  }

  function Next(st: State, a: Action, capacity: nat): State
    requires Enabled(st, a)
  {
    match a
    case SpawnBegin(request) =>
      if |st.sessions| >= MAX_SESSIONS || request.cols == 0 || request.rows == 0
      then st.(task := Refusing(request.sessionId, "session limit or invalid dimensions"))
      else st.(task := Checked(request))
    case SpawnCheck(permitted) => st.(task := CheckSpawn(st, st.task.request, permitted))
    case SpawnOpen(launched, failure) =>
      if launched.None? then st.(task := Refusing(st.task.request.sessionId, failure)) else Open(st, launched.value)
    case Refuse => Queue(st, None, SessionEvent(st.task.session, SpawnFailed(st.task.error))).(task := Idle)
    case Publish =>
      var s := st.task.session;
      var x := st.sessions[s];
      Queue(Put(st, s, x.(phase := Running)), Some(x.pty), SessionEvent(s, Started)).(task := Idle)
    case Kill(s, delivered) =>
      if delivered
      then Put(st, s, st.sessions[s].(killed := true)).(signalled := st.signalled + {st.sessions[s].pty})
      else st
    case Resize(s, cols, rows, applied) =>
      if applied
      then Put(st, s, st.sessions[s].(info := st.sessions[s].info.(cols := cols, rows := rows)))
      else st
    case ListBegin(infos, pong) => st.(task := Listing(infos, pong))
    case ListSend =>
      Queue(st, None, SessionList(st.task.infos)).(task := if st.task.pong.Some? then Ponging(st.task.pong.value) else Idle)
    case PongSend => Queue(st, None, Pong(st.task.ts)).(task := Idle)
    case DumpBegin(s) => st.(task := Dumping(s))
    case DumpLock => st.(lock := Dumper(st.task.session, None))
    case DumpRead =>
      var s := st.lock.session;
      var read := if s in st.sessions then (Some(st.sessions[s].pty), st.sessions[s].scrollback) else (None, []);
      st.(lock := st.lock.(snapshot := Some(read)))
    case DumpSend =>
      var (pty, bytes) := st.lock.snapshot.value;
      Queue(st, pty, ScrollbackDump(st.lock.session, bytes)).(lock := Free, task := Idle)
    case Abort => st.(lock := if st.lock.Dumper? then Free else st.lock, task := Idle)
    case Produce(s, chunk) =>
      var x := st.sessions[s];
      var st1 := Put(st, s, x.(pipe := x.pipe + [chunk]));
      if x.pty < |st.streams| then st1.(streams := st.streams[x.pty := st.streams[x.pty] + chunk]) else st1
    case Eof(s) => Put(st, s, st.sessions[s].(eof := true))
    case Receive(s) =>
      var x := st.sessions[s];
      Put(st, s, x.(pipe := x.pipe[1..], held := Some(x.pipe[0])))
    case ReaderLock(s) => st.(lock := Reader(s, []))
    case Append(s) =>
      var x := st.sessions[s];
      Put(st, s, x.(held := None, scrollback := Scrolled(x.scrollback, x.held.value, capacity)))
        .(lock := Reader(s, st.lock.batch + x.held.value))
    case Flush(s) =>
      Queue(st, Some(st.sessions[s].pty), SessionOutput(s, st.lock.batch)).(lock := Free)
    case Decide(s) =>
      var x := st.sessions[s];
      Put(st, s, x.(phase := Deciding(x.killed))).(verdicts := st.verdicts[x.pty := x.pty in st.signalled])
    case Report(s, exitCode) =>
      var x := st.sessions[s];
      Queue(Put(st, s, x.(phase := Reported)), Some(x.pty),
            SessionEvent(s, if x.phase.killed then Killed else Exited(exitCode)))
    case Remove(s) => st.(sessions := st.sessions - {s})
  }

  /** The states of a run, from the empty manager on. */
  ghost predicate IsRun(states: seq<State>, actions: seq<Action>, capacity: nat) {
    && |states| == |actions| + 1
    && states[0] == INITIAL
    && forall i {:trigger actions[i]} :: 0 <= i < |actions| ==>
         Enabled(states[i], actions[i]) && states[i + 1] == Next(states[i], actions[i], capacity)
  }

  // ---------------------------------------------------------------- reading the channel

  /** The output bytes queued for one PTY. */
  function Sent(frames: seq<Frame>, g: PtyId): seq<Byte> {
    if frames == [] then []
    else
      var f := frames[|frames| - 1];
      Sent(frames[..|frames| - 1], g) + (if f.pty == Some(g) && f.msg.SessionOutput? then f.msg.data else [])
  }

  datatype Life = Fresh | Alive | Ended | Broken

  predicate EndsPty(msg: AgentMessage) {
    msg.SessionEvent? && (msg.event.Exited? || msg.event.Killed?)
  }

  /** The life of one PTY as its frames tell it: `Started`, then outputs, then one terminal event. A
      sequence of frames out of that order is `Broken`. */
  function LifeOf(frames: seq<Frame>, g: PtyId): Life {
    if frames == [] then Fresh
    else
      var before := LifeOf(frames[..|frames| - 1], g);
      var f := frames[|frames| - 1];
      if f.pty != Some(g) then before
      else match f.msg
        case SessionEvent(_, event) =>
          if event.Started? then (if before.Fresh? then Alive else Broken)
          else if EndsPty(f.msg) then (if before.Alive? then Ended else Broken)
          else Broken
        case SessionOutput(_, _) => if before.Alive? then Alive else Broken
        case _ => before
  }
}
