/** What every interleaving of the PTY manager keeps. The bytes of each session's PTY split, in order, into
    what was queued, the reader's batch, the chunk it holds and the pipe, and the scrollback is the end of what
    was queued and batched (`SessionOk`). A PTY is behind its session or has ended with everything queued
    (`Settled`). The channel's past is well formed (`HistoryOk`), and the holder of `output_lock` and the
    dispatcher's progress agree with it (`LockOk`, `TaskOk`). One lemma per action. */
module PtyInvariant {
  import opened Wire
  import opened PtyAgent

  function Flatten(chunks: seq<seq<Byte>>): seq<Byte> {
    if chunks == [] then [] else chunks[0] + Flatten(chunks[1..])
  }

  /** Bytes read from the PTY that have not reached the scrollback yet. */
  function Ahead(x: Session): seq<Byte> {
    (if x.held.Some? then x.held.value else []) + Flatten(x.pipe)
  }

  function ExpectedLife(phase: Phase): Life {
    match phase
    case Starting => Fresh
    case Running => Alive
    case Deciding(_) => Alive
    case Reported => Ended
  }

  predicate ChunkOk(chunk: seq<Byte>) {
    0 < |chunk| <= CHUNK
  }

  /** How a session's fields relate to what was queued for its PTY: queued, then batched, then still
      ahead makes up the whole stream, and the ring holds the end of what has been appended. */
  ghost predicate Tracks(x: Session, life: Life, sent: seq<Byte>, stream: seq<Byte>, batch: seq<Byte>, holds: bool,
                         signalled: bool, verdict: Option<bool>, capacity: nat)
  {
    && life == ExpectedLife(x.phase)
    && stream == sent + batch + Ahead(x)
    && x.scrollback == LastN(sent + batch, capacity)
    && (!x.phase.Running? ==> x.pipe == [] && x.held.None? && !holds)
    && (x.phase.Deciding? || x.phase.Reported? ==> x.eof)
    && x.killed == signalled
    && (x.phase.Starting? || x.phase.Running? ==> verdict.None?)
    && (x.phase.Deciding? ==> verdict == Some(x.phase.killed))
    && (x.phase.Reported? ==> verdict.Some?)
    && (x.held.Some? ==> ChunkOk(x.held.value))
    && (forall i :: 0 <= i < |x.pipe| ==> ChunkOk(x.pipe[i]))
  }

  function VerdictOf(st: State, g: PtyId): Option<bool> {
    if g in st.verdicts then Some(st.verdicts[g]) else None
  }

  ghost predicate SessionOk(st: State, s: SessionId, capacity: nat)
    requires s in st.sessions && |st.streams| == |st.owners|
  {
    var x := st.sessions[s];
    && x.pty < |st.owners| && st.owners[x.pty] == s && x.info.sessionId == s && ValidSessionId(s)
    && Tracks(x, LifeOf(st.queued, x.pty), Sent(st.queued, x.pty), st.streams[x.pty], BatchOf(st.lock, s),
              Holds(st.lock, s), x.pty in st.signalled, VerdictOf(st, x.pty), capacity)
    && (x.phase.Starting? <==> st.task == Publishing(s))
  }

  /** A PTY is either behind the table entry of its session or finished with everything it produced queued. */
  ghost predicate Settled(st: State, g: PtyId)
    requires g < |st.owners| && |st.streams| == |st.owners|
  {
    || (st.owners[g] in st.sessions && st.sessions[st.owners[g]].pty == g)
    || (LifeOf(st.queued, g) == Ended && Sent(st.queued, g) == st.streams[g] && g in st.verdicts)
  }

  ghost predicate DumpOk(before: seq<Frame>, owners: seq<SessionId>, s: SessionId, pty: Option<PtyId>, bytes: seq<Byte>,
                         capacity: nat)
  {
    match pty
    case None => bytes == []
    case Some(g) => g < |owners| && owners[g] == s && bytes == LastN(Sent(before, g), capacity)
  }

  ghost predicate LockOk(st: State, capacity: nat) {
    match st.lock
    case Free => true
    case Reader(s, batch) =>
      && s in st.sessions && st.sessions[s].phase.Running?
      && |batch| < BATCH + CHUNK
      && (st.sessions[s].held.Some? ==> |batch| < BATCH)
      && (st.sessions[s].held.None? ==> 0 < |batch|)
    case Dumper(s, None) => st.task == Dumping(s)
    case Dumper(s, Some((pty, bytes))) => st.task == Dumping(s) && DumpOk(st.queued, st.owners, s, pty, bytes, capacity)
  }

  ghost predicate TaskOk(st: State) {
    match st.task
    case Checked(request) => |st.sessions| < MAX_SESSIONS && ValidSessionId(request.sessionId)
    case Opening(request) =>
      |st.sessions| < MAX_SESSIONS && ValidSessionId(request.sessionId) && request.sessionId !in st.sessions
    case Publishing(s) => s in st.sessions
    case Listing(infos, _) => |infos| <= MAX_SESSIONS && st.sessions.Keys <= SessionIds(infos)
    case _ => true
  }

  /** No two PTYs of one session are alive at once. */
  ghost predicate OneAlive(before: seq<Frame>, owners: seq<SessionId>) {
    forall g: PtyId, h: PtyId ::
      (LifeOf(before, g) == Alive && LifeOf(before, h) == Alive && g < |owners| && h < |owners| && owners[g] == owners[h])
      ==> g == h
  }

  /** What a message on the channel says, given everything queued before it. */
  ghost predicate FrameOk(before: seq<Frame>, f: Frame, owners: seq<SessionId>, verdicts: map<PtyId, bool>, capacity: nat) {
    && (f.pty.Some? ==> f.pty.value < |owners|)
    && match f.msg
       case SessionOutput(s, data) =>
         f.pty.Some? && owners[f.pty.value] == s && 0 < |data| < BATCH + CHUNK
         && LifeOf(before, f.pty.value) == Alive && OneAlive(before, owners)
       case ScrollbackDump(s, data) => DumpOk(before, owners, s, f.pty, data, capacity)
       case SessionList(infos) =>
         f.pty.None? && |infos| <= MAX_SESSIONS
         && forall g: PtyId :: LifeOf(before, g) == Alive ==> g < |owners| && owners[g] in SessionIds(infos)
       case SessionEvent(s, event) =>
         && (event.SpawnFailed? <==> f.pty.None?)
         && (f.pty.Some? ==> owners[f.pty.value] == s)
         && (event.Started? ==> LifeOf(before, f.pty.value) == Fresh)
         && (EndsPty(f.msg) ==>
               && LifeOf(before, f.pty.value) == Alive && OneAlive(before, owners)
               && f.pty.value in verdicts && (event.Killed? <==> verdicts[f.pty.value]))
       case _ => f.pty.None?
  }

  ghost predicate HistoryOk(frames: seq<Frame>, owners: seq<SessionId>, verdicts: map<PtyId, bool>, capacity: nat) {
    frames == []
    || (HistoryOk(frames[..|frames| - 1], owners, verdicts, capacity)
        && FrameOk(frames[..|frames| - 1], frames[|frames| - 1], owners, verdicts, capacity))
  }

  ghost predicate AllSessionsOk(st: State, capacity: nat)
    requires |st.streams| == |st.owners|
  {
    forall s {:trigger SessionOk(st, s, capacity)} :: s in st.sessions ==> SessionOk(st, s, capacity)
  }

  ghost predicate AllSettled(st: State)
    requires |st.streams| == |st.owners|
  {
    forall g {:trigger Settled(st, g)} :: 0 <= g < |st.owners| ==> Settled(st, g)
  }

  ghost predicate LabelsOk(st: State) {
    forall g :: g in st.verdicts || g in st.signalled ==> g < |st.owners|
  }

  ghost predicate Inv(st: State, capacity: nat) {
    && |st.sessions| <= MAX_SESSIONS
    && |st.streams| == |st.owners|
    && AllSessionsOk(st, capacity)
    && AllSettled(st)
    && LabelsOk(st)
    && LockOk(st, capacity)
    && TaskOk(st)
    && HistoryOk(st.queued, st.owners, st.verdicts, capacity)
  }

  // ---------------------------------------------------------------- the channel grows

  lemma Appended(frames: seq<Frame>, f: Frame, g: PtyId)
    ensures Sent(frames + [f], g)
            == Sent(frames, g) + (if f.pty == Some(g) && f.msg.SessionOutput? then f.msg.data else [])
    ensures f.pty != Some(g) || f.msg.ScrollbackDump? ==> LifeOf(frames + [f], g) == LifeOf(frames, g)
    ensures f.pty == Some(g) && f.msg.SessionOutput? && LifeOf(frames, g) == Alive ==> LifeOf(frames + [f], g) == Alive
    ensures f.pty == Some(g) && f.msg.SessionEvent? && f.msg.event.Started? && LifeOf(frames, g) == Fresh
            ==> LifeOf(frames + [f], g) == Alive
    ensures f.pty == Some(g) && EndsPty(f.msg) && LifeOf(frames, g) == Alive ==> LifeOf(frames + [f], g) == Ended
  {
    assert (frames + [f])[..|frames|] == frames;
  }

  lemma HistoryGrows(frames: seq<Frame>, f: Frame, owners: seq<SessionId>, verdicts: map<PtyId, bool>, capacity: nat)
    requires HistoryOk(frames, owners, verdicts, capacity) && FrameOk(frames, f, owners, verdicts, capacity)
    ensures HistoryOk(frames + [f], owners, verdicts, capacity)
  {
    assert (frames + [f])[..|frames|] == frames;
  }

  /** PTYs that were never opened have no frames. */
  lemma {:induction false} UnopenedFresh(frames: seq<Frame>, owners: seq<SessionId>, verdicts: map<PtyId, bool>, capacity: nat, g: PtyId)
    requires HistoryOk(frames, owners, verdicts, capacity) && g >= |owners|
    ensures LifeOf(frames, g) == Fresh && Sent(frames, g) == []
  {
    if frames != [] {
      UnopenedFresh(frames[..|frames| - 1], owners, verdicts, capacity, g);
    }
  }

  /** Opening one more PTY and recording one more verdict leave the past well-formed. */
  lemma {:induction false} HistoryWidens(
      frames: seq<Frame>, owners: seq<SessionId>, verdicts: map<PtyId, bool>, owners': seq<SessionId>,
      verdicts': map<PtyId, bool>, capacity: nat)
    requires HistoryOk(frames, owners, verdicts, capacity)
    requires owners <= owners'
    requires forall g :: g in verdicts ==> g in verdicts' && verdicts'[g] == verdicts[g]
    ensures HistoryOk(frames, owners', verdicts', capacity)
  {
    if frames != [] {
      var front := frames[..|frames| - 1];
      HistoryWidens(front, owners, verdicts, owners', verdicts', capacity);
      forall g: PtyId | LifeOf(front, g) == Alive ensures g < |owners| {
        if g >= |owners| { UnopenedFresh(front, owners, verdicts, capacity, g); }
      }
    }
  }

  lemma {:induction false} FlattenAppend(chunks: seq<seq<Byte>>, c: seq<Byte>)
    ensures Flatten(chunks + [c]) == Flatten(chunks) + c
  {
    if chunks == [] {
      assert Flatten([c]) == c + Flatten([]);
    } else {
      FlattenAppend(chunks[1..], c);
      assert (chunks + [c])[1..] == chunks[1..] + [c];
    }
  }

  lemma LastNAppend(s: seq<Byte>, t: seq<Byte>, n: nat)
    ensures LastN(LastN(s, n) + t, n) == LastN(s + t, n)
  {
  }

  lemma AliveIsInTable(st: State, capacity: nat, g: PtyId)
    requires Inv(st, capacity) && LifeOf(st.queued, g) == Alive
    ensures g < |st.owners| && st.owners[g] in st.sessions && st.sessions[st.owners[g]].pty == g
  {
    if g >= |st.owners| { UnopenedFresh(st.queued, st.owners, st.verdicts, capacity, g); }
    assert Settled(st, g);
  }

  lemma OneAliveNow(st: State, capacity: nat)
    requires Inv(st, capacity)
    ensures OneAlive(st.queued, st.owners)
  {
    forall g: PtyId, h: PtyId | LifeOf(st.queued, g) == Alive && LifeOf(st.queued, h) == Alive
                  && g < |st.owners| && h < |st.owners| && st.owners[g] == st.owners[h]
      ensures g == h
    {
      AliveIsInTable(st, capacity, g);
      AliveIsInTable(st, capacity, h);
    }
  }

  // ---------------------------------------------------------------- each action keeps the invariant

  /** Actions that only move the dispatcher along. */
  lemma TaskStep(st: State, task: Task, capacity: nat)
    requires Inv(st, capacity) && TaskOk(st.(task := task))
    requires !st.task.Publishing? && !task.Publishing? && (st.lock.Dumper? ==> task == st.task)
    ensures Inv(st.(task := task), capacity)
  {
    var st' := st.(task := task);
    forall s | s in st'.sessions ensures SessionOk(st', s, capacity) { assert SessionOk(st, s, capacity); }
    forall g | 0 <= g < |st'.owners| ensures Settled(st', g) { assert Settled(st, g); }
  }

  /** A session nothing relevant to which has changed. */
  lemma UntouchedSession(st: State, st': State, t: SessionId, capacity: nat)
    requires t in st.sessions && t in st'.sessions && st'.sessions[t] == st.sessions[t]
    requires |st.streams| == |st.owners| && |st'.streams| == |st'.owners| && SessionOk(st, t, capacity)
    requires var g := st.sessions[t].pty;
             && g < |st'.owners| && st'.owners[g] == st.owners[g] && st'.streams[g] == st.streams[g]
             && Sent(st'.queued, g) == Sent(st.queued, g) && LifeOf(st'.queued, g) == LifeOf(st.queued, g)
             && (g in st'.signalled <==> g in st.signalled) && VerdictOf(st', g) == VerdictOf(st, g)
    requires BatchOf(st'.lock, t) == BatchOf(st.lock, t) && Holds(st'.lock, t) == Holds(st.lock, t)
    requires st'.task == Publishing(t) <==> st.task == Publishing(t)
    ensures SessionOk(st', t, capacity)
  {
  }

  /** A snapshot already read stays right while no output is queued. */
  lemma QueuedKeepsLock(st: State, f: Frame, capacity: nat)
    requires LockOk(st, capacity) && !f.msg.SessionOutput?
    ensures LockOk(st.(queued := st.queued + [f]), capacity)
  {
    if st.lock.Dumper? && st.lock.snapshot.Some? && st.lock.snapshot.value.0.Some? {
      Appended(st.queued, f, st.lock.snapshot.value.0.value);
    }
  }

  lemma SidelineSession(st: State, f: Frame, s: SessionId, capacity: nat)
    requires |st.streams| == |st.owners| && s in st.sessions && SessionOk(st, s, capacity)
    requires f.pty.None? || f.msg.ScrollbackDump?
    ensures SessionOk(st.(queued := st.queued + [f]), s, capacity)
  {
    Appended(st.queued, f, st.sessions[s].pty);
    hide Sent, LifeOf, Tracks;
    UntouchedSession(st, st.(queued := st.queued + [f]), s, capacity);
  }

  lemma SidelineSettled(st: State, f: Frame, g: PtyId)
    requires |st.streams| == |st.owners| && g < |st.owners| && Settled(st, g)
    requires f.pty.None? || f.msg.ScrollbackDump?
    ensures Settled(st.(queued := st.queued + [f]), g)
  {
    Appended(st.queued, f, g);
    hide Sent, LifeOf;
  }

  /** Messages that speak for no PTY, and snapshots: they change no PTY's life or output. */
  lemma SidelineQueued(st: State, f: Frame, capacity: nat)
    requires Inv(st, capacity) && FrameOk(st.queued, f, st.owners, st.verdicts, capacity)
    requires f.pty.None? || f.msg.ScrollbackDump?
    ensures Inv(st.(queued := st.queued + [f]), capacity)
  {
    var st' := st.(queued := st.queued + [f]);
    HistoryGrows(st.queued, f, st.owners, st.verdicts, capacity);
    QueuedKeepsLock(st, f, capacity);
    hide SessionOk, Settled, FrameOk, HistoryOk, LockOk;
    forall s | s in st'.sessions ensures SessionOk(st', s, capacity) { SidelineSession(st, f, s, capacity); }
    forall g | 0 <= g < |st'.owners| ensures Settled(st', g) { SidelineSettled(st, f, g); }
  }

  lemma SeparateSessions(st: State, s: SessionId, t: SessionId, capacity: nat)
    requires |st.streams| == |st.owners| && s in st.sessions && t in st.sessions && s != t
    requires SessionOk(st, s, capacity) && SessionOk(st, t, capacity)
    ensures st.sessions[s].pty != st.sessions[t].pty && st.sessions[t].pty < |st.owners|
  {
  }

  /** A PTY nothing relevant to which has changed. */
  lemma UntouchedSettled(st: State, st': State, s: SessionId, g: PtyId, capacity: nat)
    requires |st.streams| == |st.owners| && |st'.streams| == |st.streams| && g < |st.owners|
    requires s in st.sessions && s in st'.sessions && SessionOk(st, s, capacity) && Settled(st, g)
    requires st'.sessions == st.sessions[s := st'.sessions[s]] && st'.sessions[s].pty == st.sessions[s].pty
    requires st'.queued == st.queued && st'.owners == st.owners
    requires g != st.sessions[s].pty ==> st'.streams[g] == st.streams[g] && VerdictOf(st', g) == VerdictOf(st, g)
    ensures Settled(st', g)
  {
  }

  /** A section that rewrites one session without queueing anything. */
  lemma SessionStep(st: State, st': State, s: SessionId, capacity: nat)
    requires Inv(st, capacity) && s in st.sessions && s in st'.sessions
    requires st'.sessions == st.sessions[s := st'.sessions[s]] && st'.sessions[s].pty == st.sessions[s].pty
    requires st'.queued == st.queued && st'.owners == st.owners && st'.task == st.task
    requires |st'.streams| == |st.streams|
    requires forall g :: 0 <= g < |st.owners| && g != st.sessions[s].pty ==> st'.streams[g] == st.streams[g]
    requires forall g :: g != st.sessions[s].pty ==>
               (g in st'.signalled <==> g in st.signalled) && VerdictOf(st', g) == VerdictOf(st, g)
    requires forall t :: t != s ==> BatchOf(st'.lock, t) == BatchOf(st.lock, t) && Holds(st'.lock, t) == Holds(st.lock, t)
    requires forall g :: g in st.verdicts ==> g in st'.verdicts && st'.verdicts[g] == st.verdicts[g]
    requires forall g :: g in st'.verdicts || g in st'.signalled ==> g < |st.owners|
    requires SessionOk(st', s, capacity) && LockOk(st', capacity) && TaskOk(st')
    ensures Inv(st', capacity)
  {
    HistoryWidens(st.queued, st.owners, st.verdicts, st'.owners, st'.verdicts, capacity);
    assert SessionOk(st, s, capacity);
    forall t | t in st'.sessions ensures SessionOk(st', t, capacity) {
      if t != s {
        SeparateSessions(st, s, t, capacity);
        UntouchedSession(st, st', t, capacity);
      }
    }
    forall g | 0 <= g < |st'.owners| ensures Settled(st', g) { UntouchedSettled(st, st', s, g, capacity); }
    assert st'.sessions.Keys == st.sessions.Keys;
    assert |st'.sessions| == |st'.sessions.Keys|;
  }

  /** Taking or releasing `output_lock` for a snapshot, together with a change of task. */
  lemma DumpLockStep(st: State, lock: OutputLock, task: Task, capacity: nat)
    requires Inv(st, capacity) && !st.lock.Reader? && !lock.Reader?
    requires st.task.Dumping? && !task.Publishing?
    requires LockOk(st.(lock := lock, task := task), capacity) && TaskOk(st.(task := task))
    ensures Inv(st.(lock := lock, task := task), capacity)
  {
    var st' := st.(lock := lock, task := task);
    forall s | s in st'.sessions ensures SessionOk(st', s, capacity) { assert SessionOk(st, s, capacity); }
    forall g | 0 <= g < |st'.owners| ensures Settled(st', g) { assert Settled(st, g); }
  }

  lemma OwnFrameSettled(st: State, st': State, s: SessionId, f: Frame, g: PtyId, capacity: nat)
    requires Inv(st, capacity) && s in st.sessions && s in st'.sessions && g < |st.owners|
    requires st'.sessions == st.sessions[s := st'.sessions[s]] && st'.sessions[s].pty == st.sessions[s].pty
    requires st'.queued == st.queued + [f] && f.pty == Some(st.sessions[s].pty)
    requires st'.owners == st.owners && st'.streams == st.streams && st'.verdicts == st.verdicts
    ensures Settled(st', g)
  {
    assert Settled(st, g) && SessionOk(st, s, capacity);
    if g != st.sessions[s].pty { Appended(st.queued, f, g); }
  }

  /** A session other than the one whose PTY queued a frame. */
  lemma OtherSessionOk(st: State, st': State, s: SessionId, f: Frame, t: SessionId, capacity: nat)
    requires |st.streams| == |st.owners| && s in st.sessions && t in st.sessions && t != s
    requires SessionOk(st, s, capacity) && SessionOk(st, t, capacity)
    requires t in st'.sessions && st'.sessions[t] == st.sessions[t]
    requires st'.queued == st.queued + [f] && f.pty == Some(st.sessions[s].pty)
    requires st'.owners == st.owners && st'.streams == st.streams
    requires st'.signalled == st.signalled && st'.verdicts == st.verdicts
    requires BatchOf(st'.lock, t) == BatchOf(st.lock, t) && Holds(st'.lock, t) == Holds(st.lock, t)
    requires st'.task == Publishing(t) <==> st.task == Publishing(t)
    ensures SessionOk(st', t, capacity)
  {
    Appended(st.queued, f, st.sessions[t].pty);
    UntouchedSession(st, st', t, capacity);
  }

  /** A section that queues one frame of a session's own PTY and rewrites that session. */
  lemma OwnFrameStep(st: State, st': State, s: SessionId, f: Frame, capacity: nat)
    requires Inv(st, capacity) && s in st.sessions && s in st'.sessions
    requires st'.sessions == st.sessions[s := st'.sessions[s]] && st'.sessions[s].pty == st.sessions[s].pty
    requires st'.queued == st.queued + [f] && f.pty == Some(st.sessions[s].pty)
    requires st'.owners == st.owners && st'.streams == st.streams
    requires st'.signalled == st.signalled && st'.verdicts == st.verdicts
    requires forall t :: t != s ==> BatchOf(st'.lock, t) == BatchOf(st.lock, t) && Holds(st'.lock, t) == Holds(st.lock, t)
    requires forall t :: t != s ==> (st'.task == Publishing(t) <==> st.task == Publishing(t))
    requires FrameOk(st.queued, f, st.owners, st.verdicts, capacity)
    requires SessionOk(st', s, capacity) && LockOk(st', capacity) && TaskOk(st')
    ensures Inv(st', capacity)
  {
    hide SessionOk, Settled, LockOk, TaskOk, FrameOk, HistoryOk;
    HistoryGrows(st.queued, f, st.owners, st.verdicts, capacity);
    forall t | t in st'.sessions ensures SessionOk(st', t, capacity) {
      if t != s { OtherSessionOk(st, st', s, f, t, capacity); }
    }
    forall g | 0 <= g < |st'.owners| ensures Settled(st', g) {
      OwnFrameSettled(st, st', s, f, g, capacity);
    }
    assert st'.sessions.Keys == st.sessions.Keys;
    assert |st'.sessions| == |st'.sessions.Keys|;
  }

  lemma DispatcherKeeps(st: State, a: Action, capacity: nat)
    requires Inv(st, capacity) && Enabled(st, a)
    requires a.SpawnBegin? || a.SpawnCheck? || (a.SpawnOpen? && a.launched.None?) || a.ListBegin? || a.DumpBegin?
    ensures Inv(Next(st, a, capacity), capacity)
  {
    if a.ListBegin? {
      forall s | s in st.sessions ensures s in SessionIds(a.infos) {
        assert SessionOk(st, s, capacity);
        assert st.sessions[s].info in ListedInfos(st.sessions);
      }
    }
    TaskStep(st, Next(st, a, capacity).task, capacity);
  }

  lemma SidelineKeeps(st: State, a: Action, capacity: nat)
    requires Inv(st, capacity) && Enabled(st, a)
    requires a.Refuse? || a.ListSend? || a.PongSend?
    ensures Inv(Next(st, a, capacity), capacity)
  {
    var st' := Next(st, a, capacity);
    var f := st'.queued[|st.queued|];
    if a.ListSend? {
      forall g: PtyId | LifeOf(st.queued, g) == Alive ensures g < |st.owners| && st.owners[g] in SessionIds(st.task.infos) {
        AliveIsInTable(st, capacity, g);
      }
    }
    SidelineQueued(st, f, capacity);
    TaskStep(st.(queued := st.queued + [f]), st'.task, capacity);
  }

  lemma DumpLockKeeps(st: State, capacity: nat)
    requires Inv(st, capacity) && Enabled(st, DumpLock)
    ensures Inv(Next(st, DumpLock, capacity), capacity)
  {
    DumpLockStep(st, Dumper(st.task.session, None), st.task, capacity);
  }

  lemma DumpReadKeeps(st: State, capacity: nat)
    requires Inv(st, capacity) && Enabled(st, DumpRead)
    ensures Inv(Next(st, DumpRead, capacity), capacity)
  {
    var s := st.lock.session;
    if s in st.sessions { assert SessionOk(st, s, capacity); }
    var read := if s in st.sessions then (Some(st.sessions[s].pty), st.sessions[s].scrollback) else (None, []);
    assert DumpOk(st.queued, st.owners, s, read.0, read.1, capacity);
    DumpLockStep(st, Dumper(s, Some(read)), st.task, capacity);
  }

  lemma DumpSendKeeps(st: State, capacity: nat)
    requires Inv(st, capacity) && Enabled(st, DumpSend)
    ensures Inv(Next(st, DumpSend, capacity), capacity)
  {
    var (pty, bytes) := st.lock.snapshot.value;
    var f := Frame(pty, ScrollbackDump(st.lock.session, bytes));
    assert DumpOk(st.queued, st.owners, st.lock.session, pty, bytes, capacity);
    SidelineQueued(st, f, capacity);
    DumpLockStep(st.(queued := st.queued + [f]), Free, Idle, capacity);
  }

  /** A cancelled listing, pong or snapshot leaves nothing behind, and gives back the lock. */
  lemma AbortKeeps(st: State, capacity: nat)
    requires Inv(st, capacity) && Enabled(st, Abort)
    ensures Inv(Next(st, Abort, capacity), capacity)
  {
    if st.lock.Dumper? {
      DumpLockStep(st, Free, Idle, capacity);
    } else {
      TaskStep(st, Idle, capacity);
    }
  }

  lemma KillKeeps(st: State, s: SessionId, capacity: nat)
    requires Inv(st, capacity) && Enabled(st, Kill(s, true))
    ensures Inv(Next(st, Kill(s, true), capacity), capacity)
  {
    assert SessionOk(st, s, capacity);
    SessionStep(st, Next(st, Kill(s, true), capacity), s, capacity);
  }

  lemma ResizeKeeps(st: State, s: SessionId, cols: nat, rows: nat, capacity: nat)
    requires Inv(st, capacity) && Enabled(st, Resize(s, cols, rows, true))
    ensures Inv(Next(st, Resize(s, cols, rows, true), capacity), capacity)
  {
    assert SessionOk(st, s, capacity);
    SessionStep(st, Next(st, Resize(s, cols, rows, true), capacity), s, capacity);
  }

  lemma TracksProduce(x: Session, sent: seq<Byte>, stream: seq<Byte>, batch: seq<Byte>, holds: bool, signalled: bool,
                      verdict: Option<bool>, chunk: seq<Byte>, capacity: nat)
    requires Tracks(x, Alive, sent, stream, batch, holds, signalled, verdict, capacity)
    requires x.phase.Running? && !x.eof && ChunkOk(chunk)
    ensures Tracks(x.(pipe := x.pipe + [chunk]), Alive, sent, stream + chunk, batch, holds, signalled, verdict, capacity)
  {
    FlattenAppend(x.pipe, chunk);
  }

  lemma TracksReceive(x: Session, sent: seq<Byte>, stream: seq<Byte>, batch: seq<Byte>, holds: bool, signalled: bool,
                      verdict: Option<bool>, capacity: nat)
    requires Tracks(x, Alive, sent, stream, batch, holds, signalled, verdict, capacity)
    requires x.phase.Running? && x.held.None? && x.pipe != []
    ensures Tracks(x.(pipe := x.pipe[1..], held := Some(x.pipe[0])), Alive, sent, stream, batch, holds, signalled, verdict,
                   capacity)
  {
  }

  lemma TracksAppend(x: Session, sent: seq<Byte>, stream: seq<Byte>, batch: seq<Byte>, signalled: bool,
                     verdict: Option<bool>, capacity: nat)
    requires Tracks(x, Alive, sent, stream, batch, true, signalled, verdict, capacity)
    requires x.phase.Running? && x.held.Some?
    ensures var chunk := x.held.value;
            Tracks(x.(held := None, scrollback := Scrolled(x.scrollback, chunk, capacity)), Alive, sent, stream, batch + chunk,
                   true, signalled, verdict, capacity)
  {
    var chunk := x.held.value;
    LastNAppend(sent + batch, chunk, capacity);
    assert sent + batch + chunk == sent + (batch + chunk);
  }

  lemma ProduceKeeps(st: State, s: SessionId, chunk: seq<Byte>, capacity: nat)
    requires Inv(st, capacity) && Enabled(st, Produce(s, chunk))
    ensures Inv(Next(st, Produce(s, chunk), capacity), capacity)
  {
    var st' := Next(st, Produce(s, chunk), capacity);
    var x := st.sessions[s];
    assert SessionOk(st, s, capacity);
    TracksProduce(x, Sent(st.queued, x.pty), st.streams[x.pty], BatchOf(st.lock, s), Holds(st.lock, s), x.killed, None,
                  chunk, capacity);
    assert SessionOk(st', s, capacity);
    SessionStep(st, st', s, capacity);
  }

  lemma EofKeeps(st: State, s: SessionId, capacity: nat)
    requires Inv(st, capacity) && Enabled(st, Eof(s))
    ensures Inv(Next(st, Eof(s), capacity), capacity)
  {
    assert SessionOk(st, s, capacity);
    SessionStep(st, Next(st, Eof(s), capacity), s, capacity);
  }

  lemma ReceiveKeeps(st: State, s: SessionId, capacity: nat)
    requires Inv(st, capacity) && Enabled(st, Receive(s))
    ensures Inv(Next(st, Receive(s), capacity), capacity)
  {
    var st' := Next(st, Receive(s), capacity);
    var x := st.sessions[s];
    assert SessionOk(st, s, capacity);
    TracksReceive(x, Sent(st.queued, x.pty), st.streams[x.pty], BatchOf(st.lock, s), Holds(st.lock, s), x.killed, None, capacity);
    assert SessionOk(st', s, capacity);
    assert LockOk(st', capacity);
    assert TaskOk(st');
    SessionStep(st, st', s, capacity);
  }

  lemma ReaderLockKeeps(st: State, s: SessionId, capacity: nat)
    requires Inv(st, capacity) && Enabled(st, ReaderLock(s))
    ensures Inv(Next(st, ReaderLock(s), capacity), capacity)
  {
    assert SessionOk(st, s, capacity);
    SessionStep(st, Next(st, ReaderLock(s), capacity), s, capacity);
  }

  lemma AppendKeeps(st: State, s: SessionId, capacity: nat)
    requires Inv(st, capacity) && Enabled(st, Append(s))
    ensures Inv(Next(st, Append(s), capacity), capacity)
  {
    assert SessionOk(st, s, capacity);
    var st' := Next(st, Append(s), capacity);
    var x := st.sessions[s];
    TracksAppend(x, Sent(st.queued, x.pty), st.streams[x.pty], st.lock.batch, x.killed, None, capacity);
    assert SessionOk(st', s, capacity);
    SessionStep(st, st', s, capacity);
  }

  lemma DecideKeeps(st: State, s: SessionId, capacity: nat)
    requires Inv(st, capacity) && Enabled(st, Decide(s))
    ensures Inv(Next(st, Decide(s), capacity), capacity)
  {
    assert SessionOk(st, s, capacity);
    SessionStep(st, Next(st, Decide(s), capacity), s, capacity);
  }

  lemma TracksPhase(x: Session, life: Life, phase: Phase, sent: seq<Byte>, stream: seq<Byte>, signalled: bool,
                    verdict: Option<bool>, capacity: nat)
    requires Tracks(x, life, sent, stream, [], false, signalled, verdict, capacity)
    requires (x.phase.Starting? && phase == Running) || (x.phase.Deciding? && phase == Reported)
    ensures Tracks(x.(phase := phase), ExpectedLife(phase), sent, stream, [], false, signalled, verdict, capacity)
  {
  }

  lemma SessionIn(st: State, s: SessionId, capacity: nat)
    requires Inv(st, capacity) && s in st.sessions
    ensures |st.streams| == |st.owners| && SessionOk(st, s, capacity)
  {
  }

  lemma StartingTracks(st: State, s: SessionId, capacity: nat)
    requires |st.streams| == |st.owners| && s in st.sessions && st.sessions[s].phase.Starting? && SessionOk(st, s, capacity)
    ensures var x := st.sessions[s];
            && LifeOf(st.queued, x.pty) == Fresh && BatchOf(st.lock, s) == [] && !Holds(st.lock, s)
            && (x.pty in st.signalled <==> x.killed) && VerdictOf(st, x.pty) == None
            && Tracks(x, Fresh, Sent(st.queued, x.pty), st.streams[x.pty], [], false, x.killed, None, capacity)
  {
    hide Sent, LifeOf;
  }

  /** A session that has just been published, in terms of the fields that change. */
  lemma PublishedSession(st: State, st': State, s: SessionId, capacity: nat)
    requires |st.streams| == |st.owners| && s in st.sessions && st.sessions[s].phase.Starting? && SessionOk(st, s, capacity)
    requires var x := st.sessions[s];
             st' == st.(sessions := st.sessions[s := x.(phase := Running)], task := Idle,
                        queued := st.queued + [Frame(Some(x.pty), SessionEvent(s, Started))])
    ensures SessionOk(st', s, capacity)
  {
    hide Sent, LifeOf;
    var x := st.sessions[s];
    StartingTracks(st, s, capacity);
    Appended(st.queued, Frame(Some(x.pty), SessionEvent(s, Started)), x.pty);
    TracksPhase(x, Fresh, Running, Sent(st.queued, x.pty), st.streams[x.pty], x.killed, None, capacity);
    hide Tracks;
  }

  lemma PublishedSessionOk(st: State, capacity: nat)
    requires |st.streams| == |st.owners| && Enabled(st, Publish) && SessionOk(st, st.task.session, capacity)
    ensures SessionOk(Next(st, Publish, capacity), st.task.session, capacity)
  {
    assert st.sessions[st.task.session].phase.Starting?;
    hide SessionOk;
    PublishedSession(st, Next(st, Publish, capacity), st.task.session, capacity);
  }

  lemma PublishedFrameOk(st: State, capacity: nat)
    requires Inv(st, capacity) && Enabled(st, Publish)
    ensures var s := st.task.session;
            FrameOk(st.queued, Frame(Some(st.sessions[s].pty), SessionEvent(s, Started)), st.owners, st.verdicts, capacity)
    ensures LockOk(Next(st, Publish, capacity), capacity)
  {
    hide Sent, LifeOf, Settled, HistoryOk;
    assert SessionOk(st, st.task.session, capacity);
  }

  lemma PublishKeeps(st: State, capacity: nat)
    requires Inv(st, capacity) && Enabled(st, Publish)
    ensures Inv(Next(st, Publish, capacity), capacity)
  {
    var s := st.task.session;
    var st' := Next(st, Publish, capacity);
    var f := Frame(Some(st.sessions[s].pty), SessionEvent(s, Started));
    SessionIn(st, s, capacity);
    PublishedSessionOk(st, capacity);
    PublishedFrameOk(st, capacity);
    hide Inv, FrameOk, SessionOk, LockOk, Sent, LifeOf;
    OwnFrameStep(st, st', s, f, capacity);
  }

  lemma TracksFlush(x: Session, sent: seq<Byte>, stream: seq<Byte>, batch: seq<Byte>, signalled: bool, verdict: Option<bool>,
                    capacity: nat)
    requires x.phase.Running? && Tracks(x, Alive, sent, stream, batch, true, signalled, verdict, capacity)
    ensures Tracks(x, Alive, sent + batch, stream, [], false, signalled, verdict, capacity)
  {
    assert sent + batch + [] == sent + batch;
  }

  /** A session whose batch has just been queued, in terms of the fields that change. */
  lemma FlushedSession(st: State, st': State, s: SessionId, capacity: nat)
    requires |st.streams| == |st.owners| && s in st.sessions && st.sessions[s].phase.Running? && SessionOk(st, s, capacity)
    requires Holds(st.lock, s) && BatchOf(st.lock, s) == st.lock.batch
    requires var x := st.sessions[s];
             st' == st.(lock := Free, queued := st.queued + [Frame(Some(x.pty), SessionOutput(s, st.lock.batch))])
    ensures SessionOk(st', s, capacity)
  {
    hide Sent, LifeOf;
    var x := st.sessions[s];
    Appended(st.queued, Frame(Some(x.pty), SessionOutput(s, st.lock.batch)), x.pty);
    TracksFlush(x, Sent(st.queued, x.pty), st.streams[x.pty], st.lock.batch, x.pty in st.signalled, VerdictOf(st, x.pty), capacity);
    hide Tracks;
  }

  lemma FlushedSessionOk(st: State, s: SessionId, capacity: nat)
    requires |st.streams| == |st.owners| && s in st.sessions && Enabled(st, Flush(s)) && SessionOk(st, s, capacity)
    ensures SessionOk(Next(st, Flush(s), capacity), s, capacity)
  {
    hide SessionOk;
    FlushedSession(st, Next(st, Flush(s), capacity), s, capacity);
  }

  lemma FlushKeeps(st: State, s: SessionId, capacity: nat)
    requires Inv(st, capacity) && Enabled(st, Flush(s))
    ensures Inv(Next(st, Flush(s), capacity), capacity)
  {
    var st' := Next(st, Flush(s), capacity);
    var f := Frame(Some(st.sessions[s].pty), SessionOutput(s, st.lock.batch));
    SessionIn(st, s, capacity);
    FlushedSessionOk(st, s, capacity);
    assert FrameOk(st.queued, f, st.owners, st.verdicts, capacity) by {
      assert SessionOk(st, s, capacity);
      OneAliveNow(st, capacity);
    }
    hide Inv, FrameOk, SessionOk, Sent, LifeOf;
    OwnFrameStep(st, st', s, f, capacity);
  }

  function ReportFrame(x: Session, s: SessionId, exitCode: int): Frame
    requires x.phase.Deciding?
  {
    Frame(Some(x.pty), SessionEvent(s, if x.phase.killed then Killed else Exited(exitCode)))
  }

  lemma DecidingTracks(st: State, s: SessionId, capacity: nat)
    requires |st.streams| == |st.owners| && s in st.sessions && st.sessions[s].phase.Deciding? && SessionOk(st, s, capacity)
    ensures var x := st.sessions[s];
            && LifeOf(st.queued, x.pty) == Alive && !Holds(st.lock, s) && BatchOf(st.lock, s) == []
            && (x.pty in st.signalled <==> x.killed) && VerdictOf(st, x.pty) == Some(x.phase.killed)
            && Tracks(x, Alive, Sent(st.queued, x.pty), st.streams[x.pty], [], false, x.killed, Some(x.phase.killed), capacity)
  {
    hide Sent, LifeOf;
  }

  /** A session that has just been reported, in terms of the fields that change. */
  lemma ReportedSession(st: State, st': State, s: SessionId, exitCode: int, capacity: nat)
    requires |st.streams| == |st.owners| && s in st.sessions && st.sessions[s].phase.Deciding? && SessionOk(st, s, capacity)
    requires var x := st.sessions[s];
             st' == st.(sessions := st.sessions[s := x.(phase := Reported)],
                        queued := st.queued + [ReportFrame(x, s, exitCode)])
    ensures SessionOk(st', s, capacity)
  {
    hide Sent, LifeOf;
    var x := st.sessions[s];
    DecidingTracks(st, s, capacity);
    Appended(st.queued, ReportFrame(x, s, exitCode), x.pty);
    TracksPhase(x, Alive, Reported, Sent(st.queued, x.pty), st.streams[x.pty], x.killed, Some(x.phase.killed), capacity);
    hide Tracks;
  }

  lemma ReportedSessionOk(st: State, s: SessionId, exitCode: int, capacity: nat)
    requires |st.streams| == |st.owners| && Enabled(st, Report(s, exitCode)) && SessionOk(st, s, capacity)
    ensures SessionOk(Next(st, Report(s, exitCode), capacity), s, capacity)
  {
    hide SessionOk;
    ReportedSession(st, Next(st, Report(s, exitCode), capacity), s, exitCode, capacity);
  }

  lemma ReportedFrameOk(st: State, s: SessionId, exitCode: int, capacity: nat)
    requires Inv(st, capacity) && Enabled(st, Report(s, exitCode))
    ensures FrameOk(st.queued, ReportFrame(st.sessions[s], s, exitCode), st.owners, st.verdicts, capacity)
  {
    SessionIn(st, s, capacity);
    OneAliveNow(st, capacity);
    DecidingTracks(st, s, capacity);
    hide Sent, LifeOf, OneAlive, LockOk, Settled, HistoryOk;
  }

  lemma ReportedLockOk(st: State, s: SessionId, exitCode: int, capacity: nat)
    requires Inv(st, capacity) && Enabled(st, Report(s, exitCode))
    ensures LockOk(Next(st, Report(s, exitCode), capacity), capacity)
  {
    SessionIn(st, s, capacity);
    QueuedKeepsLock(st, ReportFrame(st.sessions[s], s, exitCode), capacity);
    hide DumpOk, SessionOk, HistoryOk, Settled;
  }

  lemma ReportKeeps(st: State, a: Action, capacity: nat)
    requires Inv(st, capacity) && a.Report? && Enabled(st, a)
    ensures Inv(Next(st, a, capacity), capacity)
  {
    var s, exitCode := a.session, a.exitCode;
    var st' := Next(st, Report(s, exitCode), capacity);
    SessionIn(st, s, capacity);
    ReportedSessionOk(st, s, exitCode, capacity);
    ReportedFrameOk(st, s, exitCode, capacity);
    ReportedLockOk(st, s, exitCode, capacity);
    hide Inv, FrameOk, SessionOk, LockOk, Sent, LifeOf;
    OwnFrameStep(st, st', s, ReportFrame(st.sessions[s], s, exitCode), capacity);
  }

  lemma LockSurvivesOpen(st: State, info: SessionInfo, capacity: nat)
    requires Inv(st, capacity) && st.task.Opening? && info.sessionId !in st.sessions
    ensures LockOk(Open(st, info), capacity)
  {
  }

  lemma NewSessionOk(st: State, info: SessionInfo, failure: Text, capacity: nat)
    requires Inv(st, capacity) && Enabled(st, SpawnOpen(Some(info), failure))
    ensures SessionOk(Open(st, info), info.sessionId, capacity)
  {
    UnopenedFresh(st.queued, st.owners, st.verdicts, capacity, |st.owners|);
  }

  lemma OpenUntouched(st: State, info: SessionInfo, failure: Text, t: SessionId, capacity: nat)
    requires Inv(st, capacity) && Enabled(st, SpawnOpen(Some(info), failure)) && t in st.sessions
    ensures SessionOk(Open(st, info), t, capacity)
  {
    assert SessionOk(st, t, capacity);
    UntouchedSession(st, Open(st, info), t, capacity);
  }

  lemma OpenSettled(st: State, info: SessionInfo, failure: Text, g: PtyId, capacity: nat)
    requires Inv(st, capacity) && Enabled(st, SpawnOpen(Some(info), failure)) && g <= |st.owners|
    ensures Settled(Open(st, info), g)
  {
    if g < |st.owners| { assert Settled(st, g); }
  }

  lemma OneMore(sessions: map<SessionId, Session>, s: SessionId, x: Session)
    ensures |sessions[s := x]| <= |sessions| + 1
  {
    assert sessions[s := x].Keys == sessions.Keys + {s};
    assert |sessions[s := x]| == |sessions[s := x].Keys| && |sessions| == |sessions.Keys|;
  }

  lemma OpenFits(st: State, info: SessionInfo, failure: Text, capacity: nat)
    requires Inv(st, capacity) && Enabled(st, SpawnOpen(Some(info), failure))
    ensures |Open(st, info).streams| == |Open(st, info).owners| && |Open(st, info).sessions| <= MAX_SESSIONS
  {
    var st', s := Open(st, info), info.sessionId;
    OneMore(st.sessions, s, st'.sessions[s]);
    hide AllSessionsOk, AllSettled, HistoryOk, LockOk, LabelsOk;
  }

  lemma OpenKeepsSessions(st: State, info: SessionInfo, failure: Text, capacity: nat)
    requires Inv(st, capacity) && Enabled(st, SpawnOpen(Some(info), failure))
    ensures |Open(st, info).streams| == |Open(st, info).owners| && AllSessionsOk(Open(st, info), capacity)
    ensures |Open(st, info).sessions| <= MAX_SESSIONS
  {
    hide Inv, SessionOk, LockOk, AllSettled;
    OpenFits(st, info, failure, capacity);
    var st', s := Open(st, info), info.sessionId;
    assert st'.sessions.Keys == st.sessions.Keys + {s};
    forall t | t in st'.sessions ensures SessionOk(st', t, capacity) {
      if t == s { NewSessionOk(st, info, failure, capacity); } else { OpenUntouched(st, info, failure, t, capacity); }
    }
  }

  lemma OpenKeepsPast(st: State, info: SessionInfo, failure: Text, capacity: nat)
    requires Inv(st, capacity) && Enabled(st, SpawnOpen(Some(info), failure))
    ensures var st' := Open(st, info);
            |st'.streams| == |st'.owners| && AllSettled(st') && LabelsOk(st') && HistoryOk(st'.queued, st'.owners, st'.verdicts, capacity)
  {
    var st' := Open(st, info);
    HistoryWidens(st.queued, st.owners, st.verdicts, st'.owners, st'.verdicts, capacity);
    assert |st'.streams| == |st'.owners| && LabelsOk(st');
    hide Inv, Settled, HistoryOk;
    forall g | 0 <= g < |st'.owners| ensures Settled(st', g) { OpenSettled(st, info, failure, g, capacity); }
  }

  lemma OpenKeeps(st: State, info: SessionInfo, failure: Text, capacity: nat)
    requires Inv(st, capacity) && Enabled(st, SpawnOpen(Some(info), failure))
    ensures Inv(Open(st, info), capacity)
  {
    hide AllSessionsOk, AllSettled, LabelsOk, HistoryOk, LockOk;
    OpenKeepsSessions(st, info, failure, capacity);
    OpenKeepsPast(st, info, failure, capacity);
    LockSurvivesOpen(st, info, capacity);
  }

  lemma RemovedSettled(st: State, s: SessionId, capacity: nat)
    requires Inv(st, capacity) && Enabled(st, Remove(s))
    ensures AllSettled(Next(st, Remove(s), capacity))
  {
    var st' := Next(st, Remove(s), capacity);
    assert SessionOk(st, s, capacity);
    hide Sent, LifeOf, FrameOk, LockOk;
    forall g | 0 <= g < |st'.owners| ensures Settled(st', g) { assert Settled(st, g); }
  }

  lemma RemovedSessions(st: State, s: SessionId, capacity: nat)
    requires Inv(st, capacity) && Enabled(st, Remove(s))
    ensures AllSessionsOk(st.(sessions := st.sessions - {s}), capacity)
    ensures |st.sessions - {s}| <= MAX_SESSIONS
  {
    var st' := st.(sessions := st.sessions - {s});
    forall t | t in st'.sessions ensures SessionOk(st', t, capacity) { assert SessionOk(st, t, capacity); }
    assert st'.sessions.Keys == st.sessions.Keys - {s};
    assert |st'.sessions| == |st'.sessions.Keys|;
  }

  lemma RemoveKeeps(st: State, s: SessionId, capacity: nat)
    requires Inv(st, capacity) && Enabled(st, Remove(s))
    ensures Inv(Next(st, Remove(s), capacity), capacity)
  {
    RemovedSettled(st, s, capacity);
    RemovedSessions(st, s, capacity);
    assert SessionOk(st, s, capacity);
    hide Settled, AllSessionsOk, HistoryOk, Tracks;
  }

  lemma DispatcherActionKeeps(st: State, a: Action, capacity: nat)
    requires Inv(st, capacity) && Enabled(st, a)
    requires a.SpawnBegin? || a.SpawnCheck? || a.SpawnOpen? || a.Refuse? || a.Publish? || a.Kill? || a.Resize?
             || a.ListBegin? || a.ListSend? || a.PongSend?
    ensures Inv(Next(st, a, capacity), capacity)
  {
    hide Inv, Put, Open, Queue, CheckSpawn;
    match a
    case SpawnOpen(Some(info), failure) => OpenKeeps(st, info, failure, capacity);
    case Refuse => SidelineKeeps(st, a, capacity);
    case ListSend => SidelineKeeps(st, a, capacity);
    case PongSend => SidelineKeeps(st, a, capacity);
    case Kill(s, delivered) => if delivered { KillKeeps(st, s, capacity); }
    case Resize(s, cols, rows, applied) => if applied { ResizeKeeps(st, s, cols, rows, capacity); }
    case Publish => PublishKeeps(st, capacity);
    case _ => DispatcherKeeps(st, a, capacity);
  }

  lemma Keeps(st: State, a: Action, capacity: nat)
    requires Inv(st, capacity) && Enabled(st, a)
    ensures Inv(Next(st, a, capacity), capacity)
  {
    hide Inv, Enabled, Next;
    match a
    case DumpBegin(_) => DispatcherKeeps(st, a, capacity);
    case DumpLock => DumpLockKeeps(st, capacity);
    case DumpRead => DumpReadKeeps(st, capacity);
    case DumpSend => DumpSendKeeps(st, capacity);
    case Abort => AbortKeeps(st, capacity);
    case Produce(s, chunk) => ProduceKeeps(st, s, chunk, capacity);
    case Eof(s) => EofKeeps(st, s, capacity);
    case Receive(s) => ReceiveKeeps(st, s, capacity);
    case ReaderLock(s) => ReaderLockKeeps(st, s, capacity);
    case Append(s) => AppendKeeps(st, s, capacity);
    case Decide(s) => DecideKeeps(st, s, capacity);
    case Flush(s) => FlushKeeps(st, s, capacity);
    case Report(_, _) => ReportKeeps(st, a, capacity);
    case Remove(s) => RemoveKeeps(st, s, capacity);
    case _ => DispatcherActionKeeps(st, a, capacity);
  }
}
