/** The PTY manager over whole runs: the life of every session, and what the channel carries. */
module PtyProperties {
  import opened Wire
  import opened PtyAgent
  import opened PtyInvariant

  lemma RunActs(states: seq<State>, actions: seq<Action>, capacity: nat, i: nat)
    requires IsRun(states, actions, capacity) && i + 1 < |states|
    ensures |states| == |actions| + 1 && Enabled(states[i], actions[i]) && states[i + 1] == Next(states[i], actions[i], capacity)
  {
    hide Enabled, Next;
  }

  lemma InitialInv(capacity: nat)
    ensures Inv(INITIAL, capacity)
  {
  }

  lemma {:induction false} RunKeepsInv(states: seq<State>, actions: seq<Action>, capacity: nat, i: nat)
    requires IsRun(states, actions, capacity) && i < |states|
    ensures Inv(states[i], capacity)
  {
    hide Inv, Enabled, Next;
    if i == 0 {
      InitialInv(capacity);
    } else {
      RunKeepsInv(states, actions, capacity, i - 1);
      RunActs(states, actions, capacity, i - 1);
      Keeps(states[i - 1], actions[i - 1], capacity);
    }
  }

  /** PTY `g`, which was opened, is the one its session runs on. */
  predicate BehindEntry(st: State, g: PtyId)
    requires g < |st.owners|
  {
    st.owners[g] in st.sessions && st.sessions[st.owners[g]].pty == g
  }

  /** In every reachable state at most 32 sessions exist, and every PTY ever opened has queued `Started`,
      then only outputs, then at most one terminal event; the bytes queued are a prefix of what the PTY
      produced, and all of it once the terminal event is queued. A PTY that is no longer behind the table entry
      of its session has queued its terminal event. */
  lemma Lifecycle(states: seq<State>, actions: seq<Action>, capacity: nat, i: nat, g: PtyId)
    requires IsRun(states, actions, capacity) && i < |states|
    ensures |states[i].sessions| <= MAX_SESSIONS
    ensures LifeOf(states[i].queued, g) != Broken
    ensures g < |states[i].streams| ==> Sent(states[i].queued, g) <= states[i].streams[g]
    ensures g < |states[i].streams| && LifeOf(states[i].queued, g) == Ended ==> Sent(states[i].queued, g) == states[i].streams[g]
    ensures g < |states[i].owners| && !BehindEntry(states[i], g) ==> LifeOf(states[i].queued, g) == Ended
  {
    RunKeepsInv(states, actions, capacity, i);
    var st := states[i];
    if g >= |st.owners| {
      UnopenedFresh(st.queued, st.owners, st.verdicts, capacity, g);
    } else {
      assert Settled(st, g);
      if st.owners[g] in st.sessions && st.sessions[st.owners[g]].pty == g {
        assert SessionOk(st, st.owners[g], capacity);
      }
    }
  }

  lemma StepKeepsPty(st: State, a: Action, capacity: nat, s: SessionId)
    requires Inv(st, capacity) && Enabled(st, a)
    requires s in st.sessions && s in Next(st, a, capacity).sessions
    ensures Next(st, a, capacity).sessions[s].pty == st.sessions[s].pty
  {
    assert a.SpawnOpen? && a.launched.Some? ==> st.task.request.sessionId !in st.sessions;
    hide Inv, Scrolled, CheckSpawn;
  }

  ghost predicate StaysListed(states: seq<State>, s: SessionId, i: nat, j: nat)
    requires j < |states|
  {
    forall k {:trigger states[k]} :: i <= k <= j ==> s in states[k].sessions
  }

  /** For as long as a session is in the table, the same PTY is behind it, whatever is spawned meanwhile. */
  lemma {:induction false} NeverReplaced(states: seq<State>, actions: seq<Action>, capacity: nat, s: SessionId, i: nat, j: nat)
    requires IsRun(states, actions, capacity) && i <= j < |states| && StaysListed(states, s, i, j)
    ensures states[j].sessions[s].pty == states[i].sessions[s].pty
    decreases j
  {
    if i < j {
      var before, a := states[j - 1], actions[j - 1];
      assert s in before.sessions;
      NeverReplaced(states, actions, capacity, s, i, j - 1);
      RunKeepsInv(states, actions, capacity, j - 1);
      StepKeepsPty(before, a, capacity, s);
    }
  }

  lemma {:induction false} FrameAt(
      frames: seq<Frame>, owners: seq<SessionId>, verdicts: map<PtyId, bool>, capacity: nat, p: nat)
    requires HistoryOk(frames, owners, verdicts, capacity) && p < |frames|
    ensures FrameOk(frames[..p], frames[p], owners, verdicts, capacity)
  {
    var front := frames[..|frames| - 1];
    if p < |front| {
      FrameAt(front, owners, verdicts, capacity, p);
      assert front[..p] == frames[..p];
    }
  }

  /** A snapshot on the channel is the end of exactly the output queued before it. */
  lemma SnapshotMatchesChannel(states: seq<State>, actions: seq<Action>, capacity: nat, i: nat, p: nat)
    requires IsRun(states, actions, capacity) && i < |states| && p < |states[i].queued|
    requires states[i].queued[p].msg.ScrollbackDump?
    ensures var f := states[i].queued[p];
            f.msg.data == match f.pty
                          case None => []
                          case Some(g) => LastN(Sent(states[i].queued[..p], g), capacity)
  {
    RunKeepsInv(states, actions, capacity, i);
    FrameAt(states[i].queued, states[i].owners, states[i].verdicts, capacity, p);
  }

  /** Before base64 an output frame carries at most one full batch and one more chunk. */
  lemma FrameSize(states: seq<State>, actions: seq<Action>, capacity: nat, i: nat, p: nat)
    requires IsRun(states, actions, capacity) && i < |states| && p < |states[i].queued|
    requires states[i].queued[p].msg.SessionOutput?
    ensures 0 < |states[i].queued[p].msg.data| <= 65535 + 4096
  {
    RunKeepsInv(states, actions, capacity, i);
    FrameAt(states[i].queued, states[i].owners, states[i].verdicts, capacity, p);
  }

  // ---------------------------------------------------------------- Killed or Exited

  ghost predicate Signals(st: State, a: Action, g: PtyId) {
    a.Kill? && a.delivered && a.session in st.sessions && st.sessions[a.session].pty == g
  }

  ghost predicate Decides(st: State, a: Action, g: PtyId) {
    a.Decide? && a.session in st.sessions && st.sessions[a.session].pty == g
  }

  ghost predicate SignalledBefore(states: seq<State>, actions: seq<Action>, g: PtyId, m: nat)
    requires |states| == |actions| + 1
  {
    exists k :: 0 <= k < m && k < |actions| && Signals(states[k], actions[k], g)
  }

  lemma SignalSteps(st: State, a: Action, capacity: nat, g: PtyId)
    requires Enabled(st, a)
    ensures g in Next(st, a, capacity).signalled <==> g in st.signalled || Signals(st, a, g)
  {
    hide Scrolled, CheckSpawn, Reading;
  }

  lemma OnlyDecideDecides(st: State, a: Action, capacity: nat)
    requires Enabled(st, a) && !a.Decide?
    ensures Next(st, a, capacity).verdicts == st.verdicts
  {
    hide Enabled, Scrolled, CheckSpawn, Reading;
  }

  lemma VerdictSteps(st: State, a: Action, capacity: nat, g: PtyId)
    requires Enabled(st, a)
    ensures VerdictOf(Next(st, a, capacity), g) == if Decides(st, a, g) then Some(g in st.signalled) else VerdictOf(st, g)
  {
    if !a.Decide? {
      OnlyDecideDecides(st, a, capacity);
      hide Next, Enabled;
    }
  }

  lemma SignalledNext(states: seq<State>, actions: seq<Action>, g: PtyId, m: nat)
    requires |states| == |actions| + 1 && m < |actions|
    ensures SignalledBefore(states, actions, g, m + 1) <==> SignalledBefore(states, actions, g, m) || Signals(states[m], actions[m], g)
  {
    hide Signals;
  }

  lemma SignalledAtFirst(states: seq<State>, actions: seq<Action>, capacity: nat, g: PtyId)
    requires IsRun(states, actions, capacity)
    ensures g !in states[0].signalled && !SignalledBefore(states, actions, g, 0)
  {
    hide Signals, Enabled, Next;
  }

  lemma {:induction false} SignalledExactly(states: seq<State>, actions: seq<Action>, capacity: nat, i: nat, g: PtyId)
    requires IsRun(states, actions, capacity) && i < |states|
    ensures g in states[i].signalled <==> SignalledBefore(states, actions, g, i)
  {
    hide IsRun, Enabled, Next, Signals, SignalledBefore;
    if i == 0 {
      SignalledAtFirst(states, actions, capacity, g);
    } else {
      SignalledExactly(states, actions, capacity, i - 1, g);
      RunActs(states, actions, capacity, i - 1);
      SignalSteps(states[i - 1], actions[i - 1], capacity, g);
      SignalledNext(states, actions, g, i - 1);
    }
  }

  /** The step at which the reader of `g` read the kill flag. */
  lemma {:induction false} VerdictStep(states: seq<State>, actions: seq<Action>, capacity: nat, i: nat, g: PtyId) returns (m: nat)
    requires IsRun(states, actions, capacity) && i < |states| && g in states[i].verdicts
    ensures m < i && m < |actions| && Decides(states[m], actions[m], g)
    ensures states[i].verdicts[g] <==> g in states[m].signalled
  {
    hide Enabled, Next, Decides;
    RunActs(states, actions, capacity, i - 1);
    VerdictSteps(states[i - 1], actions[i - 1], capacity, g);
    if Decides(states[i - 1], actions[i - 1], g) {
      m := i - 1;
    } else {
      m := VerdictStep(states, actions, capacity, i - 1, g);
    }
  }

  /** A PTY's terminal event is `Killed` exactly when a kill signal had reached it before its reader, at the
      end of the output, looked; otherwise it is `Exited`. */
  lemma KilledExactly(states: seq<State>, actions: seq<Action>, capacity: nat, i: nat, p: nat) returns (m: nat)
    requires IsRun(states, actions, capacity) && i < |states| && p < |states[i].queued|
    requires EndsPty(states[i].queued[p].msg)
    ensures states[i].queued[p].pty.Some? && m < |actions|
    ensures Decides(states[m], actions[m], states[i].queued[p].pty.value)
    ensures states[i].queued[p].msg.event.Killed?
            <==> SignalledBefore(states, actions, states[i].queued[p].pty.value, m)
  {
    RunKeepsInv(states, actions, capacity, i);
    FrameAt(states[i].queued, states[i].owners, states[i].verdicts, capacity, p);
    var g := states[i].queued[p].pty.value;
    m := VerdictStep(states, actions, capacity, i, g);
    SignalledExactly(states, actions, capacity, m, g);
  }

  // ---------------------------------------------------------------- what the other frames say

  /** The channel only grows, by at most one frame a step. */
  lemma QueueGrows(st: State, a: Action, capacity: nat)
    requires Enabled(st, a)
    ensures st.queued <= Next(st, a, capacity).queued && |Next(st, a, capacity).queued| <= |st.queued| + 1
  {
    hide Enabled, Scrolled, CheckSpawn, Reading;
  }

  lemma NothingQueued(states: seq<State>, actions: seq<Action>, capacity: nat)
    requires IsRun(states, actions, capacity)
    ensures |states| == |actions| + 1 && states[0].queued == []
  {
    hide Enabled, Next;
  }

  /** The step that queued a frame. */
  lemma {:induction false} QueuedBy(states: seq<State>, actions: seq<Action>, capacity: nat, i: nat, p: nat) returns (k: nat)
    requires IsRun(states, actions, capacity) && i < |states| && p < |states[i].queued|
    ensures k < i && k < |actions| && |states[k].queued| == p && states[k + 1].queued == states[k].queued + [states[i].queued[p]]
  {
    assert |states| == |actions| + 1 && states[0].queued == [] by { NothingQueued(states, actions, capacity); }
    hide *;
    RunActs(states, actions, capacity, i - 1);
    QueueGrows(states[i - 1], actions[i - 1], capacity);
    if p < |states[i - 1].queued| { k := QueuedBy(states, actions, capacity, i - 1, p); } else { k := i - 1; }
  }

  lemma ExitIsReport(st: State, a: Action, capacity: nat, s: SessionId, exitCode: int, pty: Option<PtyId>)
    requires Enabled(st, a) && Next(st, a, capacity).queued == st.queued + [Frame(pty, SessionEvent(s, Exited(exitCode)))]
    ensures a == Action.Report(s, exitCode)
  {
    var f := Next(st, a, capacity).queued[|st.queued|];
    assert f.msg == SessionEvent(s, Exited(exitCode));
    hide Enabled, Scrolled, CheckSpawn, Reading;
  }

  /** An exit frame carries the code with which the program was found to have exited. */
  lemma ExitCodeReported(states: seq<State>, actions: seq<Action>, capacity: nat, i: nat, p: nat) returns (k: nat)
    requires IsRun(states, actions, capacity) && i < |states| && p < |states[i].queued|
    requires states[i].queued[p].msg.SessionEvent? && states[i].queued[p].msg.event.Exited?
    ensures k < i && k < |actions| && actions[k] == Action.Report(states[i].queued[p].msg.sessionId, states[i].queued[p].msg.event.exitCode)
  {
    k := QueuedBy(states, actions, capacity, i, p);
    RunActs(states, actions, capacity, k);
    hide Enabled, Next;
    ExitIsReport(states[k], actions[k], capacity, states[i].queued[p].msg.sessionId, states[i].queued[p].msg.event.exitCode,
                 states[i].queued[p].pty);
  }

  /** What the dispatcher is at was asked for by an earlier command. */
  ghost predicate TaskAsked(actions: seq<Action>, i: nat, task: Task)
    requires i <= |actions|
  {
    match task
    case Listing(infos, pong) => ListBegin(infos, pong) in actions[..i]
    case Ponging(ts) => exists infos :: ListBegin(infos, Some(ts)) in actions[..i]
    case _ => true
  }

  lemma CheckedTask(st: State, request: SpawnRequest, permitted: bool)
    ensures CheckSpawn(st, request, permitted).Refusing? || CheckSpawn(st, request, permitted).Opening?
  {
  }

  lemma TaskStep(st: State, a: Action, capacity: nat)
    requires Enabled(st, a)
    ensures var task := Next(st, a, capacity).task;
            && (task.Listing? ==> task == st.task || a == ListBegin(task.infos, task.pong))
            && (task.Ponging? ==> task == st.task || (st.task.Listing? && st.task.pong == Some(task.ts)))
  {
    if a.SpawnCheck? { CheckedTask(st, st.task.request, a.permitted); }
    hide Enabled, Scrolled, CheckSpawn, Reading;
  }

  lemma {:induction false} TasksAsked(states: seq<State>, actions: seq<Action>, capacity: nat, i: nat)
    requires IsRun(states, actions, capacity) && i < |states|
    ensures TaskAsked(actions, i, states[i].task)
  {
    if i > 0 {
      TasksAsked(states, actions, capacity, i - 1);
      RunActs(states, actions, capacity, i - 1);
      TaskStep(states[i - 1], actions[i - 1], capacity);
      assert actions[..i] == actions[..i - 1] + [actions[i - 1]];
      hide Enabled, Next;
    }
  }

  lemma AnswerIsTask(st: State, a: Action, capacity: nat, f: Frame)
    requires Enabled(st, a) && Next(st, a, capacity).queued == st.queued + [f]
    ensures f.msg.SessionList? ==> st.task.Listing? && st.task.infos == f.msg.sessions
    ensures f.msg.Pong? ==> st.task == Ponging(f.msg.ts)
    ensures f.msg.SessionEvent? && f.msg.event.SpawnFailed? ==> st.task == Refusing(f.msg.sessionId, f.msg.event.error)
  {
    assert Next(st, a, capacity).queued[|st.queued|] == f;
    hide Enabled, Scrolled, CheckSpawn, Reading;
  }

  /** A list on the channel is one that was taken of the whole table, a pong answers a ping, and a failure names the
      session and the reason for which its spawn was refused. */
  lemma AnswersAsked(states: seq<State>, actions: seq<Action>, capacity: nat, i: nat, p: nat)
    requires IsRun(states, actions, capacity) && i < |states| && p < |states[i].queued|
    ensures var msg := states[i].queued[p].msg;
            && (msg.SessionList? ==> exists pong :: ListBegin(msg.sessions, pong) in actions[..i])
            && (msg.Pong? ==> exists infos :: ListBegin(infos, Some(msg.ts)) in actions[..i])
            && (msg.SessionEvent? && msg.event.SpawnFailed? ==>
                  exists k :: 0 <= k < i && states[k].task == Refusing(msg.sessionId, msg.event.error))
  {
    var k := QueuedBy(states, actions, capacity, i, p);
    RunActs(states, actions, capacity, k);
    AnswerIsTask(states[k], actions[k], capacity, states[i].queued[p]);
    TasksAsked(states, actions, capacity, k);
    assert forall a :: a in actions[..k] ==> a in actions[..i];
    hide Enabled, Next;
  }

  /** A request gets as far as opening a PTY exactly when there is a place, the terminal has a size, there is a command,
      it is permitted and the id is not in use; otherwise the refusal names the first of these that fails. */
  lemma SpawnGoesOn(st: State, request: SpawnRequest, permitted: bool, capacity: nat)
    requires Enabled(st, SpawnBegin(request))
    ensures var st1 := Next(st, SpawnBegin(request), capacity);
            && st1 == st.(task := st1.task)
            && if |st.sessions| < 32 && request.cols > 0 && request.rows > 0 then
                 && Enabled(st1, SpawnCheck(permitted))
                 && var st2 := Next(st1, SpawnCheck(permitted), capacity);
                    && st2 == st.(task := st2.task)
                    && if request.command != [] && permitted && request.sessionId !in st.sessions
                       then st2.task == Opening(request)
                       else st2.task == Refusing(request.sessionId,
                              if request.command == [] then "empty command"
                              else if !permitted then "command not allowed: " + request.command[0]
                              else "session already exists: " + request.sessionId)
               else st1.task == Refusing(request.sessionId, "session limit or invalid dimensions")
  {
  }

  /** A resize that is applied is what later lists show of the session, until the next. */
  lemma ResizeIsListed(st: State, s: SessionId, cols: nat, rows: nat, capacity: nat)
    requires Enabled(st, Resize(s, cols, rows, true))
    ensures var st' := Next(st, Resize(s, cols, rows, true), capacity);
            && st'.sessions.Keys == st.sessions.Keys && (forall t :: t in st.sessions && t != s ==> st'.sessions[t] == st.sessions[t])
            && st'.sessions[s].info.cols == cols && st'.sessions[s].info.rows == rows
            && st'.sessions[s].info.sessionId == st.sessions[s].info.sessionId && st'.sessions[s].info in ListedInfos(st'.sessions)
            && st'.queued == st.queued && st'.streams == st.streams
  {
    assert s in Next(st, Resize(s, cols, rows, true), capacity).sessions;
  }
}
