/** Why a snapshot has to be taken while its PTY is running: between queueing a session's terminal event and
    dropping it from the table, the manager still answers snapshot requests, and the session id is free again
    on the server.

    The run is spelled out piece by piece: a session starts, prints a byte and ends while a snapshot request is
    being answered; then another one starts under the same id and prints a byte. Each piece is a short list of
    actions with the states in between, and the pieces are put together at the end. */
module StaleSnapshot {
  import opened Wire
  import opened PtyAgent

  const CAPACITY: nat := 10

  const INFO := SessionInfo("s", ["sh"], None, "", 1, 1, 1)

  const REQUEST := SpawnRequest("s", ["sh"], 1, 1)

  function Live(g: PtyId, pipe: seq<seq<Byte>>, held: Option<seq<Byte>>, eof: bool, ring: seq<Byte>, phase: Phase): Session {
    Session(g, INFO, pipe, held, eof, ring, false, phase)
  }

  /** A quiet manager: no lock, no command in hand, no signals sent. */
  function Quiet(sessions: map<SessionId, Session>, queued: seq<Frame>, owners: seq<SessionId>, streams: seq<seq<Byte>>,
                 verdicts: map<PtyId, bool>): State
  {
    State(sessions, Free, Idle, queued, owners, streams, {}, verdicts)
  }

  /** `st'` is reached from `st` by `actions`. */
  ghost predicate Leads(st: State, actions: seq<Action>, st': State)
    decreases |actions|
  {
    if actions == [] then st == st'
    else Enabled(st, actions[0]) && Leads(Next(st, actions[0], CAPACITY), actions[1..], st')
  }

  lemma {:induction false} LeadsOn(st: State, first: seq<Action>, middle: State, second: seq<Action>, st': State)
    requires Leads(st, first, middle) && Leads(middle, second, st')
    ensures Leads(st, first + second, st')
    decreases |first|
  {
    hide Enabled, Next;
    if first == [] {
      assert first + second == second;
    } else {
      assert (first + second)[1..] == first[1..] + second;
      LeadsOn(Next(st, first[0], CAPACITY), first[1..], middle, second, st');
    }
  }

  lemma RunGrows(states: seq<State>, actions: seq<Action>, a: Action)
    requires IsRun(states, actions, CAPACITY) && Enabled(states[|states| - 1], a)
    ensures IsRun(states + [Next(states[|states| - 1], a, CAPACITY)], actions + [a], CAPACITY)
  {
    hide Enabled, Next;
    var all, steps := states + [Next(states[|states| - 1], a, CAPACITY)], actions + [a];
    forall i {:trigger steps[i]} | 0 <= i < |steps| ensures Enabled(all[i], steps[i]) && all[i + 1] == Next(all[i], steps[i], CAPACITY) {
      if i < |actions| { assert steps[i] == actions[i] && all[i] == states[i] && all[i + 1] == states[i + 1]; }
    }
  }

  lemma {:induction false} LeadsIsRun(states: seq<State>, before: seq<Action>, actions: seq<Action>, st': State) returns (all: seq<State>)
    requires IsRun(states, before, CAPACITY) && Leads(states[|states| - 1], actions, st')
    ensures IsRun(all, before + actions, CAPACITY) && all[|all| - 1] == st'
    decreases |actions|
  {
    hide Enabled, Next;
    if actions == [] {
      all := states;
      assert before + actions == before;
    } else {
      var a, last := actions[0], states[|states| - 1];
      RunGrows(states, before, a);
      all := LeadsIsRun(states + [Next(last, a, CAPACITY)], before + [a], actions[1..], st');
      assert before + [a] + actions[1..] == before + actions;
    }
  }

  ghost predicate Does(st: State, a: Action, st': State) {
    Enabled(st, a) && st' == Next(st, a, CAPACITY)
  }

  /** One more action. */
  lemma Then(st: State, done: seq<Action>, middle: State, a: Action, st': State, all: seq<Action>)
    requires Leads(st, done, middle) && Does(middle, a, st') && all == done + [a]
    ensures Leads(st, all, st')
  {
    hide Enabled, Next;
    assert [a][1..] == [];
    assert Leads(middle, [a], st');
    hide Leads;
    LeadsOn(st, done, middle, [a], st');
  }

  function StartedFrame(g: PtyId): Frame {
    Frame(Some(g), SessionEvent("s", EventKind.Started))
  }

  function OutputFrame(g: PtyId, bytes: seq<Byte>): Frame {
    Frame(Some(g), SessionOutput("s", bytes))
  }

  const SPAWNING := [SpawnBegin(REQUEST), SpawnCheck(true), SpawnOpen(Some(INFO), ""), Publish]

  lemma Checks(s0: State, s1: State, s2: State)
    requires s0.task == Idle && s0.sessions == map[] && s1 == s0.(task := Checked(REQUEST)) && s2 == s0.(task := Opening(REQUEST))
    ensures Does(s0, SpawnBegin(REQUEST), s1) && Does(s1, SpawnCheck(true), s2)
  {
  }

  lemma Publishes(s3: State, s4: State)
    requires s3.task == Publishing("s") && "s" in s3.sessions
    requires var x := s3.sessions["s"];
             s4 == s3.(sessions := s3.sessions["s" := x.(phase := Running)], queued := s3.queued + [StartedFrame(x.pty)], task := Idle)
    ensures Does(s3, Publish, s4)
  {
  }

  lemma Opens(s2: State, s3: State)
    requires s2.task == Opening(REQUEST) && s2.sessions == map[] && |s2.owners| == |s2.streams|
    requires s3 == s2.(sessions := map["s" := Live(|s2.owners|, [], None, false, [], Starting)], owners := s2.owners + ["s"],
                       streams := s2.streams + [[]], task := Publishing("s"))
    ensures Does(s2, SpawnOpen(Some(INFO), ""), s3)
  {
  }

  lemma Spawns(queued: seq<Frame>, owners: seq<SessionId>, streams: seq<seq<Byte>>, verdicts: map<PtyId, bool>)
    requires |owners| == |streams|
    ensures var g := |owners|;
            Leads(Quiet(map[], queued, owners, streams, verdicts), SPAWNING,
                  Quiet(map["s" := Live(g, [], None, false, [], Running)], queued + [StartedFrame(g)], owners + ["s"],
                        streams + [[]], verdicts))
  {
    var g := |owners|;
    var s0 := Quiet(map[], queued, owners, streams, verdicts);
    var s1, s2 := s0.(task := Checked(REQUEST)), s0.(task := Opening(REQUEST));
    var s3 := Quiet(map["s" := Live(g, [], None, false, [], Starting)], queued, owners + ["s"], streams + [[]], verdicts)
                .(task := Publishing("s"));
    var s4 := Quiet(map["s" := Live(g, [], None, false, [], Running)], queued + [StartedFrame(g)], owners + ["s"],
                    streams + [[]], verdicts);
    assert Leads(s0, [], s0);
    hide Leads;
    Checks(s0, s1, s2);
    Opens(s2, s3);
    Publishes(s3, s4);
    hide Does;
    Then(s0, [], s0, SpawnBegin(REQUEST), s1, SPAWNING[..1]);
    Then(s0, SPAWNING[..1], s1, SpawnCheck(true), s2, SPAWNING[..2]);
    Then(s0, SPAWNING[..2], s2, SpawnOpen(Some(INFO), ""), s3, SPAWNING[..3]);
    Then(s0, SPAWNING[..3], s3, Publish, s4, SPAWNING);
  }

  function Printing(b: Byte): seq<Action> {
    [Produce("s", [b]), Receive("s"), ReaderLock("s"), Append("s"), Flush("s")]
  }

  function Taking(g: PtyId, b: Byte, queued: seq<Frame>, owners: seq<SessionId>, streams: seq<seq<Byte>>,
                  verdicts: map<PtyId, bool>): State
  {
    Quiet(map["s" := Live(g, [], Some([b]), false, [], Running)], queued, owners, streams, verdicts)
  }

  lemma Produces(g: PtyId, b: Byte, queued: seq<Frame>, owners: seq<SessionId>, streams: seq<seq<Byte>>, verdicts: map<PtyId, bool>)
    requires g < |streams| && streams[g] == []
    ensures Does(Quiet(map["s" := Live(g, [], None, false, [], Running)], queued, owners, streams, verdicts), Produce("s", [b]),
                 Quiet(map["s" := Live(g, [[b]], None, false, [], Running)], queued, owners, streams[g := [b]], verdicts))
  {
    assert streams[g] + [b] == [b] && [] + [[b]] == [[b]];
  }

  lemma Receives(g: PtyId, b: Byte, queued: seq<Frame>, owners: seq<SessionId>, streams: seq<seq<Byte>>, verdicts: map<PtyId, bool>)
    ensures Does(Quiet(map["s" := Live(g, [[b]], None, false, [], Running)], queued, owners, streams, verdicts), Receive("s"),
                 Taking(g, b, queued, owners, streams, verdicts))
  {
    assert [[b]][1..] == [];
  }

  lemma Reads(g: PtyId, b: Byte, queued: seq<Frame>, owners: seq<SessionId>, streams: seq<seq<Byte>>, verdicts: map<PtyId, bool>)
    requires g < |streams| && streams[g] == []
    ensures Leads(Quiet(map["s" := Live(g, [], None, false, [], Running)], queued, owners, streams, verdicts), Printing(b)[..2],
                  Taking(g, b, queued, owners, streams[g := [b]], verdicts))
  {
    var after := streams[g := [b]];
    var s0 := Quiet(map["s" := Live(g, [], None, false, [], Running)], queued, owners, streams, verdicts);
    var s1 := Quiet(map["s" := Live(g, [[b]], None, false, [], Running)], queued, owners, after, verdicts);
    Produces(g, b, queued, owners, streams, verdicts);
    Receives(g, b, queued, owners, after, verdicts);
    assert Leads(s0, [], s0);
    hide Leads, Does;
    Then(s0, [], s0, Produce("s", [b]), s1, Printing(b)[..1]);
    Then(s0, Printing(b)[..1], s1, Receive("s"), Taking(g, b, queued, owners, after, verdicts), Printing(b)[..2]);
  }

  lemma TakesLock(s2: State, s3: State)
    requires Reading(s2, "s") && s2.sessions["s"].held.Some? && s2.lock == Free && s3 == s2.(lock := Reader("s", []))
    ensures Does(s2, ReaderLock("s"), s3)
  {
  }

  lemma Appends(g: PtyId, b: Byte, queued: seq<Frame>, owners: seq<SessionId>, streams: seq<seq<Byte>>, verdicts: map<PtyId, bool>)
    ensures Does(Taking(g, b, queued, owners, streams, verdicts).(lock := Reader("s", [])), Append("s"),
                 Quiet(map["s" := Live(g, [], None, false, [b], Running)], queued, owners, streams, verdicts)
                   .(lock := Reader("s", [b])))
  {
    assert [] + [b] == [b];
  }

  lemma Flushes(g: PtyId, b: Byte, queued: seq<Frame>, owners: seq<SessionId>, streams: seq<seq<Byte>>, verdicts: map<PtyId, bool>)
    ensures var running := Quiet(map["s" := Live(g, [], None, false, [b], Running)], queued, owners, streams, verdicts);
            Does(running.(lock := Reader("s", [b])), Flush("s"), running.(queued := queued + [OutputFrame(g, [b])]))
  {
  }

  lemma Sends(g: PtyId, b: Byte, queued: seq<Frame>, owners: seq<SessionId>, streams: seq<seq<Byte>>, verdicts: map<PtyId, bool>)
    ensures Leads(Taking(g, b, queued, owners, streams, verdicts), Printing(b)[2..],
                  Quiet(map["s" := Live(g, [], None, false, [b], Running)], queued + [OutputFrame(g, [b])], owners, streams, verdicts))
  {
    var s2 := Taking(g, b, queued, owners, streams, verdicts);
    var s3 := s2.(lock := Reader("s", []));
    var s4 := Quiet(map["s" := Live(g, [], None, false, [b], Running)], queued, owners, streams, verdicts).(lock := Reader("s", [b]));
    var s5 := Quiet(map["s" := Live(g, [], None, false, [b], Running)], queued + [OutputFrame(g, [b])], owners, streams, verdicts);
    var acts := Printing(b)[2..];
    Appends(g, b, queued, owners, streams, verdicts);
    Flushes(g, b, queued, owners, streams, verdicts);
    TakesLock(s2, s3);
    assert Leads(s2, [], s2);
    hide Leads, Does;
    Then(s2, [], s2, ReaderLock("s"), s3, acts[..1]);
    Then(s2, acts[..1], s3, Append("s"), s4, acts[..2]);
    Then(s2, acts[..2], s4, Flush("s"), s5, acts);
  }

  lemma Prints(g: PtyId, b: Byte, queued: seq<Frame>, owners: seq<SessionId>, streams: seq<seq<Byte>>, verdicts: map<PtyId, bool>)
    requires g < |streams| && streams[g] == []
    ensures Leads(Quiet(map["s" := Live(g, [], None, false, [], Running)], queued, owners, streams, verdicts), Printing(b),
                  Quiet(map["s" := Live(g, [], None, false, [b], Running)], queued + [OutputFrame(g, [b])], owners,
                        streams[g := [b]], verdicts))
  {
    hide Leads;
    Reads(g, b, queued, owners, streams, verdicts);
    Sends(g, b, queued, owners, streams[g := [b]], verdicts);
    assert Printing(b)[..2] + Printing(b)[2..] == Printing(b);
    LeadsOn(Quiet(map["s" := Live(g, [], None, false, [], Running)], queued, owners, streams, verdicts), Printing(b)[..2],
            Taking(g, b, queued, owners, streams[g := [b]], verdicts), Printing(b)[2..],
            Quiet(map["s" := Live(g, [], None, false, [b], Running)], queued + [OutputFrame(g, [b])], owners, streams[g := [b]], verdicts));
  }

  const ENDING :=
    [Action.Eof("s"), Decide("s"), DumpBegin("s"), Report("s", 0), DumpLock, DumpRead, DumpSend, Remove("s")]

  const ANSWERING := [DumpLock, DumpRead, DumpSend, Remove("s")]

  function ExitedFrame(): Frame {
    Frame(Some(0), SessionEvent("s", Exited(0)))
  }

  /** The output is at its end, and the dispatcher has just been asked for a snapshot. */
  function Asked(bytes: seq<Byte>, queued: seq<Frame>, streams: seq<seq<Byte>>, phase: Phase): State {
    Quiet(map["s" := Live(0, [], None, true, bytes, phase)], queued, ["s"], streams, map[0 := false]).(task := Dumping("s"))
  }

  lemma EofThenDecide(bytes: seq<Byte>, queued: seq<Frame>, streams: seq<seq<Byte>>)
    ensures var s0 := Quiet(map["s" := Live(0, [], None, false, bytes, Running)], queued, ["s"], streams, map[]);
            var s1 := s0.(sessions := map["s" := Live(0, [], None, true, bytes, Running)]);
            && Does(s0, Action.Eof("s"), s1)
            && Does(s1, Decide("s"), Asked(bytes, queued, streams, Deciding(false)).(task := Idle))
  {
  }

  lemma Finishes(bytes: seq<Byte>, queued: seq<Frame>, streams: seq<seq<Byte>>)
    ensures Leads(Quiet(map["s" := Live(0, [], None, false, bytes, Running)], queued, ["s"], streams, map[]), ENDING[..3],
                  Asked(bytes, queued, streams, Deciding(false)))
  {
    var s0 := Quiet(map["s" := Live(0, [], None, false, bytes, Running)], queued, ["s"], streams, map[]);
    var s1 := s0.(sessions := map["s" := Live(0, [], None, true, bytes, Running)]);
    var s2 := Asked(bytes, queued, streams, Deciding(false)).(task := Idle);
    assert Leads(s0, [], s0);
    EofThenDecide(bytes, queued, streams);
    assert Does(s2, DumpBegin("s"), Asked(bytes, queued, streams, Deciding(false)));
    hide Leads, Does;
    Then(s0, [], s0, Action.Eof("s"), s1, ENDING[..1]);
    Then(s0, ENDING[..1], s1, Decide("s"), s2, ENDING[..2]);
    Then(s0, ENDING[..2], s2, DumpBegin("s"), Asked(bytes, queued, streams, Deciding(false)), ENDING[..3]);
  }

  lemma Reports(bytes: seq<Byte>, queued: seq<Frame>, streams: seq<seq<Byte>>)
    ensures Does(Asked(bytes, queued, streams, Deciding(false)), Action.Report("s", 0),
                 Asked(bytes, queued + [ExitedFrame()], streams, Reported))
  {
  }

  /** The session ends while the dispatcher has a snapshot request at hand. */
  lemma EndsAsked(bytes: seq<Byte>, queued: seq<Frame>, streams: seq<seq<Byte>>)
    ensures Leads(Quiet(map["s" := Live(0, [], None, false, bytes, Running)], queued, ["s"], streams, map[]), ENDING[..4],
                  Asked(bytes, queued + [ExitedFrame()], streams, Reported))
  {
    var s0 := Quiet(map["s" := Live(0, [], None, false, bytes, Running)], queued, ["s"], streams, map[]);
    Finishes(bytes, queued, streams);
    Reports(bytes, queued, streams);
    hide Leads, Does;
    Then(s0, ENDING[..3], Asked(bytes, queued, streams, Deciding(false)), Action.Report("s", 0),
         Asked(bytes, queued + [ExitedFrame()], streams, Reported), ENDING[..4]);
  }

  lemma Snapshots(s4: State, s5: State, s6: State, bytes: seq<Byte>)
    requires s4.sessions == map["s" := Live(0, [], None, true, bytes, Reported)] && s4.task == Dumping("s") && s4.lock == Free
    requires s5 == s4.(lock := Dumper("s", None)) && s6 == s4.(lock := Dumper("s", Some((Some(0), bytes))))
    ensures Does(s4, DumpLock, s5) && Does(s5, DumpRead, s6)
  {
  }

  lemma Removes(s7: State, s8: State)
    requires "s" in s7.sessions && s7.sessions["s"].phase.Reported? && s7.sessions.Keys == {"s"} && s8 == s7.(sessions := map[])
    ensures Does(s7, Remove("s"), s8)
  {
  }

  /** The request is answered from the ended session, and only then the session goes. */
  lemma Answers(s4: State, bytes: seq<Byte>, told: seq<Frame>)
    requires s4 == Quiet(map["s" := Live(0, [], None, true, bytes, Reported)], told, s4.owners, s4.streams, s4.verdicts)
                     .(task := Dumping("s"))
    ensures Leads(s4, ANSWERING,
                  Quiet(map[], told + [Frame(Some(0), ScrollbackDump("s", bytes))], s4.owners, s4.streams, s4.verdicts))
  {
    var s5 := s4.(lock := Dumper("s", None));
    var s6 := s4.(lock := Dumper("s", Some((Some(0), bytes))));
    var s7 := s4.(queued := told + [Frame(Some(0), ScrollbackDump("s", bytes))], task := Idle);
    var s8 := Quiet(map[], told + [Frame(Some(0), ScrollbackDump("s", bytes))], s4.owners, s4.streams, s4.verdicts);
    var acts := ANSWERING;
    assert Leads(s4, [], s4);
    hide Leads;
    Snapshots(s4, s5, s6, bytes);
    assert Does(s6, DumpSend, s7);
    Removes(s7, s8);
    hide Does;
    Then(s4, [], s4, DumpLock, s5, acts[..1]);
    Then(s4, acts[..1], s5, DumpRead, s6, acts[..2]);
    Then(s4, acts[..2], s6, DumpSend, s7, acts[..3]);
    Then(s4, acts[..3], s7, Remove("s"), s8, acts);
  }

  /** The snapshot goes out after the terminal event. */
  lemma Ends(bytes: seq<Byte>, queued: seq<Frame>, streams: seq<seq<Byte>>)
    ensures Leads(Quiet(map["s" := Live(0, [], None, false, bytes, Running)], queued, ["s"], streams, map[]), ENDING,
                  Quiet(map[], queued + [ExitedFrame(), Frame(Some(0), ScrollbackDump("s", bytes))],
                        ["s"], streams, map[0 := false]))
  {
    var dump := Frame(Some(0), ScrollbackDump("s", bytes));
    var s0 := Quiet(map["s" := Live(0, [], None, false, bytes, Running)], queued, ["s"], streams, map[]);
    var s4 := Asked(bytes, queued + [ExitedFrame()], streams, Reported);
    var s8 := Quiet(map[], queued + [ExitedFrame(), dump], ["s"], streams, map[0 := false]);
    assert queued + [ExitedFrame()] + [dump] == queued + [ExitedFrame(), dump];
    EndsAsked(bytes, queued, streams);
    hide Leads;
    Answers(s4, bytes, queued + [ExitedFrame()]);
    assert ENDING == ENDING[..4] + ANSWERING;
    LeadsOn(s0, ENDING[..4], s4, ANSWERING, s8);
  }

  const MESSAGES: seq<AgentMessage> :=
    [SessionEvent("s", EventKind.Started), SessionOutput("s", [1]), SessionEvent("s", Exited(0)), ScrollbackDump("s", [1]),
     SessionEvent("s", EventKind.Started), SessionOutput("s", [2])]

  function Carried(frames: seq<Frame>): seq<AgentMessage> {
    seq(|frames|, i requires 0 <= i < |frames| => frames[i].msg)
  }

  lemma LastBytes()
    ensures MESSAGES[3].data + OutputBytes(MESSAGES[4..], "s") == [1, 2]
  {
    var rest := [SessionEvent("s", EventKind.Started), SessionOutput("s", [2])];
    assert MESSAGES[4..] == rest && rest[..1] == [SessionEvent("s", EventKind.Started)] && rest[..1][..0] == [];
    assert OutputBytes(rest[..1], "s") == [];
  }

  /** A run whose channel carries a snapshot of a session that has ended, followed by the output of its successor
      under the same id. What follows the snapshot is the end of no PTY's output. */
  lemma StaleSnapshotMixesSessions() returns (states: seq<State>, actions: seq<Action>)
    ensures IsRun(states, actions, CAPACITY)
    ensures var st := states[|states| - 1];
            && Carried(st.queued) == MESSAGES && st.streams == [[1], [2]]
            && MESSAGES[3].data + OutputBytes(MESSAGES[4..], "s") == [1, 2]
  {
    hide Leads, Next, Enabled, OutputBytes;
    actions := SPAWNING + Printing(1) + ENDING + SPAWNING + Printing(2);
    var q1 := [StartedFrame(0)];
    var q2 := q1 + [OutputFrame(0, [1])];
    var q3 := q2 + [ExitedFrame(), Frame(Some(0), ScrollbackDump("s", [1]))];
    var q4 := q3 + [StartedFrame(1)];
    var q5 := q4 + [OutputFrame(1, [2])];
    var s1 := Quiet(map["s" := Live(0, [], None, false, [], Running)], q1, ["s"], [[]], map[]);
    var s2 := Quiet(map["s" := Live(0, [], None, false, [1], Running)], q2, ["s"], [[1]], map[]);
    var s3 := Quiet(map[], q3, ["s"], [[1]], map[0 := false]);
    var s4 := Quiet(map["s" := Live(1, [], None, false, [], Running)], q4, ["s", "s"], [[1], []], map[0 := false]);
    var s5 := Quiet(map["s" := Live(1, [], None, false, [2], Running)], q5, ["s", "s"], [[1], [2]], map[0 := false]);
    var t0: seq<seq<Byte>>, t1: seq<seq<Byte>> := [[]], [[1]];
    var t2: seq<seq<Byte>>, t3: seq<seq<Byte>> := [[1], []], [[1], [2]];
    assert [] + q1 == q1 && [] + ["s"] == ["s"] && ["s"] + ["s"] == ["s", "s"];
    assert [] + t0 == t0 && t0[0 := [1]] == t1 && t1 + [[]] == t2 && t2[1 := [2]] == t3;
    Spawns([], [], [], map[]);
    Prints(0, 1, q1, ["s"], [[]], map[]);
    Ends([1], q2, [[1]]);
    Spawns(q3, ["s"], [[1]], map[0 := false]);
    Prints(1, 2, q4, ["s", "s"], [[1], []], map[0 := false]);
    LeadsOn(INITIAL, SPAWNING, s1, Printing(1), s2);
    LeadsOn(INITIAL, SPAWNING + Printing(1), s2, ENDING, s3);
    LeadsOn(INITIAL, SPAWNING + Printing(1) + ENDING, s3, SPAWNING, s4);
    LeadsOn(INITIAL, SPAWNING + Printing(1) + ENDING + SPAWNING, s4, Printing(2), s5);
    states := LeadsIsRun([INITIAL], [], actions, s5);
    assert [] + actions == actions;
    LastBytes();
  }
}
