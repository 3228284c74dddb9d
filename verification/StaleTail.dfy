/** What a browser sees of a snapshot taken too late: a whole run, from the agent's PTYs to the browser's queue, in
    which a browser follows a session, is sent a snapshot of its predecessor, and then the session's own output.

    The agent connects with a session that has printed a byte. The session ends, and the server hears of it; a
    browser spawns it again and so follows it. Only then the agent answers a snapshot request it took earlier,
    drops the old session, starts the new one and forwards its first byte. */
module StaleTail {
  import opened Wire
  import opened ConnectRegistry
  import opened RegistryProperties
  import opened RelayLink
  import P = PtyAgent
  import I = PtyInvariant
  import Q = PtyProperties
  import S = StaleSnapshot
  import T = TerminalTail

  const ME: AgentId := "agent"

  const BROWSER: BrowserId := 1

  const OWNER := Owner("workspace", "user")

  const SPAWN := SpawnSession("s", ["sh"], None, [], 1, 1)

  // ---------------------------------------------------------------- the registry

  /** One agent and one browser of one owner; `session` is whether `s` is routed. */
  function Tables(inbox: seq<ServerMessage>, session: bool, listed: bool, sent: seq<AgentMessage>, follows: bool): Registry {
    Registry(map[ME := ConnectRegistry.Agent.Agent(OWNER, Channel(inbox, 0, true))],
             if session then map["s" := ME] else map[],
             if listed then map["s" := S.INFO] else map[],
             map[BROWSER := Browser(OWNER, Channel(sent, 0, true), if follows then {"s"} else {})])
  }

  const GREETED: seq<AgentMessage> := [Ready("", "", ""), SessionList([S.INFO])]

  const DUMP := ScrollbackDump("s", [1])

  const STARTED := SessionEvent("s", EventKind.Started)

  const OUTPUT := SessionOutput("s", [2])

  lemma TablesConsistent()
    ensures Consistent(Tables([], false, false, [], false))
  {
  }

  lemma ReadyHandled()
    ensures AgentFrame(Tables([], false, false, [], false), ME, GREETED[0], []) == Tables([], false, false, GREETED[..1], false)
  {
    assert [] + [GREETED[0]] == GREETED[..1];
  }

  lemma Accepted()
    ensures var infos := [S.INFO];
            && AcceptRoutes(map[], ME, infos) == map["s" := ME] && AcceptInfos(map[], map[], ME, infos) == map["s" := S.INFO]
            && AcceptedIds(map[], ME, infos) == {"s"}
  {
    var infos := [S.INFO];
    assert infos[..0] == [];
    assert AcceptRoutes(map[], ME, infos[..0]) == map[];
    assert S.INFO in infos;
  }

  lemma Reconciled()
    ensures Reconcile(Tables([], false, false, GREETED[..1], false), ME, [S.INFO]) == Tables([], true, true, GREETED[..1], false)
  {
    var r, r' := Tables([], false, false, GREETED[..1], false), Reconcile(Tables([], false, false, GREETED[..1], false), ME, [S.INFO]);
    Accepted();
    hide AcceptRoutes, AcceptInfos, AcceptedIds;
    var none: set<SessionId> := {};
    assert none * {"s"} == none;
    assert r'.sessions == map["s" := ME] && r'.infos == map["s" := S.INFO];
    assert r'.sessions.Keys == {"s"};
    assert r'.browsers == r.browsers;
  }

  lemma ListedInfo()
    ensures OwnerInfos(Tables([], true, true, GREETED[..1], false), OWNER) == {S.INFO}
  {
    var r := Tables([], true, true, GREETED[..1], false);
    assert "s" in r.infos && r.infos["s"] == S.INFO && OwnedRoute(r, "s", OWNER);
    assert forall s :: s in r.infos ==> s == "s";
  }

  lemma ListHandled()
    ensures var r := Tables([], false, false, GREETED[..1], false);
            && Allowed(r, Frame(ME, GREETED[1], [S.INFO]))
            && AgentFrame(r, ME, GREETED[1], [S.INFO]) == Tables([], true, true, GREETED, false)
  {
    Reconciled();
    hide Reconcile;
    ListedInfo();
    hide OwnerInfos;
    assert GREETED[..1] + [GREETED[1]] == GREETED;
  }

  lemma ExitHandled()
    ensures AgentFrame(Tables([], true, true, GREETED, false), ME, S.ExitedFrame().msg, [])
            == Tables([], false, false, GREETED, false)
  {
    var r := Tables([], true, true, GREETED, false);
    assert map["s" := ME] - {"s"} == map[] && map["s" := S.INFO] - {"s"} == map[];
    assert Broadcast(r.browsers, OWNER, Some("s"), S.ExitedFrame().msg) == r.browsers;
    var none: set<SessionId> := {};
    assert none - {"s"} == none;
    assert Unfollow(r.browsers, {"s"}) == r.browsers;
  }

  lemma SpawnHandled()
    ensures var r := Tables([], false, false, GREETED, false);
            && Allowed(r, Command(BROWSER, SPAWN, [ME]))
            && Apply(r, Command(BROWSER, SPAWN, [ME])) == Tables([SPAWN], true, false, GREETED, true)
  {
    var r := Tables([], false, false, GREETED, false);
    assert ["sh"][..0] == [] && TotalLength(["sh"]) == 2;
    assert RoutesOf(r, ME) == {};
    assert [] + [SPAWN] == [SPAWN];
  }

  lemma FrameHandled(sent: seq<AgentMessage>, msg: AgentMessage)
    requires |sent| < 10 && (msg == DUMP || msg == STARTED || msg == OUTPUT)
    ensures AgentFrame(Tables([SPAWN], true, false, sent, true), ME, msg, []) == Tables([SPAWN], true, false, sent + [msg], true)
  {
  }

  // ---------------------------------------------------------------- building the run

  lemma RunThen(links: seq<Link>, steps: seq<LinkStep>, step: LinkStep, l: Link)
    requires IsLinkRun(links, steps, ME, S.CAPACITY) && LinkStepped(links[|links| - 1], step, l, ME, S.CAPACITY)
    ensures IsLinkRun(links + [l], steps + [step], ME, S.CAPACITY)
  {
    hide Connected, LinkStepped;
    var all, done := links + [l], steps + [step];
    forall i {:trigger done[i]} | 0 <= i < |done| ensures LinkStepped(all[i], done[i], all[i + 1], ME, S.CAPACITY) {
      if i < |steps| { assert done[i] == steps[i] && all[i] == links[i] && all[i + 1] == links[i + 1]; }
    }
  }

  lemma RunOn(links: seq<Link>, steps: seq<LinkStep>, step: LinkStep, l: Link) returns (links': seq<Link>, steps': seq<LinkStep>)
    requires IsLinkRun(links, steps, ME, S.CAPACITY) && LinkStepped(links[|links| - 1], step, l, ME, S.CAPACITY)
    ensures IsLinkRun(links', steps', ME, S.CAPACITY) && links' == links + [l] && steps' == steps + [step]
  {
    hide LinkStepped;
    RunThen(links, steps, step, l);
    links', steps' := links + [l], steps + [step];
  }

  lemma {:induction false} RunAgent(links: seq<Link>, steps: seq<LinkStep>, actions: seq<P.Action>, st: P.State)
    returns (links': seq<Link>, steps': seq<LinkStep>)
    requires IsLinkRun(links, steps, ME, S.CAPACITY) && S.Leads(links[|links| - 1].agent, actions, st)
    ensures IsLinkRun(links', steps', ME, S.CAPACITY)
    ensures links'[|links'| - 1] == links[|links| - 1].(agent := st)
    decreases |actions|
  {
    hide P.Enabled, P.Next;
    assert |links| > 0;
    hide IsLinkRun;
    if actions == [] {
      links', steps' := links, steps;
    } else {
      var last := links[|links| - 1];
      var l := last.(agent := P.Next(last.agent, actions[0], S.CAPACITY));
      RunThen(links, steps, LinkStep.Agent(actions[0]), l);
      links', steps' := RunAgent(links + [l], steps + [LinkStep.Agent(actions[0])], actions[1..], st);
    }
  }

  // ---------------------------------------------------------------- the run

  const BEFORE: seq<P.Frame> := [S.StartedFrame(0), S.OutputFrame(0, [1])]

  const EXITED: seq<P.Frame> := BEFORE + [S.ExitedFrame()]

  const ALL: seq<P.Frame> := EXITED + [P.Frame(Some(0), DUMP), S.StartedFrame(1), S.OutputFrame(1, [2])]

  const RUNNING := S.Quiet(map["s" := S.Live(0, [], None, false, [1], P.Running)], BEFORE, ["s"], [[1]], map[])

  const ENDED := S.Asked([1], EXITED, [[1]], P.Reported)

  const AGAIN := S.Quiet(map["s" := S.Live(1, [], None, false, [2], P.Running)], ALL, ["s", "s"], [[1], [2]], map[0 := false])

  function At(agent: P.State, reg: Registry, forwarded: nat, received: nat): Link {
    Link(agent, reg, GREETED, 2, forwarded, received)
  }

  const UNROUTED := Tables([], false, false, GREETED, false)

  const SPAWNED := Tables([SPAWN], true, false, GREETED, true)

  lemma FromTheStart(actions: seq<P.Action>, st: P.State)
    requires S.Leads(P.INITIAL, actions, st)
    ensures I.Inv(st, S.CAPACITY)
  {
    hide S.Leads, I.Inv;
    var states := S.LeadsIsRun([P.INITIAL], [], actions, st);
    Q.RunKeepsInv(states, [] + actions, S.CAPACITY, |states| - 1);
  }

  lemma RunningIsReached()
    ensures I.Inv(RUNNING, S.CAPACITY)
  {
    hide S.Leads, P.IsRun, I.Inv;
    var t0: seq<seq<Byte>> := [[]];
    assert [] + [S.StartedFrame(0)] == BEFORE[..1] && [] + ["s"] == ["s"] && [] + [[]] == t0 && t0[0 := [1]] == [[1]];
    S.Spawns([], [], [], map[]);
    S.Prints(0, 1, BEFORE[..1], ["s"], t0, map[]);
    assert BEFORE[..1] + [S.OutputFrame(0, [1])] == BEFORE;
    var started := S.Quiet(map["s" := S.Live(0, [], None, false, [], P.Running)], BEFORE[..1], ["s"], t0, map[]);
    S.LeadsOn(P.INITIAL, S.SPAWNING, started, S.Printing(1), RUNNING);
    FromTheStart(S.SPAWNING + S.Printing(1), RUNNING);
  }

  lemma EndedIsReached()
    ensures S.Leads(RUNNING, S.ENDING[..4], ENDED)
  {
    S.EndsAsked([1], BEFORE, [[1]]);
  }

  lemma AgainIsReached()
    ensures S.Leads(ENDED, S.ANSWERING + S.SPAWNING + S.Printing(2), AGAIN)
  {
    hide S.Leads;
    var answered := EXITED + [P.Frame(Some(0), DUMP)];
    var started := answered + [S.StartedFrame(1)];
    var t1: seq<seq<Byte>>, t2: seq<seq<Byte>> := [[1]], [[1], []];
    assert t1 + [[]] == t2 && t2[1 := [2]] == [[1], [2]] && ["s"] + ["s"] == ["s", "s"];
    assert started + [S.OutputFrame(1, [2])] == ALL;
    var gone := S.Quiet(map[], answered, ["s"], t1, map[0 := false]);
    var anew := S.Quiet(map["s" := S.Live(1, [], None, false, [], P.Running)], started, ["s", "s"], t2, map[0 := false]);
    S.Answers(ENDED, [1], EXITED);
    S.Spawns(answered, ["s"], t1, map[0 := false]);
    S.Prints(1, 2, started, ["s", "s"], t2, map[0 := false]);
    S.LeadsOn(ENDED, S.ANSWERING, gone, S.SPAWNING, anew);
    S.LeadsOn(ENDED, S.ANSWERING + S.SPAWNING, anew, S.Printing(2), AGAIN);
  }

  lemma Greeted()
    ensures var l0 := At(RUNNING, Tables([], false, false, [], false), 2, 0);
            var l1 := At(RUNNING, Tables([], false, false, GREETED[..1], false), 2, 1);
            var l2 := At(RUNNING, Tables([], true, true, GREETED, false), 2, 2);
            && IsLinkRun([l0], [], ME, S.CAPACITY)
            && LinkStepped(l0, Deliver([]), l1, ME, S.CAPACITY) && LinkStepped(l1, Deliver([S.INFO]), l2, ME, S.CAPACITY)
  {
    RunningIsReached();
    TablesConsistent();
    ReadyHandled();
    ListHandled();
    hide I.Inv, AgentFrame, Consistent;
    assert SessionIds([S.INFO]) == {"s"};
  }

  lemma ExitAndSpawnStepped()
    ensures var r := Tables([], true, true, GREETED, false);
            && LinkStepped(At(ENDED, r, 2, 2), Forward, At(ENDED, r, 3, 2), ME, S.CAPACITY)
            && LinkStepped(At(ENDED, r, 3, 2), Deliver([]), At(ENDED, UNROUTED, 3, 3), ME, S.CAPACITY)
            && LinkStepped(At(ENDED, UNROUTED, 3, 3), Server(Command(BROWSER, SPAWN, [ME])), At(ENDED, SPAWNED, 3, 3), ME, S.CAPACITY)
  {
    ExitHandled();
    SpawnHandled();
    hide AgentFrame, Apply;
  }

  lemma ExitedAndSpawned(links: seq<Link>, steps: seq<LinkStep>) returns (links': seq<Link>, steps': seq<LinkStep>)
    requires IsLinkRun(links, steps, ME, S.CAPACITY) && |links| > 0
    requires links[|links| - 1] == At(ENDED, Tables([], true, true, GREETED, false), 2, 2)
    ensures IsLinkRun(links', steps', ME, S.CAPACITY) && links'[|links'| - 1] == At(ENDED, SPAWNED, 3, 3)
  {
    hide IsLinkRun;
    var r := Tables([], true, true, GREETED, false);
    ExitAndSpawnStepped();
    hide LinkStepped, At, Tables;
    links', steps' := RunOn(links, steps, Forward, At(ENDED, r, 3, 2));
    links', steps' := RunOn(links', steps', Deliver([]), At(ENDED, UNROUTED, 3, 3));
    links', steps' := RunOn(links', steps', Server(Command(BROWSER, SPAWN, [ME])), At(ENDED, SPAWNED, 3, 3));
  }

  /** The agent's session is listed, ends, and is spawned again by the browser. */
  lemma SpawnedAgain() returns (links: seq<Link>, steps: seq<LinkStep>)
    ensures IsLinkRun(links, steps, ME, S.CAPACITY) && links[|links| - 1] == At(ENDED, SPAWNED, 3, 3)
  {
    var l0 := At(RUNNING, Tables([], false, false, [], false), 2, 0);
    var l1 := At(RUNNING, Tables([], false, false, GREETED[..1], false), 2, 1);
    var l2 := At(RUNNING, Tables([], true, true, GREETED, false), 2, 2);
    links, steps := [l0], [];
    Greeted();
    RunThen(links, steps, Deliver([]), l1);
    links, steps := links + [l1], steps + [Deliver([])];
    RunThen(links, steps, Deliver([S.INFO]), l2);
    links, steps := links + [l2], steps + [Deliver([S.INFO])];
    EndedIsReached();
    hide IsLinkRun, LinkStepped, S.Leads;
    links, steps := RunAgent(links, steps, S.ENDING[..4], ENDED);
    links, steps := ExitedAndSpawned(links, steps);
  }

  lemma RunCounts(links: seq<Link>, steps: seq<LinkStep>)
    requires IsLinkRun(links, steps, ME, S.CAPACITY)
    ensures |links| == |steps| + 1
  {
  }

  /** The agent answers, starts the new session and forwards what it queued; the browser has been sent none of it. */
  lemma AllForwarded() returns (links: seq<Link>, steps: seq<LinkStep>)
    ensures IsLinkRun(links, steps, ME, S.CAPACITY) && |links| == |steps| + 1 && links[|links| - 1] == At(AGAIN, SPAWNED, 6, 3)
  {
    links, steps := SpawnedAgain();
    AgainIsReached();
    hide IsLinkRun, S.Leads;
    links, steps := RunAgent(links, steps, S.ANSWERING + S.SPAWNING + S.Printing(2), AGAIN);
    links, steps := RunOn(links, steps, Forward, At(AGAIN, SPAWNED, 4, 3));
    links, steps := RunOn(links, steps, Forward, At(AGAIN, SPAWNED, 5, 3));
    links, steps := RunOn(links, steps, Forward, At(AGAIN, SPAWNED, 6, 3));
    RunCounts(links, steps);
  }

  function Sent(n: nat): Registry
    requires n <= 3
  {
    Tables([SPAWN], true, false, GREETED + [DUMP, STARTED, OUTPUT][..n], true)
  }

  lemma DeliveredNext(n: nat)
    requires n < 3
    ensures LinkStepped(At(AGAIN, Sent(n), 6, 3 + n), Deliver([]), At(AGAIN, Sent(n + 1), 6, 4 + n), ME, S.CAPACITY)
  {
    var msgs := [DUMP, STARTED, OUTPUT];
    FrameHandled(GREETED + msgs[..n], msgs[n]);
    assert GREETED + msgs[..n] + [msgs[n]] == GREETED + msgs[..n + 1];
    assert ALL[3 + n].msg == msgs[n];
    hide AgentFrame;
  }

  lemma DeliverThree(before: seq<Link>, done: seq<LinkStep>, l1: Link, l2: Link, l3: Link) returns (links: seq<Link>, steps: seq<LinkStep>)
    requires |before| == |done| + 1 && IsLinkRun(before, done, ME, S.CAPACITY)
    requires LinkStepped(before[|done|], Deliver([]), l1, ME, S.CAPACITY)
    requires LinkStepped(l1, Deliver([]), l2, ME, S.CAPACITY) && LinkStepped(l2, Deliver([]), l3, ME, S.CAPACITY)
    ensures IsLinkRun(links, steps, ME, S.CAPACITY) && steps == done + [Deliver([]), Deliver([]), Deliver([])]
    ensures links == before + [l1, l2, l3]
  {
    hide IsLinkRun, LinkStepped;
    links, steps := RunOn(before, done, Deliver([]), l1);
    links, steps := RunOn(links, steps, Deliver([]), l2);
    links, steps := RunOn(links, steps, Deliver([]), l3);
  }

  lemma DeliveredAll(before: seq<Link>, done: seq<LinkStep>) returns (links: seq<Link>, steps: seq<LinkStep>)
    requires |before| == |done| + 1 && IsLinkRun(before, done, ME, S.CAPACITY) && before[|done|] == At(AGAIN, Sent(0), 6, 3)
    ensures IsLinkRun(links, steps, ME, S.CAPACITY) && steps == done + [Deliver([]), Deliver([]), Deliver([])]
    ensures links == before + [At(AGAIN, Sent(1), 6, 4), At(AGAIN, Sent(2), 6, 5), At(AGAIN, Sent(3), 6, 6)]
  {
    hide IsLinkRun, LinkStepped, At, Sent;
    DeliveredNext(0);
    DeliveredNext(1);
    DeliveredNext(2);
    links, steps := DeliverThree(before, done, At(AGAIN, Sent(1), 6, 4), At(AGAIN, Sent(2), 6, 5), At(AGAIN, Sent(3), 6, 6));
  }

  lemma DumpReaches(before: seq<Link>, links: seq<Link>, steps: seq<LinkStep>, k: nat)
    requires IsLinkRun(links, steps, ME, S.CAPACITY) && k + 1 == |before| && k < |links| && k < |steps|
    requires steps[k] == Deliver([]) && links[k] == At(AGAIN, Sent(0), 6, 3)
    ensures T.ShownAt(links, steps, ME, S.CAPACITY, k, "s", BROWSER)
    ensures T.Mark(links[k], BROWSER) == 3 && links[k].agent.queued[Handled(links[k])].msg == DUMP
  {
    hide IsLinkRun;
    assert [DUMP, STARTED, OUTPUT][..0] == [];
  }

  lemma FollowsOn(before: seq<Link>, links: seq<Link>, k: nat)
    requires k + 1 == |before|
    requires links == before + [At(AGAIN, Sent(1), 6, 4), At(AGAIN, Sent(2), 6, 5), At(AGAIN, Sent(3), 6, 6)]
    ensures T.StaysFollowing(links, ME, "s", BROWSER, k + 1, k + 3)
  {
    forall i {:trigger links[i]} | k + 1 <= i <= k + 3 ensures Following(links[i].reg, ME, "s", BROWSER) {
      assert i == k + 1 || i == k + 2 || i == k + 3;
    }
  }

  lemma LastBytes()
    ensures DUMP.data + OutputBytes((GREETED + [DUMP, STARTED, OUTPUT])[3..], "s") == [1, 2]
  {
    var rest := [STARTED, OUTPUT];
    assert (GREETED + [DUMP, STARTED, OUTPUT])[3..] == rest && rest[..1] == [STARTED] && rest[..1][..0] == [];
    assert OutputBytes(rest[..1], "s") == [];
  }

  /** No PTY has queued more than one byte. */
  lemma OneByteEach(g: P.PtyId)
    ensures |P.Sent(ALL, g)| <= 1
  {
    var f := ALL;
    assert |f| == 6;
    forall n | 0 <= n < 6 ensures f[..n + 1] == f[..n] + [f[n]] {}
    assert f[..0] == [] && f[..6] == f;
    I.Appended(f[..0], f[0], g);
    I.Appended(f[..1], f[1], g);
    I.Appended(f[..2], f[2], g);
    I.Appended(f[..3], f[3], g);
    I.Appended(f[..4], f[4], g);
    I.Appended(f[..5], f[5], g);
  }

  lemma TailOfNone(shown: seq<Byte>, p: nat, g: P.PtyId)
    requires |shown| == 2 && p <= |ALL|
    ensures !T.IsTail(shown, ALL, |ALL|, p, g, S.CAPACITY)
  {
    assert ALL[..|ALL|] == ALL;
    OneByteEach(g);
  }

  /** A registered browser follows session `s`, is sent a snapshot and then the session's output, and yet what it
      holds, `[1, 2]`, is the tail of no PTY: the PTYs produced `[1]` and `[2]`. */
  lemma StaleTail() returns (links: seq<Link>, steps: seq<LinkStep>, k: nat)
    ensures T.ShownAt(links, steps, ME, S.CAPACITY, k, "s", BROWSER) && |links| == k + 4
    ensures T.StaysFollowing(links, ME, "s", BROWSER, k + 1, k + 3)
    ensures links[k + 3].agent.streams == [[1], [2]]
    ensures var sent := links[k + 3].reg.browsers[BROWSER].outbox.sent;
            && sent == GREETED + [DUMP, STARTED, OUTPUT] && T.Mark(links[k], BROWSER) == 3
            && links[k].agent.queued[Handled(links[k])].msg == DUMP
            && DUMP.data + OutputBytes(sent[3..], "s") == [1, 2]
    ensures var (l, p) := (links[k + 3], Handled(links[k]));
            p <= Handled(l) <= |l.agent.queued|
            && forall g :: !T.IsTail([1, 2], l.agent.queued, Handled(l), p, g, S.CAPACITY)
  {
    hide IsLinkRun, LinkStepped, OutputBytes;
    var before, done := AllForwarded();
    k := |before| - 1;
    assert GREETED + [DUMP, STARTED, OUTPUT][..0] == GREETED && Sent(0) == SPAWNED;
    assert [DUMP, STARTED, OUTPUT][..3] == [DUMP, STARTED, OUTPUT];
    links, steps := DeliveredAll(before, done);
    DumpReaches(before, links, steps, k);
    FollowsOn(before, links, k);
    LastBytes();
    forall g ensures !T.IsTail([1, 2], ALL, |ALL|, Handled(links[k]), g, S.CAPACITY) {
      TailOfNone([1, 2], Handled(links[k]), g);
    }
  }
}
