/** What every run of the registry keeps: its tables agree, owners never see each other, sessions are bounded. */
module RegistryProperties {
  import opened Listing
  import opened Wire
  import opened ConnectRegistry

  /** Infos and subscriptions name routed sessions, routes name live agents, and a browser only follows
      sessions of its own owner's agents. */
  ghost predicate Consistent(r: Registry) {
    && (forall s :: s in r.infos ==> s in r.sessions && r.infos[s].sessionId == s)
    && (forall s :: s in r.sessions ==> r.sessions[s] in r.agents && ValidSessionId(s))
    && (forall b :: b in r.browsers ==> r.browsers[b].outbox.Valid())
    && (forall a :: a in r.agents ==> r.agents[a].inbox.Valid())
    && (forall b, s :: b in r.browsers && s in r.browsers[b].sessions ==> OwnedRoute(r, s, r.browsers[b].owner))
  }

  function Pending(r: Registry, a: AgentId): set<SessionId> {
    set s | s in r.sessions && r.sessions[s] == a && s !in r.infos
  }

  function Acknowledged(r: Registry, a: AgentId): set<SessionId> {
    set s | s in r.sessions && r.sessions[s] == a && s in r.infos
  }

  ghost predicate Bounded(r: Registry) {
    forall a :: |Pending(r, a)| <= MAX_SESSIONS && |Acknowledged(r, a)| <= MAX_SESSIONS
  }

  // ---------------------------------------------------------------- what acceptance of a list does

  lemma AcceptedIdsLast(routes: map<SessionId, AgentId>, a: AgentId, infos: seq<SessionInfo>)
    requires infos != []
    ensures var info := infos[|infos| - 1];
            AcceptedIds(routes, a, infos)
            == AcceptedIds(routes, a, infos[..|infos| - 1])
               + (if Acceptable(routes, a, info) then {info.sessionId} else {})
  {
    assert infos == infos[..|infos| - 1] + [infos[|infos| - 1]];
  }

  lemma {:induction false} AcceptRoutesExact(routes: map<SessionId, AgentId>, a: AgentId, infos: seq<SessionInfo>)
    ensures var after := AcceptRoutes(routes, a, infos);
            var ids := AcceptedIds(routes, a, infos);
            && after.Keys == routes.Keys + ids
            && (forall s :: s in after ==> after[s] == if s in ids then a else routes[s])
            && (forall s :: s in ids && s in routes ==> routes[s] == a)
            && (forall s :: s in ids ==> ValidSessionId(s))
  {
    if infos == [] {
    } else {
      AcceptRoutesExact(routes, a, infos[..|infos| - 1]);
      AcceptedIdsLast(routes, a, infos);
    }
  }

  /** The routes already accepted do not change whether a later info is acceptable. */
  lemma StillAcceptable(routes: map<SessionId, AgentId>, a: AgentId, infos: seq<SessionInfo>, info: SessionInfo)
    ensures Acceptable(AcceptRoutes(routes, a, infos), a, info) <==> Acceptable(routes, a, info)
  {
    AcceptRoutesExact(routes, a, infos);
  }

  lemma {:induction false} AcceptInfosExact(r: Registry, a: AgentId, infos: seq<SessionInfo>)
    ensures var known := AcceptInfos(r.sessions, r.infos, a, infos);
            var ids := AcceptedIds(r.sessions, a, infos);
            && known.Keys == r.infos.Keys + ids
            && (forall s :: s in r.infos && s !in ids ==> known[s] == r.infos[s])
            && (forall s :: s in ids ==> known[s].sessionId == s)
  {
    if infos == [] {
    } else {
      var front, last := infos[..|infos| - 1], infos[|infos| - 1];
      AcceptInfosExact(r, a, front);
      AcceptedIdsLast(r.sessions, a, infos);
      StillAcceptable(r.sessions, a, front, last);
    }
  }

  /** A list adds exactly the acceptable ids it names, as routes to its agent and as infos. */
  lemma AcceptExact(r: Registry, a: AgentId, infos: seq<SessionInfo>)
    ensures var routes := AcceptRoutes(r.sessions, a, infos);
            var known := AcceptInfos(r.sessions, r.infos, a, infos);
            var ids := AcceptedIds(r.sessions, a, infos);
            && routes.Keys == r.sessions.Keys + ids
            && (forall s :: s in routes ==> routes[s] == if s in ids then a else r.sessions[s])
            && known.Keys == r.infos.Keys + ids
            && (forall s :: s in r.infos && s !in ids ==> known[s] == r.infos[s])
            && (forall s :: s in ids ==> known[s].sessionId == s && ValidSessionId(s))
            && (forall s :: s in ids && s in r.sessions ==> r.sessions[s] == a)
  {
    AcceptRoutesExact(r.sessions, a, infos);
    AcceptInfosExact(r, a, infos);
  }

  /** The last info a list has for a session. */
  function LastInfo(infos: seq<SessionInfo>, s: SessionId): (info: Option<SessionInfo>)
    ensures info.Some? ==> info.value in infos && info.value.sessionId == s
  {
    if infos == [] then None
    else if infos[|infos| - 1].sessionId == s then Some(infos[|infos| - 1])
    else LastInfo(infos[..|infos| - 1], s)
  }

  /** Of several infos for one session the last is kept. */
  lemma {:induction false} LastInfoKept(r: Registry, a: AgentId, infos: seq<SessionInfo>, s: SessionId)
    requires s in AcceptedIds(r.sessions, a, infos)
    ensures var known := AcceptInfos(r.sessions, r.infos, a, infos);
            s in known && LastInfo(infos, s) == Some(known[s])
  {
    var front, last := infos[..|infos| - 1], infos[|infos| - 1];
    AcceptInfosExact(r, a, infos);
    AcceptedIdsLast(r.sessions, a, infos);
    StillAcceptable(r.sessions, a, front, last);
    if last.sessionId != s {
      LastInfoKept(r, a, front, s);
    } else {
      var info :| info in infos && Acceptable(r.sessions, a, info) && info.sessionId == s;
    }
  }

  lemma AskAgentsExact(r: Registry, owner: Owner, order: seq<AgentId>)
    requires forall a :: a in r.agents ==> r.agents[a].inbox.Valid()
    ensures var (r1, asked, outcome) := AskAgents(r, owner, order);
            && r1 == r.(agents := r1.agents) && r1.agents.Keys == r.agents.Keys
            && (forall a :: a in r.agents ==>
                  && r1.agents[a].owner == r.agents[a].owner && r1.agents[a].inbox.Valid()
                  && (r.agents[a].owner != owner ==> r1.agents[a] == r.agents[a]))
    decreases |order|
  {
    if order != [] && order[0] in r.agents && r.agents[order[0]].owner == owner && r.agents[order[0]].inbox.CanSend() {
      AskAgentsExact(SendTo(r, order[0], ListSessions), owner, order[1..]);
    } else if order != [] {
      AskAgentsExact(r, owner, order[1..]);
    }
  }

  lemma FindAgentExact(agents: map<AgentId, Agent>, owner: Owner, order: seq<AgentId>)
    ensures var found := FindAgent(agents, owner, order);
            && (found.Some? ==> found.value in agents && agents[found.value].owner == owner)
            && (found.None? ==> forall a :: a in order && a in agents ==> agents[a].owner != owner)
  {
  }

  // ---------------------------------------------------------------- the tables agree

  lemma BroadcastConsistent(r: Registry, owner: Owner, topic: Option<SessionId>, msg: AgentMessage)
    requires Consistent(r)
    ensures Consistent(r.(browsers := Broadcast(r.browsers, owner, topic, msg)))
  {
  }

  lemma ReconcileConsistent(r: Registry, a: AgentId, infos: seq<SessionInfo>)
    requires Consistent(r) && a in r.agents
    ensures Consistent(Reconcile(r, a, infos))
  {
    var first := FirstInfos(infos);
    AcceptExact(r, a, first);
    var r' := Reconcile(r, a, infos);
    var routes := AcceptRoutes(r.sessions, a, first);
    var ids := AcceptedIds(r.sessions, a, first);
    forall s | s in r'.sessions
      ensures r'.sessions[s] in r'.agents && ValidSessionId(s)
      ensures s in r.sessions ==> r'.sessions[s] == r.sessions[s]
    {
      assert s in routes && r'.sessions[s] == routes[s];
      if s !in ids { assert s in r.sessions; }
    }
    forall b, s | b in r'.browsers && s in r'.browsers[b].sessions
      ensures OwnedRoute(r', s, r'.browsers[b].owner)
    {
      assert OwnedRoute(r, s, r.browsers[b].owner);
    }
  }

  lemma DropAgentConsistent(r: Registry, a: AgentId)
    requires Consistent(r)
    ensures Consistent(DropAgent(r, a))
  {
    var r' := DropAgent(r, a);
    forall b, s | b in r'.browsers && s in r'.browsers[b].sessions
      ensures OwnedRoute(r', s, r'.browsers[b].owner)
    {
      assert OwnedRoute(r, s, r.browsers[b].owner);
    }
  }

  lemma FollowConsistent(r: Registry, b: BrowserId, s: SessionId)
    requires Consistent(r) && b in r.browsers && OwnedRoute(r, s, r.browsers[b].owner)
    ensures Consistent(Follow(r, b, s))
  {
  }

  lemma SendConsistent(r: Registry, a: AgentId, msg: ServerMessage)
    requires Consistent(r) && a in r.agents && r.agents[a].inbox.CanSend()
    ensures Consistent(SendTo(r, a, msg))
  {
    var r' := SendTo(r, a, msg);
    forall c, s | c in r'.browsers && s in r'.browsers[c].sessions
      ensures OwnedRoute(r', s, r'.browsers[c].owner)
    {
      assert OwnedRoute(r, s, r.browsers[c].owner);
    }
  }

  lemma SpawnConsistent(r: Registry, b: BrowserId, msg: ServerMessage, order: seq<AgentId>)
    requires Consistent(r) && b in r.browsers && msg.SpawnSession?
    ensures Consistent(SpawnCommand(r, b, msg, order).0)
  {
    FindAgentExact(r.agents, r.browsers[b].owner, order);
    var (r', outcome) := SpawnCommand(r, b, msg, order);
    if outcome.Accepted? {
      var s := msg.sessionId;
      var a := FindAgent(r.agents, r.browsers[b].owner, order).value;
      SendConsistent(r, a, msg);
      var r1 := SendTo(r, a, msg);
      var r2 := r1.(sessions := r1.sessions[s := a]);
      assert Consistent(r2) by {
        forall c, t | c in r2.browsers && t in r2.browsers[c].sessions
          ensures OwnedRoute(r2, t, r2.browsers[c].owner)
        {
          assert OwnedRoute(r1, t, r1.browsers[c].owner);
        }
      }
      FollowConsistent(r2, b, s);
    }
  }

  lemma SessionCommandConsistent(r: Registry, b: BrowserId, s: SessionId, msg: ServerMessage)
    requires Consistent(r) && b in r.browsers
    ensures Consistent(SessionCommand(r, b, s, msg).0)
  {
    if SessionCommand(r, b, s, msg).1.Accepted? {
      SendConsistent(r, r.sessions[s], msg);
      if msg.ScrollbackRequest? { FollowConsistent(SendTo(r, r.sessions[s], msg), b, s); }
    }
  }

  lemma ListCommandConsistent(r: Registry, b: BrowserId, order: seq<AgentId>)
    requires Consistent(r) && b in r.browsers
    ensures Consistent(ListCommand(r, b, order).0)
  {
    AskAgentsExact(r, r.browsers[b].owner, order);
    var r' := ListCommand(r, b, order).0;
    forall c, s | c in r'.browsers && s in r'.browsers[c].sessions
      ensures OwnedRoute(r', s, r'.browsers[c].owner)
    {
      assert OwnedRoute(r, s, r.browsers[c].owner);
    }
  }

  lemma CommandConsistent(r: Registry, b: BrowserId, msg: ServerMessage, order: seq<AgentId>)
    requires Consistent(r) && b in r.browsers
    ensures Consistent(BrowserCommand(r, b, msg, order).0)
  {
    match msg
    case SpawnSession(_, _, _, _, _, _) => SpawnConsistent(r, b, msg, order);
    case SessionInput(s, _) => SessionCommandConsistent(r, b, s, msg);
    case SessionResize(s, _, _) => SessionCommandConsistent(r, b, s, msg);
    case SessionKill(s, _) => SessionCommandConsistent(r, b, s, msg);
    case ScrollbackRequest(s) => SessionCommandConsistent(r, b, s, msg);
    case ListSessions => ListCommandConsistent(r, b, order);
    case Ping(_) =>
  }

  lemma EndSessionConsistent(r: Registry, s: SessionId)
    requires Consistent(r)
    ensures Consistent(Registry(r.agents, r.sessions - {s}, r.infos - {s}, Unfollow(r.browsers, {s})))
  {
    var r' := Registry(r.agents, r.sessions - {s}, r.infos - {s}, Unfollow(r.browsers, {s}));
    forall b, t | b in r'.browsers && t in r'.browsers[b].sessions
      ensures OwnedRoute(r', t, r'.browsers[b].owner)
    {
      assert OwnedRoute(r, t, r.browsers[b].owner);
    }
  }

  lemma SessionFrameConsistent(r: Registry, a: AgentId, s: SessionId, msg: AgentMessage)
    requires Consistent(r) && a in r.agents
    ensures Consistent(AgentSessionFrame(r, a, s, msg))
  {
    if s in r.sessions && r.sessions[s] == a {
      BroadcastConsistent(r, r.agents[a].owner, Some(s), msg);
      EndSessionConsistent(r.(browsers := Broadcast(r.browsers, r.agents[a].owner, Some(s), msg)), s);
    }
  }

  lemma AddAgentConsistent(r: Registry, a: AgentId, owner: Owner)
    requires Consistent(r) && a !in r.agents
    ensures Consistent(RegisterAgent(r, a, owner))
  {
    BroadcastConsistent(r, owner, None, AgentStatus(true));
  }

  lemma RemoveAgentConsistent(r: Registry, a: AgentId, listing: seq<SessionInfo>)
    requires Consistent(r) && a in r.agents
    ensures Consistent(UnregisterAgent(r, a, listing))
  {
    var owner := r.agents[a].owner;
    DropAgentConsistent(r, a);
    var r1 := DropAgent(r, a);
    var status := AgentStatus(OwnerConnected(r1.agents, owner));
    BroadcastConsistent(r1, owner, None, status);
    BroadcastConsistent(r1.(browsers := Broadcast(r1.browsers, owner, None, status)), owner, None, SessionList(listing));
  }

  lemma FrameConsistent(r: Registry, a: AgentId, msg: AgentMessage, listing: seq<SessionInfo>)
    requires Consistent(r) && a in r.agents
    ensures Consistent(AgentFrame(r, a, msg, listing))
  {
    match msg
    case SessionList(infos) =>
      ReconcileConsistent(r, a, infos);
      BroadcastConsistent(Reconcile(r, a, infos), r.agents[a].owner, None, SessionList(listing));
    case Ready(_, _, _) => BroadcastConsistent(r, r.agents[a].owner, None, msg);
    case SessionOutput(s, _) => SessionFrameConsistent(r, a, s, msg);
    case ScrollbackDump(s, _) => SessionFrameConsistent(r, a, s, msg);
    case SessionEvent(s, _) => SessionFrameConsistent(r, a, s, msg);
    case _ =>
  }

  /** Steps that touch one browser. */
  lemma EdgeConsistent(r: Registry, step: Step)
    requires Consistent(r) && Allowed(r, step)
    requires step.AddBrowser? || step.RemoveBrowser? || step.Report?
    ensures Consistent(Apply(r, step))
  {
    hide AgentFrame, BrowserCommand, RegisterAgent, UnregisterAgent;
  }

  lemma BrowserEndConsistent(r: Registry, step: Step)
    requires Consistent(r) && (step.BrowserTakes? || step.BrowserCloses?)
    ensures Consistent(Apply(r, step))
  {
    hide AgentFrame, BrowserCommand, RegisterAgent, UnregisterAgent, RegisterBrowser, BrowserError;
  }

  lemma QueueEndConsistent(r: Registry, step: Step)
    requires Consistent(r) && (step.AgentTakes? || step.AgentCloses?)
    ensures Consistent(Apply(r, step))
  {
    hide AgentFrame, BrowserCommand, RegisterAgent, UnregisterAgent, RegisterBrowser, BrowserError;
  }

  lemma FrameOfAnyConsistent(r: Registry, a: AgentId, msg: AgentMessage, listing: seq<SessionInfo>)
    requires Consistent(r)
    ensures Consistent(AgentFrame(r, a, msg, listing))
  {
    hide Consistent;
    if a in r.agents { FrameConsistent(r, a, msg, listing); }
  }

  lemma CommandOfAnyConsistent(r: Registry, b: BrowserId, msg: ServerMessage, order: seq<AgentId>)
    requires Consistent(r)
    ensures Consistent(BrowserCommand(r, b, msg, order).0)
  {
    hide Consistent;
    if b in r.browsers { CommandConsistent(r, b, msg, order); }
  }

  lemma RemoveAnyConsistent(r: Registry, a: AgentId, listing: seq<SessionInfo>)
    requires Consistent(r)
    ensures Consistent(UnregisterAgent(r, a, listing))
  {
    hide Consistent;
    if a in r.agents { RemoveAgentConsistent(r, a, listing); }
  }

  lemma StepConsistent(r: Registry, step: Step)
    requires Consistent(r) && Allowed(r, step)
    ensures Consistent(Apply(r, step))
  {
    hide Consistent, AgentFrame, BrowserCommand, RegisterAgent, UnregisterAgent, RegisterBrowser, BrowserError;
    match step
    case AddAgent(a, owner) => AddAgentConsistent(r, a, owner);
    case RemoveAgent(a, listing) => RemoveAnyConsistent(r, a, listing);
    case Command(b, msg, order) => CommandOfAnyConsistent(r, b, msg, order);
    case Frame(a, msg, listing) => FrameOfAnyConsistent(r, a, msg, listing);
    case AgentTakes(_) => QueueEndConsistent(r, step);
    case BrowserTakes(_) => BrowserEndConsistent(r, step);
    case BrowserCloses(_) => BrowserEndConsistent(r, step);
    case AgentCloses(_) => QueueEndConsistent(r, step);
    case _ => EdgeConsistent(r, step);
  }

  // ---------------------------------------------------------------- sessions are bounded

  lemma {:induction false} SubsetSize<T>(small: set<T>, big: set<T>)
    requires small <= big
    ensures |small| <= |big|
  {
    if small != {} {
      var x :| x in small;
      SubsetSize(small - {x}, big - {x});
    }
  }

  lemma {:induction false} AcceptedIdsSize(routes: map<SessionId, AgentId>, a: AgentId, infos: seq<SessionInfo>)
    ensures |AcceptedIds(routes, a, infos)| <= |infos|
  {
    if infos != [] {
      var front := infos[..|infos| - 1];
      var info := infos[|infos| - 1];
      assert infos == front + [info];
      AcceptedIdsSize(routes, a, front);
      SubsetSize(AcceptedIds(routes, a, infos), AcceptedIds(routes, a, front) + {info.sessionId});
    }
  }

  lemma FewerSessionsBounded(r: Registry, r': Registry)
    requires Bounded(r)
    requires forall a :: Pending(r', a) <= Pending(r, a) && Acknowledged(r', a) <= Acknowledged(r, a)
    ensures Bounded(r')
  {
    forall a ensures |Pending(r', a)| <= MAX_SESSIONS && |Acknowledged(r', a)| <= MAX_SESSIONS {
      SubsetSize(Pending(r', a), Pending(r, a));
      SubsetSize(Acknowledged(r', a), Acknowledged(r, a));
    }
  }

  lemma ReservationBounded(r: Registry, r': Registry, s: SessionId, a: AgentId)
    requires Bounded(r) && s !in r.sessions && s !in r.infos && |Pending(r, a)| < MAX_SESSIONS
    requires r'.sessions == r.sessions[s := a] && r'.infos == r.infos
    ensures Bounded(r')
  {
    forall x ensures |Pending(r', x)| <= MAX_SESSIONS && |Acknowledged(r', x)| <= MAX_SESSIONS {
      SubsetSize(Acknowledged(r', x), Acknowledged(r, x));
      if x == a {
        SubsetSize(Pending(r', a), Pending(r, a) + {s});
      } else {
        SubsetSize(Pending(r', x), Pending(r, x));
      }
    }
  }

  lemma SpawnBounded(r: Registry, b: BrowserId, msg: ServerMessage, order: seq<AgentId>)
    requires Consistent(r) && Bounded(r) && b in r.browsers && msg.SpawnSession?
    ensures Bounded(SpawnCommand(r, b, msg, order).0)
    ensures var found := FindAgent(r.agents, r.browsers[b].owner, order);
            found.Some? && |RoutesOf(r, found.value)| >= 32
            ==> SpawnCommand(r, b, msg, order).0 == r && SpawnCommand(r, b, msg, order).1.Refused?
  {
    var (r', outcome) := SpawnCommand(r, b, msg, order);
    if outcome.Accepted? {
      var s := msg.sessionId;
      var a := FindAgent(r.agents, r.browsers[b].owner, order).value;
      SubsetSize(Pending(r, a), RoutesOf(r, a));
      ReservationBounded(r, r', s, a);
    }
  }

  lemma ReconcileBounded(r: Registry, a: AgentId, infos: seq<SessionInfo>)
    requires Consistent(r) && Bounded(r) && a in r.agents
    ensures Bounded(Reconcile(r, a, infos))
  {
    var first := FirstInfos(infos);
    var r' := Reconcile(r, a, infos);
    var ids := AcceptedIds(r.sessions, a, first);
    AcceptExact(r, a, first);
    AcceptedIdsSize(r.sessions, a, first);
    forall x ensures |Pending(r', x)| <= MAX_SESSIONS && |Acknowledged(r', x)| <= MAX_SESSIONS {
      assert Pending(r', x) <= Pending(r, x);
      SubsetSize(Pending(r', x), Pending(r, x));
      if x == a {
        assert Acknowledged(r', a) <= ids;
        SubsetSize(Acknowledged(r', a), ids);
      } else {
        assert Acknowledged(r', x) <= Acknowledged(r, x);
        SubsetSize(Acknowledged(r', x), Acknowledged(r, x));
      }
    }
  }

  /** Every session is still routed as before, acknowledged or not as before, or gone. */
  ghost predicate Narrower(r: Registry, r': Registry) {
    forall s :: s in r'.sessions ==> s in r.sessions && r'.sessions[s] == r.sessions[s] && (s in r'.infos <==> s in r.infos)
  }

  lemma ListCommandNarrows(r: Registry, b: BrowserId, order: seq<AgentId>)
    requires Consistent(r) && b in r.browsers
    ensures Narrower(r, ListCommand(r, b, order).0)
  {
    AskAgentsExact(r, r.browsers[b].owner, order);
    hide AskAgents;
  }

  lemma CommandNarrows(r: Registry, b: BrowserId, msg: ServerMessage, order: seq<AgentId>)
    requires Consistent(r) && !(b in r.browsers && msg.SpawnSession?)
    ensures Narrower(r, BrowserCommand(r, b, msg, order).0)
  {
    if b in r.browsers && msg.ListSessions? {
      ListCommandNarrows(r, b, order);
    } else {
      hide Consistent, ListCommand, SpawnCommand;
    }
  }

  lemma FrameNarrows(r: Registry, a: AgentId, msg: AgentMessage, listing: seq<SessionInfo>)
    requires !(a in r.agents && msg.SessionList?)
    ensures Narrower(r, AgentFrame(r, a, msg, listing))
  {
    hide Broadcast;
  }

  lemma RemoveNarrows(r: Registry, a: AgentId, listing: seq<SessionInfo>)
    ensures Narrower(r, UnregisterAgent(r, a, listing))
  {
    hide Broadcast;
  }

  lemma ReportKeepsSessions(r: Registry, b: BrowserId, s: SessionId, error: Text)
    ensures BrowserError(r, b, s, error) == r.(browsers := BrowserError(r, b, s, error).browsers)
  {
  }

  lemma OnlySpawnsAndListsAddSessions(r: Registry, step: Step)
    requires Consistent(r)
    requires !(step.Command? && step.browser in r.browsers && step.command.SpawnSession?)
    requires !(step.Frame? && step.agent in r.agents && step.frame.SessionList?)
    ensures Narrower(r, Apply(r, step))
  {
    hide Consistent, AgentFrame, BrowserCommand, UnregisterAgent, Broadcast, BrowserError;
    match step
    case Command(b, msg, order) => CommandNarrows(r, b, msg, order);
    case Frame(a, msg, listing) => FrameNarrows(r, a, msg, listing);
    case RemoveAgent(a, listing) => RemoveNarrows(r, a, listing);
    case Report(b, s, error) => assert BrowserError(r, b, s, error) == r.(browsers := BrowserError(r, b, s, error).browsers) by { ReportKeepsSessions(r, b, s, error); }
    case _ =>
  }

  lemma ListBounded(r: Registry, a: AgentId, infos: seq<SessionInfo>, listing: seq<SessionInfo>)
    requires Consistent(r) && Bounded(r) && a in r.agents
    ensures Bounded(AgentFrame(r, a, SessionList(infos), listing))
  {
    var r1 := Reconcile(r, a, infos);
    var r' := AgentFrame(r, a, SessionList(infos), listing);
    ReconcileBounded(r, a, infos);
    assert r' == r1.(browsers := r'.browsers);
    hide Reconcile, AgentFrame, Broadcast, Consistent;
    assert forall a :: Pending(r', a) == Pending(r1, a) && Acknowledged(r', a) == Acknowledged(r1, a);
    FewerSessionsBounded(r1, r');
  }

  lemma StepBounded(r: Registry, step: Step)
    requires Consistent(r) && Bounded(r) && Allowed(r, step)
    ensures Bounded(Apply(r, step))
  {
    hide Consistent, Bounded, Allowed, AgentFrame, SpawnCommand;
    if step.Command? && step.browser in r.browsers && step.command.SpawnSession? {
      SpawnBounded(r, step.browser, step.command, step.order);
    } else if step.Frame? && step.agent in r.agents && step.frame.SessionList? {
      ListBounded(r, step.agent, step.frame.sessions, step.listing);
    } else {
      OnlySpawnsAndListsAddSessions(r, step);
      hide Apply;
      FewerSessionsBounded(r, Apply(r, step));
    }
  }

  // ---------------------------------------------------------------- one step, seen from one session

  lemma SpawnKeepsRoutes(r: Registry, b: BrowserId, msg: ServerMessage, order: seq<AgentId>, s: SessionId)
    requires b in r.browsers && msg.SpawnSession? && s in r.sessions
    ensures var r' := SpawnCommand(r, b, msg, order).0;
            s in r'.sessions && r'.sessions[s] == r.sessions[s] && r'.infos == r.infos
  {
  }

  lemma ListKeepsRoute(r: Registry, a: AgentId, infos: seq<SessionInfo>, listing: seq<SessionInfo>, s: SessionId)
    requires Consistent(r) && s in r.sessions && s in AgentFrame(r, a, SessionList(infos), listing).sessions
    ensures var r' := AgentFrame(r, a, SessionList(infos), listing);
            r'.sessions[s] == r.sessions[s] && (s in r.infos ==> s in r'.infos)
  {
    if a in r.agents { AcceptExact(r, a, FirstInfos(infos)); }
    hide Broadcast, Consistent;
  }

  /** No step moves a live route to another agent or turns an acknowledged session back into a reservation. */
  lemma RouteStable(r: Registry, step: Step, s: SessionId)
    requires Consistent(r) && Allowed(r, step) && s in r.sessions && s in Apply(r, step).sessions
    ensures Apply(r, step).sessions[s] == r.sessions[s]
    ensures s in r.infos ==> s in Apply(r, step).infos
  {
    hide Consistent, Allowed, AgentFrame, SpawnCommand;
    if step.Frame? && step.agent in r.agents && step.frame.SessionList? {
      ListKeepsRoute(r, step.agent, step.frame.sessions, step.listing, s);
    } else if step.Command? && step.browser in r.browsers && step.command.SpawnSession? {
      SpawnKeepsRoutes(r, step.browser, step.command, step.order, s);
    } else {
      OnlySpawnsAndListsAddSessions(r, step);
      hide Apply;
    }
  }

  /** A reservation the agent has not listed yet survives every list from any agent. */
  lemma PendingSurvivesLists(r: Registry, a: AgentId, infos: seq<SessionInfo>, listing: seq<SessionInfo>, s: SessionId)
    requires Consistent(r) && s in r.sessions && s !in r.infos
    ensures var r' := AgentFrame(r, a, SessionList(infos), listing);
            s in r'.sessions && r'.sessions[s] == r.sessions[s]
  {
    if a in r.agents { AcceptExact(r, a, FirstInfos(infos)); }
  }

  /** After a list, the agent's acknowledged sessions are exactly those it listed among the first 32 and was
      allowed to list. */
  lemma ListIsAuthoritative(r: Registry, a: AgentId, infos: seq<SessionInfo>, listing: seq<SessionInfo>)
    requires Consistent(r) && a in r.agents
    ensures Acknowledged(AgentFrame(r, a, SessionList(infos), listing), a)
            == set info | info in FirstInfos(infos) && Acceptable(r.sessions, a, info) :: info.sessionId
  {
    AcceptExact(r, a, FirstInfos(infos));
  }
}
