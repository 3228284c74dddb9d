/** Owners are invisible to each other: no step of one owner's agents or browsers touches another owner's part. */
module OwnerIsolation {
  import opened Listing
  import opened Wire
  import opened ConnectRegistry
  import opened RegistryProperties

  /** Everything in the registry that belongs to one owner, queues included. */
  datatype View = View(
    agents: map<AgentId, Agent>,
    routes: map<SessionId, AgentId>,
    infos: map<SessionId, SessionInfo>,
    browsers: map<BrowserId, Browser>)

  function ViewOf(r: Registry, owner: Owner): View {
    View(
      map a | a in r.agents && r.agents[a].owner == owner :: r.agents[a],
      map s | s in r.sessions && OwnedRoute(r, s, owner) :: r.sessions[s],
      map s | s in r.infos && OwnedRoute(r, s, owner) :: r.infos[s],
      map b | b in r.browsers && r.browsers[b].owner == owner :: r.browsers[b])
  }

  function AgentOwner(r: Registry, a: AgentId): Option<Owner> {
    if a in r.agents then Some(r.agents[a].owner) else None
  }

  function BrowserOwner(r: Registry, b: BrowserId): Option<Owner> {
    if b in r.browsers then Some(r.browsers[b].owner) else None
  }

  /** On whose behalf a step runs; `None` when it names a connection the registry does not know. */
  function Actor(r: Registry, step: Step): Option<Owner> {
    match step
    case AddAgent(_, owner) => Some(owner)
    case AddBrowser(_, owner) => Some(owner)
    case RemoveAgent(a, _) => AgentOwner(r, a)
    case Frame(a, _, _) => AgentOwner(r, a)
    case AgentTakes(a) => AgentOwner(r, a)
    case AgentCloses(a) => AgentOwner(r, a)
    case RemoveBrowser(b) => BrowserOwner(r, b)
    case Command(b, _, _) => BrowserOwner(r, b)
    case Report(b, _, _) => BrowserOwner(r, b)
    case BrowserTakes(b) => BrowserOwner(r, b)
    case BrowserCloses(b) => BrowserOwner(r, b)
  }

  ghost predicate SameAgent(r: Registry, r': Registry, owner: Owner, a: AgentId) {
    && (AgentOwner(r, a) == Some(owner) <==> AgentOwner(r', a) == Some(owner))
    && (AgentOwner(r, a) == Some(owner) ==> r.agents[a] == r'.agents[a])
  }

  ghost predicate SameSession(r: Registry, r': Registry, owner: Owner, s: SessionId) {
    && (OwnedRoute(r, s, owner) <==> OwnedRoute(r', s, owner))
    && (OwnedRoute(r, s, owner) ==>
          && r.sessions[s] == r'.sessions[s]
          && (s in r.infos <==> s in r'.infos)
          && (s in r.infos ==> r.infos[s] == r'.infos[s]))
  }

  ghost predicate SameBrowser(r: Registry, r': Registry, owner: Owner, b: BrowserId) {
    && (BrowserOwner(r, b) == Some(owner) <==> BrowserOwner(r', b) == Some(owner))
    && (BrowserOwner(r, b) == Some(owner) ==> r.browsers[b] == r'.browsers[b])
  }

  /** Pointwise form of `ViewOf(r, owner) == ViewOf(r', owner)`. */
  ghost predicate SameFor(r: Registry, r': Registry, owner: Owner) {
    && (forall a :: SameAgent(r, r', owner, a))
    && (forall s :: SameSession(r, r', owner, s))
    && (forall b :: SameBrowser(r, r', owner, b))
  }

  lemma SameAgentsSeen(r: Registry, r': Registry, owner: Owner)
    requires SameFor(r, r', owner)
    ensures ViewOf(r, owner).agents == ViewOf(r', owner).agents
  {
    var v, v' := ViewOf(r, owner), ViewOf(r', owner);
    forall a ensures (a in v.agents <==> a in v'.agents) && (a in v.agents ==> v.agents[a] == v'.agents[a]) {
      assert SameAgent(r, r', owner, a);
    }
  }

  lemma SameForIsSameView(r: Registry, r': Registry, owner: Owner)
    requires SameFor(r, r', owner)
    ensures ViewOf(r, owner) == ViewOf(r', owner)
  {
    var v, v' := ViewOf(r, owner), ViewOf(r', owner);
    SameAgentsSeen(r, r', owner);
    assert v.routes == v'.routes && v.infos == v'.infos by {
      forall s
        ensures (s in v.routes <==> s in v'.routes) && (s in v.routes ==> v.routes[s] == v'.routes[s])
        ensures (s in v.infos <==> s in v'.infos) && (s in v.infos ==> v.infos[s] == v'.infos[s])
      {
        assert SameSession(r, r', owner, s);
      }
    }
    assert v.browsers == v'.browsers by {
      forall b ensures (b in v.browsers <==> b in v'.browsers) && (b in v.browsers ==> v.browsers[b] == v'.browsers[b]) {
        assert SameBrowser(r, r', owner, b);
      }
    }
  }

  lemma SameTwice(r: Registry, r1: Registry, r2: Registry, owner: Owner)
    requires SameFor(r, r1, owner) && SameFor(r1, r2, owner)
    ensures SameFor(r, r2, owner)
  {
    forall a ensures SameAgent(r, r2, owner, a) { assert SameAgent(r, r1, owner, a) && SameAgent(r1, r2, owner, a); }
    forall s ensures SameSession(r, r2, owner, s) { assert SameSession(r, r1, owner, s) && SameSession(r1, r2, owner, s); }
    forall b ensures SameBrowser(r, r2, owner, b) { assert SameBrowser(r, r1, owner, b) && SameBrowser(r1, r2, owner, b); }
  }

  lemma BroadcastIsolated(r: Registry, actor: Owner, topic: Option<SessionId>, msg: AgentMessage, owner: Owner)
    requires actor != owner
    ensures SameFor(r, r.(browsers := Broadcast(r.browsers, actor, topic, msg)), owner)
  {
  }

  lemma SendIsolated(r: Registry, a: AgentId, msg: ServerMessage, owner: Owner)
    requires a in r.agents && r.agents[a].owner != owner
    ensures SameFor(r, SendTo(r, a, msg), owner)
  {
  }

  lemma DropAgentIsolated(r: Registry, a: AgentId, owner: Owner)
    requires Consistent(r) && a in r.agents && r.agents[a].owner != owner
    ensures SameFor(r, DropAgent(r, a), owner)
  {
    var r' := DropAgent(r, a);
    forall b ensures SameBrowser(r, r', owner, b) {
      if BrowserOwner(r, b) == Some(owner) {
        forall s | s in r.browsers[b].sessions ensures s !in RoutesOf(r, a) { assert OwnedRoute(r, s, owner); }
        assert r'.browsers[b].sessions == r.browsers[b].sessions;
      }
    }
  }

  lemma ReconcileIsolated(r: Registry, a: AgentId, infos: seq<SessionInfo>, owner: Owner)
    requires Consistent(r) && a in r.agents && r.agents[a].owner != owner
    ensures SameFor(r, Reconcile(r, a, infos), owner)
  {
    AcceptExact(r, a, FirstInfos(infos));
    var r' := Reconcile(r, a, infos);
    forall s ensures SameSession(r, r', owner, s) {}
    forall b ensures SameBrowser(r, r', owner, b) {
      if BrowserOwner(r, b) == Some(owner) {
        forall s | s in r.browsers[b].sessions ensures s in r'.sessions { assert OwnedRoute(r, s, owner) && SameSession(r, r', owner, s); }
        assert r'.browsers[b].sessions == r.browsers[b].sessions;
      }
    }
  }

  lemma EndSessionIsolated(r: Registry, a: AgentId, s: SessionId, owner: Owner)
    requires Consistent(r) && a in r.agents && r.agents[a].owner != owner && s in r.sessions && r.sessions[s] == a
    ensures SameFor(r, Registry(r.agents, r.sessions - {s}, r.infos - {s}, Unfollow(r.browsers, {s})), owner)
  {
    var r' := Registry(r.agents, r.sessions - {s}, r.infos - {s}, Unfollow(r.browsers, {s}));
    forall b ensures SameBrowser(r, r', owner, b) {
      if BrowserOwner(r, b) == Some(owner) {
        forall t | t in r.browsers[b].sessions ensures t != s { assert OwnedRoute(r, t, owner); }
        assert r'.browsers[b].sessions == r.browsers[b].sessions;
      }
    }
  }

  lemma SessionFrameIsolated(r: Registry, a: AgentId, s: SessionId, msg: AgentMessage, owner: Owner)
    requires Consistent(r) && a in r.agents && r.agents[a].owner != owner
    ensures SameFor(r, AgentSessionFrame(r, a, s, msg), owner)
  {
    if s in r.sessions && r.sessions[s] == a {
      BroadcastIsolated(r, r.agents[a].owner, Some(s), msg, owner);
      var r1 := r.(browsers := Broadcast(r.browsers, r.agents[a].owner, Some(s), msg));
      if IsTerminalFor(msg, s) {
        BroadcastConsistent(r, r.agents[a].owner, Some(s), msg);
        EndSessionIsolated(r1, a, s, owner);
        SameTwice(r, r1, AgentSessionFrame(r, a, s, msg), owner);
      }
    }
  }

  lemma AskAgentsIsolated(r: Registry, actor: Owner, order: seq<AgentId>, owner: Owner)
    requires actor != owner
    ensures SameFor(r, AskAgents(r, actor, order).0, owner)
    decreases |order|
  {
    if order != [] && order[0] in r.agents && r.agents[order[0]].owner == actor && r.agents[order[0]].inbox.CanSend() {
      SendIsolated(r, order[0], ListSessions, owner);
      AskAgentsIsolated(SendTo(r, order[0], ListSessions), actor, order[1..], owner);
      SameTwice(r, SendTo(r, order[0], ListSessions), AskAgents(r, actor, order).0, owner);
    } else if order != [] {
      AskAgentsIsolated(r, actor, order[1..], owner);
    }
  }

  lemma FollowIsolated(r: Registry, b: BrowserId, s: SessionId, owner: Owner)
    requires b in r.browsers && r.browsers[b].owner != owner
    ensures SameFor(r, Follow(r, b, s), owner)
  {
  }

  lemma ReserveIsolated(r: Registry, a: AgentId, s: SessionId, owner: Owner)
    requires s !in r.sessions && a in r.agents && r.agents[a].owner != owner
    ensures SameFor(r, r.(sessions := r.sessions[s := a]), owner)
  {
  }

  lemma SpawnIsolated(r: Registry, b: BrowserId, msg: ServerMessage, order: seq<AgentId>, owner: Owner)
    requires b in r.browsers && r.browsers[b].owner != owner && msg.SpawnSession?
    ensures SameFor(r, SpawnCommand(r, b, msg, order).0, owner)
  {
    if SpawnCommand(r, b, msg, order).1.Accepted? {
      FindAgentExact(r.agents, r.browsers[b].owner, order);
      var a := FindAgent(r.agents, r.browsers[b].owner, order).value;
      var r1 := SendTo(r, a, msg);
      var r2 := r1.(sessions := r1.sessions[msg.sessionId := a]);
      hide SameFor, FindAgent, ValidSpawn;
      SendIsolated(r, a, msg, owner);
      ReserveIsolated(r1, a, msg.sessionId, owner);
      SameTwice(r, r1, r2, owner);
      FollowIsolated(r2, b, msg.sessionId, owner);
      SameTwice(r, r2, Follow(r2, b, msg.sessionId), owner);
    }
  }

  lemma SessionCommandIsolated(r: Registry, b: BrowserId, s: SessionId, msg: ServerMessage, owner: Owner)
    requires b in r.browsers && r.browsers[b].owner != owner
    ensures SameFor(r, SessionCommand(r, b, s, msg).0, owner)
  {
    if SessionCommand(r, b, s, msg).1.Accepted? {
      var r1 := SendTo(r, r.sessions[s], msg);
      SendIsolated(r, r.sessions[s], msg, owner);
      if msg.ScrollbackRequest? {
        FollowIsolated(r1, b, s, owner);
        SameTwice(r, r1, Follow(r1, b, s), owner);
      }
    }
  }

  lemma TrySendIsolated(r: Registry, b: BrowserId, msg: AgentMessage, owner: Owner)
    requires BrowserOwner(r, b) != Some(owner)
    ensures SameFor(r, r.(browsers := TrySend(r.browsers, b, msg)), owner)
  {
  }

  lemma ListCommandIsolated(r: Registry, b: BrowserId, order: seq<AgentId>, owner: Owner)
    requires Consistent(r) && b in r.browsers && r.browsers[b].owner != owner
    ensures SameFor(r, ListCommand(r, b, order).0, owner)
  {
    var r1 := AskAgents(r, r.browsers[b].owner, order).0;
    AskAgentsIsolated(r, r.browsers[b].owner, order, owner);
    AskAgentsExact(r, r.browsers[b].owner, order);
    TrySendIsolated(r1, b, SessionList([]), owner);
    SameTwice(r, r1, r1.(browsers := TrySend(r1.browsers, b, SessionList([]))), owner);
  }

  lemma CommandIsolated(r: Registry, b: BrowserId, msg: ServerMessage, order: seq<AgentId>, owner: Owner)
    requires Consistent(r) && b in r.browsers && r.browsers[b].owner != owner
    ensures SameFor(r, BrowserCommand(r, b, msg, order).0, owner)
  {
    match msg
    case SpawnSession(_, _, _, _, _, _) => SpawnIsolated(r, b, msg, order, owner);
    case ListSessions => ListCommandIsolated(r, b, order, owner);
    case Ping(_) =>
    case _ => SessionCommandIsolated(r, b, msg.sessionId, msg, owner);
  }

  lemma AddAgentIsolated(r: Registry, a: AgentId, actor: Owner, owner: Owner)
    requires Consistent(r) && a !in r.agents && actor != owner
    ensures SameFor(r, RegisterAgent(r, a, actor), owner)
  {
    BroadcastIsolated(r, actor, None, AgentStatus(true), owner);
    var r1 := r.(browsers := Broadcast(r.browsers, actor, None, AgentStatus(true)));
    var r2 := RegisterAgent(r, a, actor);
    forall s ensures SameSession(r1, r2, owner, s) {}
    forall x ensures SameAgent(r1, r2, owner, x) {}
    SameTwice(r, r1, r2, owner);
  }

  lemma RemoveAgentIsolated(r: Registry, a: AgentId, listing: seq<SessionInfo>, owner: Owner)
    requires Consistent(r) && a in r.agents && r.agents[a].owner != owner
    ensures SameFor(r, UnregisterAgent(r, a, listing), owner)
  {
    var actor := r.agents[a].owner;
    DropAgentIsolated(r, a, owner);
    var r1 := DropAgent(r, a);
    var status := AgentStatus(OwnerConnected(r1.agents, actor));
    BroadcastIsolated(r1, actor, None, status, owner);
    var r2 := r1.(browsers := Broadcast(r1.browsers, actor, None, status));
    SameTwice(r, r1, r2, owner);
    BroadcastIsolated(r2, actor, None, SessionList(listing), owner);
    SameTwice(r, r2, UnregisterAgent(r, a, listing), owner);
  }

  lemma FrameIsolated(r: Registry, a: AgentId, msg: AgentMessage, listing: seq<SessionInfo>, owner: Owner)
    requires Consistent(r) && a in r.agents && r.agents[a].owner != owner
    ensures SameFor(r, AgentFrame(r, a, msg, listing), owner)
  {
    match msg
    case SessionList(infos) =>
      var r1 := Reconcile(r, a, infos);
      ReconcileIsolated(r, a, infos, owner);
      BroadcastIsolated(r1, r.agents[a].owner, None, SessionList(listing), owner);
      SameTwice(r, r1, AgentList(r, a, infos, listing), owner);
    case Ready(_, _, _) => BroadcastIsolated(r, r.agents[a].owner, None, msg, owner);
    case Pong(_) =>
    case AgentStatus(_) =>
    case _ => SessionFrameIsolated(r, a, msg.sessionId, msg, owner);
  }

  /** Replacing or removing one browser of another owner. */
  lemma BrowserChangeIsolated(r: Registry, r': Registry, b: BrowserId, owner: Owner)
    requires BrowserOwner(r, b) != Some(owner) && BrowserOwner(r', b) != Some(owner)
    requires r' == r.(browsers := r'.browsers) && r'.browsers - {b} == r.browsers - {b}
    ensures SameFor(r, r', owner)
  {
    forall c ensures SameBrowser(r, r', owner, c) {
      if c != b { assert (c in r.browsers <==> c in r.browsers - {b}) && (c in r'.browsers <==> c in r'.browsers - {b}); }
    }
  }

  /** Changing the queue of one agent of another owner. */
  lemma AgentChangeIsolated(r: Registry, r': Registry, a: AgentId, owner: Owner)
    requires a in r.agents && r.agents[a].owner != owner
    requires exists inbox :: r' == r.(agents := r.agents[a := r.agents[a].(inbox := inbox)])
    ensures SameFor(r, r', owner)
  {
  }

  lemma QueueStepIsolated(r: Registry, step: Step, owner: Owner)
    requires Actor(r, step).Some? && Actor(r, step) != Some(owner)
    requires step.AgentTakes? || step.AgentCloses?
    ensures SameFor(r, Apply(r, step), owner)
  {
    var r' := Apply(r, step);
    assert r' == r.(agents := r.agents[step.agent := r.agents[step.agent].(inbox := r'.agents[step.agent].inbox)]);
    AgentChangeIsolated(r, r', step.agent, owner);
  }

  /** A step that nobody's agent or browser takes does nothing. */
  lemma NobodysStep(r: Registry, step: Step, owner: Owner)
    requires Actor(r, step).None?
    ensures SameFor(r, Apply(r, step), owner)
  {
    assert Apply(r, step) == r;
  }

  lemma BrowserStepIsolated(r: Registry, step: Step, owner: Owner)
    requires Allowed(r, step) && Actor(r, step).Some? && Actor(r, step) != Some(owner)
    requires step.AddBrowser? || step.RemoveBrowser? || step.Report? || step.BrowserTakes? || step.BrowserCloses?
    ensures SameFor(r, Apply(r, step), owner)
  {
    hide SameFor;
    BrowserChangeIsolated(r, Apply(r, step), step.browser, owner);
  }

  /** A step taken for one owner leaves every other owner's agents, routes, infos, subscriptions and queues as
      they were. */
  lemma StepIsolated(r: Registry, step: Step, owner: Owner)
    requires Consistent(r) && Allowed(r, step) && Actor(r, step) != Some(owner)
    ensures ViewOf(Apply(r, step), owner) == ViewOf(r, owner)
  {
    hide AgentFrame, BrowserCommand, UnregisterAgent, RegisterAgent, RegisterBrowser, BrowserError, Broadcast, Consistent, SameFor, ViewOf;
    if Actor(r, step).None? {
      NobodysStep(r, step, owner);
    } else {
      match step
      case AddAgent(a, actor) => AddAgentIsolated(r, a, actor, owner);
      case RemoveAgent(a, listing) => RemoveAgentIsolated(r, a, listing, owner);
      case Command(b, msg, order) => CommandIsolated(r, b, msg, order, owner);
      case Frame(a, msg, listing) => FrameIsolated(r, a, msg, listing, owner);
      case AgentTakes(_) => QueueStepIsolated(r, step, owner);
      case AgentCloses(_) => QueueStepIsolated(r, step, owner);
      case _ => BrowserStepIsolated(r, step, owner);
    }
    hide Apply;
    SameForIsSameView(r, Apply(r, step), owner);
  }
}
