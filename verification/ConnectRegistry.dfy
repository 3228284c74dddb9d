/** The server's relay registry: which agent owns which session, and which browsers follow it.

    Every public operation of the manager runs under one lock, so each is one function from the
    registry before to the registry after. Choices the source leaves to hash-map iteration order are
    parameters: `order` lists the agents, `listing` lists the infos an owner is sent. */
module ConnectRegistry {
  import opened Listing
  import opened Wire

  type AgentId = Text

  type BrowserId = nat

  datatype Owner = Owner(workspace: Text, user: Text)

  datatype Agent = Agent(owner: Owner, inbox: Channel<ServerMessage>)

  datatype Browser = Browser(owner: Owner, outbox: Channel<AgentMessage>, sessions: set<SessionId>)

  datatype Registry = Registry(
    agents: map<AgentId, Agent>,
    sessions: map<SessionId, AgentId>,
    infos: map<SessionId, SessionInfo>,
    browsers: map<BrowserId, Browser>)

  datatype Outcome = Accepted | Refused(error: Text)

  // ---------------------------------------------------------------- delivery to browsers

  /** `topic` narrows a message to the browsers following one session. */
  predicate Addressed(b: Browser, owner: Owner, topic: Option<SessionId>) {
    b.owner == owner && (topic.Some? ==> topic.value in b.sessions)
  }

  /** Queue `msg` for every addressed browser and drop the addressed browsers that cannot take it. */
  function Broadcast(browsers: map<BrowserId, Browser>, owner: Owner, topic: Option<SessionId>, msg: AgentMessage)
    : map<BrowserId, Browser>
  {
    map id | id in browsers && (Addressed(browsers[id], owner, topic) ==> browsers[id].outbox.CanSend())
      :: if Addressed(browsers[id], owner, topic)
         then browsers[id].(outbox := browsers[id].outbox.Push(msg))
         else browsers[id]
  }

  function Unfollow(browsers: map<BrowserId, Browser>, gone: set<SessionId>): map<BrowserId, Browser> {
    map id | id in browsers :: browsers[id].(sessions := browsers[id].sessions - gone)
  }

  function KeepFollowing(browsers: map<BrowserId, Browser>, valid: set<SessionId>): map<BrowserId, Browser> {
    map id | id in browsers :: browsers[id].(sessions := browsers[id].sessions * valid)
  }

  /** A non-blocking send to one browser that ignores failure. */
  function TrySend(browsers: map<BrowserId, Browser>, id: BrowserId, msg: AgentMessage): map<BrowserId, Browser> {
    if id in browsers && browsers[id].outbox.CanSend()
    then browsers[id := browsers[id].(outbox := browsers[id].outbox.Push(msg))]
    else browsers
  }

  predicate OwnerConnected(agents: map<AgentId, Agent>, owner: Owner) {
    exists a :: a in agents && agents[a].owner == owner
  }

  function RoutesOf(r: Registry, a: AgentId): set<SessionId> {
    set s | s in r.sessions && r.sessions[s] == a
  }

  predicate OwnedRoute(r: Registry, s: SessionId, owner: Owner) {
    s in r.sessions && r.sessions[s] in r.agents && r.agents[r.sessions[s]].owner == owner
  }

  function OwnerInfos(r: Registry, owner: Owner): set<SessionInfo> {
    set s | s in r.infos && OwnedRoute(r, r.infos[s].sessionId, owner) :: r.infos[s]
  }

  // ---------------------------------------------------------------- connections

  function RegisterAgent(r: Registry, id: AgentId, owner: Owner): Registry {
    r.(agents := r.agents[id := Agent(owner, NewChannel())],
       browsers := Broadcast(r.browsers, owner, None, AgentStatus(true)))
  }

  function DropAgent(r: Registry, id: AgentId): Registry {
    var removed := RoutesOf(r, id);
    Registry(
      r.agents - {id},
      map s | s in r.sessions && r.sessions[s] != id :: r.sessions[s],
      r.infos - removed,
      Unfollow(r.browsers, removed))
  }

  function UnregisterAgent(r: Registry, id: AgentId, listing: seq<SessionInfo>): Registry {
    if id !in r.agents then r
    else
      var owner := r.agents[id].owner;
      var r1 := DropAgent(r, id);
      var told := Broadcast(r1.browsers, owner, None, AgentStatus(OwnerConnected(r1.agents, owner)));
      r1.(browsers := Broadcast(told, owner, None, SessionList(listing)))
  }

  function RegisterBrowser(r: Registry, id: BrowserId, owner: Owner): Registry {
    var outbox := NewChannel<AgentMessage>().Push(AgentStatus(OwnerConnected(r.agents, owner)));
    r.(browsers := r.browsers[id := Browser(owner, outbox, {})])
  }

  function UnregisterBrowser(r: Registry, id: BrowserId): Registry {
    r.(browsers := r.browsers - {id})
  }

  function BrowserError(r: Registry, id: BrowserId, s: SessionId, error: Text): Registry {
    r.(browsers := TrySend(r.browsers, id, SessionEvent(s, SpawnFailed(error))))
  }

  // ---------------------------------------------------------------- commands from browsers

  function TotalLength(words: seq<Text>): nat {
    if words == [] then 0 else TotalLength(words[..|words| - 1]) + |words[|words| - 1]|
  }

  function EnvSize(env: seq<(Text, Text)>): nat {
    if env == [] then 0 else EnvSize(env[..|env| - 1]) + |env[|env| - 1].0| + |env[|env| - 1].1|
  }

  predicate ValidSpawn(msg: ServerMessage)
    requires msg.SpawnSession?
  {
    && 0 < |msg.command| <= 16
    && TotalLength(msg.command) <= 1024
    && (msg.workingDir.Some? ==> |msg.workingDir.value| <= 1024)
    && |msg.env| <= 128
    && EnvSize(msg.env) <= 16 * 1024
    && 0 < msg.cols <= 500
    && 0 < msg.rows <= 500
  }

  /** The first agent of `owner` in iteration order. */
  function FindAgent(agents: map<AgentId, Agent>, owner: Owner, order: seq<AgentId>): Option<AgentId> {
    if order == [] then None
    else if order[0] in agents && agents[order[0]].owner == owner then Some(order[0])
    else FindAgent(agents, owner, order[1..])
  }

  function SendTo(r: Registry, a: AgentId, msg: ServerMessage): Registry
    requires a in r.agents
  {
    r.(agents := r.agents[a := r.agents[a].(inbox := r.agents[a].inbox.Push(msg))])
  }

  function Follow(r: Registry, id: BrowserId, s: SessionId): Registry
    requires id in r.browsers
  {
    r.(browsers := r.browsers[id := r.browsers[id].(sessions := r.browsers[id].sessions + {s})])
  }

  function SpawnCommand(r: Registry, id: BrowserId, msg: ServerMessage, order: seq<AgentId>): (Registry, Outcome)
    requires id in r.browsers && msg.SpawnSession?
  {
    var s := msg.sessionId;
    if !ValidSpawn(msg) then (r, Refused("Invalid command or terminal dimensions"))
    else if !ValidSessionId(s) then (r, Refused("Invalid session ID"))
    else if s in r.sessions then (r, Refused("Session ID already exists"))
    else match FindAgent(r.agents, r.browsers[id].owner, order)
      case None => (r, Refused("No agent connected"))
      case Some(a) =>
        if |RoutesOf(r, a)| >= MAX_SESSIONS then (r, Refused("Session limit reached"))
        else if a !in r.agents || !r.agents[a].inbox.CanSend() then (r, Refused("Agent unavailable or busy"))
        else
          var r1 := SendTo(r, a, msg);
          (Follow(r1.(sessions := r1.sessions[s := a]), id, s), Accepted)
  }

  function SessionCommand(r: Registry, id: BrowserId, s: SessionId, msg: ServerMessage): (Registry, Outcome)
    requires id in r.browsers
  {
    if s !in r.sessions then (r, Refused("Unknown session"))
    else
      var a := r.sessions[s];
      if a !in r.agents then (r, Refused("Agent disconnected"))
      else if r.agents[a].owner != r.browsers[id].owner then (r, Refused("Session access denied"))
      else if !r.agents[a].inbox.CanSend() then (r, Refused("Agent unavailable or busy"))
      else
        var r1 := SendTo(r, a, msg);
        (if msg.ScrollbackRequest? then Follow(r1, id, s) else r1, Accepted)
  }

  /** Ask the owner's agents in turn, stopping at the first that cannot take the request. The boolean
      says whether any agent was asked. */
  function AskAgents(r: Registry, owner: Owner, order: seq<AgentId>): (Registry, bool, Outcome)
    decreases |order|
  {
    if order == [] then (r, false, Accepted)
    else if order[0] !in r.agents || r.agents[order[0]].owner != owner then AskAgents(r, owner, order[1..])
    else if !r.agents[order[0]].inbox.CanSend() then (r, false, Refused("Agent unavailable or busy"))
    else
      var (r1, _, outcome) := AskAgents(SendTo(r, order[0], ListSessions), owner, order[1..]);
      (r1, true, outcome)
  }

  function ListCommand(r: Registry, id: BrowserId, order: seq<AgentId>): (Registry, Outcome)
    requires id in r.browsers
  {
    var (r1, asked, outcome) := AskAgents(r, r.browsers[id].owner, order);
    if outcome.Refused? || asked then (r1, outcome)
    else (r1.(browsers := TrySend(r1.browsers, id, SessionList([]))), Accepted)
  }

  function BrowserCommand(r: Registry, id: BrowserId, msg: ServerMessage, order: seq<AgentId>): (Registry, Outcome) {
    if id !in r.browsers then (r, Refused("Browser disconnected"))
    else match msg
      case SpawnSession(_, _, _, _, _, _) => SpawnCommand(r, id, msg, order)
      case SessionInput(s, _) => SessionCommand(r, id, s, msg)
      case SessionResize(s, _, _) => SessionCommand(r, id, s, msg)
      case SessionKill(s, _) => SessionCommand(r, id, s, msg)
      case ScrollbackRequest(s) => SessionCommand(r, id, s, msg)
      case ListSessions => ListCommand(r, id, order)
      case Ping(_) => (r, Accepted)
  }

  // ---------------------------------------------------------------- events from agents

  /** Whether agent `a` may list `info`: a well-formed id that no other agent is routed for. */
  predicate Acceptable(routes: map<SessionId, AgentId>, a: AgentId, info: SessionInfo) {
    ValidSessionId(info.sessionId) && (info.sessionId in routes ==> routes[info.sessionId] == a)
  }

  function AcceptRoutes(routes: map<SessionId, AgentId>, a: AgentId, infos: seq<SessionInfo>): map<SessionId, AgentId> {
    if infos == [] then routes
    else
      var done := AcceptRoutes(routes, a, infos[..|infos| - 1]);
      var info := infos[|infos| - 1];
      if Acceptable(done, a, info) then done[info.sessionId := a] else done
  }

  function AcceptInfos(routes: map<SessionId, AgentId>, known: map<SessionId, SessionInfo>, a: AgentId, infos: seq<SessionInfo>)
    : map<SessionId, SessionInfo>
  {
    if infos == [] then known
    else
      var front := infos[..|infos| - 1];
      var info := infos[|infos| - 1];
      var done := AcceptInfos(routes, known, a, front);
      if Acceptable(AcceptRoutes(routes, a, front), a, info) then done[info.sessionId := info] else done
  }

  function AcceptedIds(routes: map<SessionId, AgentId>, a: AgentId, infos: seq<SessionInfo>): set<SessionId> {
    set info | info in infos && Acceptable(routes, a, info) :: info.sessionId
  }

  function FirstInfos(infos: seq<SessionInfo>): seq<SessionInfo> {
    if |infos| <= MAX_SESSIONS then infos else infos[..MAX_SESSIONS]
  }

  /** The registry after agent `a` reported `infos`, before anyone is told. */
  function Reconcile(r: Registry, a: AgentId, infos: seq<SessionInfo>): Registry {
    var first := FirstInfos(infos);
    var routes := AcceptRoutes(r.sessions, a, first);
    var known := AcceptInfos(r.sessions, r.infos, a, first);
    var ids := AcceptedIds(r.sessions, a, first);
    var kept := map s | s in routes && (routes[s] != a || s in ids || s !in known) :: routes[s];
    Registry(r.agents, kept, (map s | s in known && s in kept :: known[s]), KeepFollowing(r.browsers, kept.Keys))
  }

  function AgentList(r: Registry, a: AgentId, infos: seq<SessionInfo>, listing: seq<SessionInfo>): Registry
    requires a in r.agents
  {
    var r1 := Reconcile(r, a, infos);
    r1.(browsers := Broadcast(r1.browsers, r.agents[a].owner, None, SessionList(listing)))
  }

  function AgentSessionFrame(r: Registry, a: AgentId, s: SessionId, msg: AgentMessage): Registry
    requires a in r.agents
  {
    if s !in r.sessions || r.sessions[s] != a then r
    else
      var r1 := r.(browsers := Broadcast(r.browsers, r.agents[a].owner, Some(s), msg));
      if IsTerminalFor(msg, s)
      then Registry(r1.agents, r1.sessions - {s}, r1.infos - {s}, Unfollow(r1.browsers, {s}))
      else r1
  }

  function AgentFrame(r: Registry, a: AgentId, msg: AgentMessage, listing: seq<SessionInfo>): Registry {
    if a !in r.agents then r
    else match msg
      case SessionList(infos) => AgentList(r, a, infos, listing)
      case SessionOutput(s, _) => AgentSessionFrame(r, a, s, msg)
      case ScrollbackDump(s, _) => AgentSessionFrame(r, a, s, msg)
      case SessionEvent(s, _) => AgentSessionFrame(r, a, s, msg)
      case Ready(_, _, _) => r.(browsers := Broadcast(r.browsers, r.agents[a].owner, None, msg))
      case Pong(_) => r
      case AgentStatus(_) => r
  }

  // ---------------------------------------------------------------- steps

  datatype Step =
    | AddAgent(agent: AgentId, owner: Owner)
    | RemoveAgent(agent: AgentId, listing: seq<SessionInfo>)
    | AddBrowser(browser: BrowserId, owner: Owner)
    | RemoveBrowser(browser: BrowserId)
    | Command(browser: BrowserId, command: ServerMessage, order: seq<AgentId>)
    | Report(browser: BrowserId, session: SessionId, error: Text)
    | Frame(agent: AgentId, frame: AgentMessage, listing: seq<SessionInfo>)
    // The far ends of the queues: receivers take messages and go away.
    | AgentTakes(agent: AgentId)
    | AgentCloses(agent: AgentId)
    | BrowserTakes(browser: BrowserId)
    | BrowserCloses(browser: BrowserId)

  function Apply(r: Registry, step: Step): Registry {
    match step
    case AddAgent(a, owner) => RegisterAgent(r, a, owner)
    case RemoveAgent(a, listing) => UnregisterAgent(r, a, listing)
    case AddBrowser(b, owner) => RegisterBrowser(r, b, owner)
    case RemoveBrowser(b) => UnregisterBrowser(r, b)
    case Command(b, msg, order) => BrowserCommand(r, b, msg, order).0
    case Report(b, s, error) => BrowserError(r, b, s, error)
    case Frame(a, msg, listing) => AgentFrame(r, a, msg, listing)
    case AgentTakes(a) =>
      if a in r.agents && r.agents[a].inbox.taken < |r.agents[a].inbox.sent|
      then r.(agents := r.agents[a := r.agents[a].(inbox := r.agents[a].inbox.(taken := r.agents[a].inbox.taken + 1))])
      else r
    case AgentCloses(a) =>
      if a in r.agents
      then r.(agents := r.agents[a := r.agents[a].(inbox := r.agents[a].inbox.(open := false))])
      else r
    case BrowserTakes(b) =>
      if b in r.browsers && r.browsers[b].outbox.taken < |r.browsers[b].outbox.sent|
      then r.(browsers := r.browsers[b := r.browsers[b].(outbox := r.browsers[b].outbox.(taken := r.browsers[b].outbox.taken + 1))])
      else r
    case BrowserCloses(b) =>
      if b in r.browsers
      then r.(browsers := r.browsers[b := r.browsers[b].(outbox := r.browsers[b].outbox.(open := false))])
      else r
  }

  /** Connection ids are never reused while live: agent ids come from the connection handler and browser
      ids from a counter. The listings are listings of what they claim to list. */
  predicate Allowed(r: Registry, step: Step) {
    match step
    case AddAgent(a, _) => a !in r.agents
    case AddBrowser(b, _) => b !in r.browsers
    case RemoveAgent(a, listing) =>
      a in r.agents ==> Lists(listing, OwnerInfos(DropAgent(r, a), r.agents[a].owner))
    case Command(_, _, order) => Lists(order, r.agents.Keys)
    case Frame(a, frame, listing) =>
      a in r.agents && frame.SessionList? ==>
        Lists(listing, OwnerInfos(Reconcile(r, a, frame.sessions), r.agents[a].owner))
    case _ => true
  }

  const EMPTY := Registry(map[], map[], map[], map[])

  /** The registries a run of allowed steps can produce, one after each step. */
  ghost predicate IsRun(states: seq<Registry>, steps: seq<Step>) {
    && |states| == |steps| + 1
    && states[0] == EMPTY
    && forall i {:trigger steps[i]} :: 0 <= i < |steps| ==> Allowed(states[i], steps[i]) && states[i + 1] == Apply(states[i], steps[i])
  }
}
