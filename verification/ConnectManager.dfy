/** The relay manager as an object: each operation updates the four tables in place, as it does under the
    manager's lock, and is proved to take the registry through exactly one step of `ConnectRegistry`.
    Where the source iterates over a hash map, the order taken is returned. */
module ConnectManager {
  import opened Listing
  import opened Wire
  import opened RegistryProperties
  import RegistryRuns
  import opened Registry = ConnectRegistry

  /** What listing one more info does, in terms of the tables as they are by then. */
  lemma AcceptNext(routes: map<SessionId, AgentId>, known: map<SessionId, SessionInfo>, a: AgentId, first: seq<SessionInfo>, i: nat)
    requires i < |first|
    ensures var now := AcceptRoutes(routes, a, first[..i]);
            if Acceptable(now, a, first[i])
            then AcceptRoutes(routes, a, first[..i + 1]) == now[first[i].sessionId := a]
                 && AcceptInfos(routes, known, a, first[..i + 1])
                    == AcceptInfos(routes, known, a, first[..i])[first[i].sessionId := first[i]]
                 && AcceptedIds(routes, a, first[..i + 1]) == AcceptedIds(routes, a, first[..i]) + {first[i].sessionId}
            else AcceptRoutes(routes, a, first[..i + 1]) == now
                 && AcceptInfos(routes, known, a, first[..i + 1]) == AcceptInfos(routes, known, a, first[..i])
                 && AcceptedIds(routes, a, first[..i + 1]) == AcceptedIds(routes, a, first[..i])
  {
    assert first[..i + 1][..i] == first[..i] && first[..i + 1][i] == first[i];
    StillAcceptable(routes, a, first[..i], first[i]);
    AcceptedIdsLast(routes, a, first[..i + 1]);
  }

  lemma AskNext(r: Registry.Registry, owner: Owner, order: seq<AgentId>, i: nat)
    requires i < |order| && order[i] in r.agents
    ensures var a := order[i];
            AskAgents(r, owner, order[i..])
            == if r.agents[a].owner != owner then AskAgents(r, owner, order[i + 1..])
               else if !r.agents[a].inbox.CanSend() then (r, false, Refused("Agent unavailable or busy"))
               else
                 var rest := AskAgents(SendTo(r, a, ListSessions), owner, order[i + 1..]);
                 (rest.0, true, rest.2)
  {
    assert order[i..][1..] == order[i + 1..];
  }

  lemma AskNobody(r: Registry.Registry, owner: Owner, order: seq<AgentId>)
    ensures AskAgents(r, owner, order[|order|..]) == (r, false, Outcome.Accepted)
  {
  }

  /** What a broadcast leaves of one browser. */
  lemma BroadcastAt(browsers: map<BrowserId, Browser>, owner: Owner, topic: Option<SessionId>, msg: AgentMessage, b: BrowserId)
    ensures var told := Broadcast(browsers, owner, topic, msg);
            var kept := b in browsers && (Addressed(browsers[b], owner, topic) ==> browsers[b].outbox.CanSend());
            (b in told <==> kept)
            && (kept ==> told[b] == if Addressed(browsers[b], owner, topic)
                                    then browsers[b].(outbox := browsers[b].outbox.Push(msg))
                                    else browsers[b])
  {
  }

  lemma StepKeeps(r: Registry.Registry, step: Step)
    requires Consistent(r) && Bounded(r) && Allowed(r, step)
    ensures Consistent(Apply(r, step)) && Bounded(Apply(r, step))
  {
    StepConsistent(r, step);
    StepBounded(r, step);
  }

  class Manager {
    var agents: map<AgentId, Agent>
    var sessions: map<SessionId, AgentId>
    var infos: map<SessionId, SessionInfo>
    var browsers: map<BrowserId, Browser>

    function State(): Registry.Registry
      reads this
    {
      Registry.Registry.Registry(agents, sessions, infos, browsers)
    }

    ghost predicate Valid()
      reads this
    {
      Consistent(State()) && Bounded(State())
    }

    constructor ()
      ensures State() == EMPTY && Valid()
    {
      agents, sessions, infos, browsers := map[], map[], map[], map[];
      new;
      RegistryRuns.EmptyBounded();
    }

    method OwnerSessions(owner: Owner) returns (listing: seq<SessionInfo>)
      requires Consistent(State())
      ensures Lists(listing, OwnerInfos(State(), owner))
    {
      var rest := infos.Keys;
      listing := [];
      while rest != {}
        invariant rest <= infos.Keys && Distinct(listing)
        invariant forall info :: info in listing <==>
                    info.sessionId in infos && infos[info.sessionId] == info && info.sessionId !in rest
                    && OwnedRoute(State(), info.sessionId, owner)
        decreases |rest|
      {
        var s :| s in rest;
        var info := infos[s];
        if info.sessionId in sessions && sessions[info.sessionId] in agents && agents[sessions[info.sessionId]].owner == owner {
          listing := listing + [info];
        }
        rest := rest - {s};
      }
    }

    /** The tables after an agent's session list, before its owner's browsers are told. */
    method Accept(id: AgentId, listed: seq<SessionInfo>)
      modifies this
      ensures State() == Reconcile(old(State()), id, listed)
    {
      var first := if |listed| <= MAX_SESSIONS then listed else listed[..MAX_SESSIONS];
      var accepted: set<SessionId> := {};
      var i := 0;
      while i < |first|
        invariant i <= |first| && first == FirstInfos(listed)
        invariant agents == old(agents) && browsers == old(browsers)
        invariant sessions == AcceptRoutes(old(sessions), id, first[..i])
        invariant infos == AcceptInfos(old(sessions), old(infos), id, first[..i])
        invariant accepted == AcceptedIds(old(sessions), id, first[..i])
      {
        var info := first[i];
        AcceptNext(old(sessions), old(infos), id, first, i);
        if info.sessionId != "" && |info.sessionId| <= MAX_SESSION_ID
           && (info.sessionId in sessions ==> sessions[info.sessionId] == id)
        {
          sessions := sessions[info.sessionId := id];
          infos := infos[info.sessionId := info];
          accepted := accepted + {info.sessionId};
        }
        i := i + 1;
      }
      assert first[..i] == first;
      var acknowledged := infos.Keys;
      sessions := map s | s in sessions && (sessions[s] != id || s in accepted || s !in acknowledged) :: sessions[s];
      infos := map s | s in infos && s in sessions :: infos[s];
      browsers := map b | b in browsers :: browsers[b].(sessions := browsers[b].sessions * sessions.Keys);
    }

    method Relay(id: AgentId, owner: Owner, s: SessionId, msg: AgentMessage)
      requires id in agents && agents[id].owner == owner
      modifies this
      ensures State() == AgentSessionFrame(old(State()), id, s, msg)
    {
      if s !in sessions || sessions[s] != id { return; }
      Deliver(owner, Some(s), msg);
      if msg.SessionEvent? && msg.sessionId == s && (msg.event.Exited? || msg.event.Killed? || msg.event.SpawnFailed?) {
        sessions := sessions - {s};
        infos := infos - {s};
        browsers := map b | b in browsers :: browsers[b].(sessions := browsers[b].sessions - {s});
      }
    }

    method AgentMessage(id: AgentId, msg: AgentMessage) returns (listing: seq<SessionInfo>)
      requires Valid()
      modifies this
      ensures Allowed(old(State()), Frame(id, msg, listing))
      ensures Valid() && State() == Apply(old(State()), Frame(id, msg, listing))
    {
      listing := [];
      if id in agents {
        var owner := agents[id].owner;
        match msg {
          case SessionList(listed) => listing := Listed(id, owner, listed);
          case SessionOutput(s, _) => Relay(id, owner, s, msg);
          case ScrollbackDump(s, _) => Relay(id, owner, s, msg);
          case SessionEvent(s, _) => Relay(id, owner, s, msg);
          case Ready(_, _, _) => Deliver(owner, None, msg);
          case Pong(_) =>
          case AgentStatus(_) =>
        }
      }
      StepKeeps(old(State()), Frame(id, msg, listing));
    }

    /** Send to every addressed browser; a browser whose queue cannot take the message is dropped. */
    method Deliver(owner: Owner, topic: Option<SessionId>, msg: AgentMessage)
      modifies this`browsers
      ensures browsers == Broadcast(old(browsers), owner, topic, msg)
    {
      ghost var told := Broadcast(browsers, owner, topic, msg);
      hide *;
      var rest := browsers.Keys;
      while rest != {}
        invariant rest <= old(browsers).Keys
        invariant browsers.Keys <= old(browsers).Keys
        invariant forall b :: b in rest ==> b in browsers && browsers[b] == old(browsers)[b]
        invariant forall b :: b in old(browsers) && b !in rest ==>
                    (b in browsers <==> b in told) && (b in told ==> browsers[b] == told[b])
        decreases |rest|
      {
        var b :| b in rest;
        BroadcastAt(old(browsers), owner, topic, msg, b);
        if Addressed(browsers[b], owner, topic) {
          if browsers[b].outbox.CanSend() {
            browsers := browsers[b := browsers[b].(outbox := browsers[b].outbox.Push(msg))];
          } else {
            browsers := browsers - {b};
          }
        }
        rest := rest - {b};
      }
      forall b ensures b in told ==> b in old(browsers) {
        BroadcastAt(old(browsers), owner, topic, msg, b);
      }
    }

    method Listed(id: AgentId, owner: Owner, listed: seq<SessionInfo>) returns (listing: seq<SessionInfo>)
      requires Valid() && id in agents && agents[id].owner == owner
      modifies this
      ensures Lists(listing, OwnerInfos(Reconcile(old(State()), id, listed), owner))
      ensures State() == AgentList(old(State()), id, listed, listing)
    {
      ReconcileConsistent(State(), id, listed);
      Accept(id, listed);
      listing := OwnerSessions(owner);
      Deliver(owner, None, SessionList(listing));
    }

    method RegisterAgent(id: AgentId, owner: Owner)
      requires Valid() && id !in agents
      modifies this
      ensures Valid() && State() == Apply(old(State()), AddAgent(id, owner))
    {
      StepKeeps(State(), AddAgent(id, owner));
      agents := agents[id := Agent(owner, NewChannel())];
      Deliver(owner, None, AgentStatus(true));
    }

    /** Forget agent `id`, its routes, their infos and the subscriptions to them. */
    method Drop(id: AgentId)
      modifies this
      ensures State() == DropAgent(old(State()), id)
    {
      var removed := set s | s in sessions && sessions[s] == id;
      agents := agents - {id};
      sessions := map s | s in sessions && sessions[s] != id :: sessions[s];
      infos := infos - removed;
      browsers := map b | b in browsers :: browsers[b].(sessions := browsers[b].sessions - removed);
    }

    method UnregisterAgent(id: AgentId) returns (listing: seq<SessionInfo>)
      requires Valid()
      modifies this
      ensures Allowed(old(State()), RemoveAgent(id, listing))
      ensures Valid() && State() == Apply(old(State()), RemoveAgent(id, listing))
    {
      listing := [];
      if id in agents {
        var owner := agents[id].owner;
        DropAgentConsistent(State(), id);
        Drop(id);
        var connected := exists a :: a in agents && agents[a].owner == owner;
        BroadcastConsistent(State(), owner, None, AgentStatus(connected));
        Deliver(owner, None, AgentStatus(connected));
        listing := OwnerSessions(owner);
        assert OwnerInfos(State(), owner) == OwnerInfos(DropAgent(old(State()), id), owner);
        Deliver(owner, None, SessionList(listing));
      }
      StepKeeps(old(State()), RemoveAgent(id, listing));
    }

    method RegisterBrowser(id: BrowserId, owner: Owner)
      requires Valid() && id !in browsers
      modifies this
      ensures Valid() && State() == Apply(old(State()), AddBrowser(id, owner))
    {
      StepKeeps(State(), AddBrowser(id, owner));
      var connected := exists a :: a in agents && agents[a].owner == owner;
      var outbox := NewChannel<AgentMessage>();
      outbox := outbox.Push(AgentStatus(connected));
      browsers := browsers[id := Browser(owner, outbox, {})];
    }

    method UnregisterBrowser(id: BrowserId)
      requires Valid()
      modifies this
      ensures Valid() && State() == Apply(old(State()), RemoveBrowser(id))
    {
      StepKeeps(State(), RemoveBrowser(id));
      browsers := browsers - {id};
    }

    method BrowserError(id: BrowserId, s: SessionId, error: Text)
      requires Valid()
      modifies this
      ensures Valid() && State() == Apply(old(State()), Report(id, s, error))
    {
      StepKeeps(State(), Report(id, s, error));
      if id in browsers && browsers[id].outbox.CanSend() {
        browsers := browsers[id := browsers[id].(outbox := browsers[id].outbox.Push(SessionEvent(s, SpawnFailed(error))))];
      }
    }

    method Send(a: AgentId, msg: ServerMessage)
      requires a in agents
      modifies this`agents
      ensures State() == SendTo(old(State()), a, msg)
    {
      agents := agents[a := agents[a].(inbox := agents[a].inbox.Push(msg))];
    }

    method Subscribe(id: BrowserId, s: SessionId)
      requires id in browsers
      modifies this`browsers
      ensures State() == Follow(old(State()), id, s)
    {
      browsers := browsers[id := browsers[id].(sessions := browsers[id].sessions + {s})];
    }

    method Spawn(id: BrowserId, msg: ServerMessage, order: seq<AgentId>) returns (outcome: Outcome)
      requires id in browsers && msg.SpawnSession? && Lists(order, agents.Keys)
      modifies this
      ensures (State(), outcome) == SpawnCommand(old(State()), id, msg, order)
    {
      var s, owner := msg.sessionId, browsers[id].owner;
      if !ValidSpawn(msg) { return Refused("Invalid command or terminal dimensions"); }
      if s == "" || |s| > MAX_SESSION_ID { return Refused("Invalid session ID"); }
      if s in sessions { return Refused("Session ID already exists"); }
      var i := 0;
      while i < |order| && agents[order[i]].owner != owner
        invariant i <= |order|
        invariant forall a :: a in order ==> a in agents
        invariant FindAgent(agents, owner, order) == FindAgent(agents, owner, order[i..])
      {
        i := i + 1;
      }
      if i == |order| { return Refused("No agent connected"); }
      var a := order[i];
      if |set t | t in sessions && sessions[t] == a| >= MAX_SESSIONS { return Refused("Session limit reached"); }
      if !agents[a].inbox.CanSend() { return Refused("Agent unavailable or busy"); }
      Send(a, msg);
      sessions := sessions[s := a];
      Subscribe(id, s);
      return Accepted;
    }

    method Command(id: BrowserId, s: SessionId, msg: ServerMessage) returns (outcome: Outcome)
      requires id in browsers
      modifies this
      ensures (State(), outcome) == SessionCommand(old(State()), id, s, msg)
    {
      if s !in sessions { return Refused("Unknown session"); }
      var a := sessions[s];
      if a !in agents { return Refused("Agent disconnected"); }
      if agents[a].owner != browsers[id].owner { return Refused("Session access denied"); }
      if !agents[a].inbox.CanSend() { return Refused("Agent unavailable or busy"); }
      Send(a, msg);
      if msg.ScrollbackRequest? { Subscribe(id, s); }
      return Accepted;
    }

    method List(id: BrowserId, order: seq<AgentId>) returns (outcome: Outcome)
      requires id in browsers && Lists(order, agents.Keys)
      modifies this
      ensures (State(), outcome) == ListCommand(old(State()), id, order)
    {
      hide AskAgents;
      var owner, sent, i := browsers[id].owner, false, 0;
      assert order[0..] == order;
      while i < |order|
        invariant i <= |order| && agents.Keys == old(agents).Keys
        invariant State() == old(State()).(agents := agents)
        invariant forall a :: a in order ==> a in agents
        invariant var rest := AskAgents(State(), owner, order[i..]);
                  AskAgents(old(State()), owner, order) == (rest.0, sent || rest.1, rest.2)
      {
        var a := order[i];
        AskNext(State(), owner, order, i);
        if agents[a].owner == owner {
          if !agents[a].inbox.CanSend() { return Refused("Agent unavailable or busy"); }
          Send(a, ListSessions);
          sent := true;
        }
        i := i + 1;
      }
      AskNobody(State(), owner, order);
      if !sent && browsers[id].outbox.CanSend() {
        browsers := browsers[id := browsers[id].(outbox := browsers[id].outbox.Push(SessionList([])))];
      }
      return Accepted;
    }

    method BrowserCommand(id: BrowserId, msg: ServerMessage) returns (outcome: Outcome, order: seq<AgentId>)
      requires Valid()
      modifies this
      ensures Lists(order, old(agents).Keys)
      ensures (State(), outcome) == Registry.BrowserCommand(old(State()), id, msg, order)
      ensures Valid() && State() == Apply(old(State()), Registry.Command(id, msg, order))
    {
      order := Enumerate(agents.Keys);
      StepKeeps(State(), Registry.Command(id, msg, order));
      if id !in browsers {
        outcome := Refused("Browser disconnected");
      } else {
        match msg {
          case SpawnSession(_, _, _, _, _, _) => outcome := Spawn(id, msg, order);
          case SessionInput(s, _) => outcome := Command(id, s, msg);
          case SessionResize(s, _, _) => outcome := Command(id, s, msg);
          case SessionKill(s, _) => outcome := Command(id, s, msg);
          case ScrollbackRequest(s) => outcome := Command(id, s, msg);
          case ListSessions => outcome := List(id, order);
          case Ping(_) => outcome := Accepted;
        }
      }
    }
  }
}
