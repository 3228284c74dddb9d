/** The registry over whole runs: what holds in every reachable state, and what never changes along the way. */
module RegistryRuns {
  import opened Listing
  import opened Wire
  import opened ConnectRegistry
  import opened RegistryProperties

  lemma EmptyBounded()
    ensures Bounded(EMPTY)
  {
    forall a ensures |Pending(EMPTY, a)| <= MAX_SESSIONS && |Acknowledged(EMPTY, a)| <= MAX_SESSIONS {
      assert Pending(EMPTY, a) == {} && Acknowledged(EMPTY, a) == {};
    }
  }

  lemma {:induction false} RunKeepsTables(states: seq<Registry>, steps: seq<Step>, i: nat)
    requires IsRun(states, steps) && i < |states|
    ensures Consistent(states[i]) && Bounded(states[i])
  {
    if i == 0 {
      EmptyBounded();
    } else {
      RunKeepsTables(states, steps, i - 1);
      StepConsistent(states[i - 1], steps[i - 1]);
      StepBounded(states[i - 1], steps[i - 1]);
    }
  }

  /** In every reachable state an agent has at most 32 sessions it has not listed and 64 sessions in all. */
  lemma SessionBound(states: seq<Registry>, steps: seq<Step>, i: nat, a: AgentId)
    requires IsRun(states, steps) && i < |states|
    ensures |Pending(states[i], a)| <= 32 && |RoutesOf(states[i], a)| <= 64
  {
    RunKeepsTables(states, steps, i);
    var pending, acknowledged := Pending(states[i], a), Acknowledged(states[i], a);
    assert RoutesOf(states[i], a) == pending + acknowledged && pending !! acknowledged;
  }

  ghost predicate StaysRouted(states: seq<Registry>, s: SessionId, i: nat, j: nat)
    requires j < |states|
  {
    forall k {:trigger states[k]} :: i <= k <= j ==> s in states[k].sessions
  }

  /** For as long as a session stays routed it stays with the same agent, and once its agent has listed it, it
      never becomes a reservation again. */
  lemma {:induction false} RouteFixed(states: seq<Registry>, steps: seq<Step>, s: SessionId, i: nat, j: nat)
    requires IsRun(states, steps) && i <= j < |states| && StaysRouted(states, s, i, j)
    ensures states[j].sessions[s] == states[i].sessions[s]
    ensures s in states[i].infos ==> s in states[j].infos
    decreases j
  {
    if i < j {
      var before, step := states[j - 1], steps[j - 1];
      assert s in before.sessions;
      RouteFixed(states, steps, s, i, j - 1);
      RunKeepsTables(states, steps, j - 1);
      RouteStable(before, step, s);
    }
  }

  // ---------------------------------------------------------------- what reaches an agent

  predicate OnlyValidSpawns(sent: seq<ServerMessage>) {
    forall i :: 0 <= i < |sent| && sent[i].SpawnSession? ==> ValidSpawn(sent[i]) && ValidSessionId(sent[i].sessionId)
  }

  ghost predicate SpawnsValid(r: Registry) {
    forall a {:trigger r.agents[a]} :: a in r.agents ==> OnlyValidSpawns(r.agents[a].inbox.sent)
  }

  lemma {:induction false} AskAgentsSpawns(r: Registry, owner: Owner, order: seq<AgentId>)
    requires SpawnsValid(r)
    ensures SpawnsValid(AskAgents(r, owner, order).0)
    decreases |order|
  {
    if order == [] {
    } else if order[0] in r.agents && r.agents[order[0]].owner == owner && r.agents[order[0]].inbox.CanSend() {
      AskAgentsSpawns(SendTo(r, order[0], ListSessions), owner, order[1..]);
    } else {
      AskAgentsSpawns(r, owner, order[1..]);
    }
  }

  lemma CommandSpawns(r: Registry, b: BrowserId, msg: ServerMessage, order: seq<AgentId>)
    requires SpawnsValid(r)
    ensures SpawnsValid(BrowserCommand(r, b, msg, order).0)
  {
    if b in r.browsers && msg.ListSessions? { AskAgentsSpawns(r, r.browsers[b].owner, order); }
    hide AskAgents;
  }

  lemma FrameSpawns(r: Registry, a: AgentId, msg: AgentMessage, listing: seq<SessionInfo>)
    requires SpawnsValid(r)
    ensures SpawnsValid(AgentFrame(r, a, msg, listing))
  {
    hide Broadcast;
  }

  lemma RemoveSpawns(r: Registry, a: AgentId, listing: seq<SessionInfo>)
    requires SpawnsValid(r)
    ensures SpawnsValid(UnregisterAgent(r, a, listing))
  {
    hide Broadcast;
  }

  lemma StepSpawns(r: Registry, step: Step)
    requires SpawnsValid(r)
    ensures SpawnsValid(Apply(r, step))
  {
    hide AgentFrame, BrowserCommand, UnregisterAgent, Broadcast;
    match step
    case Command(b, msg, order) => CommandSpawns(r, b, msg, order);
    case Frame(a, msg, listing) => FrameSpawns(r, a, msg, listing);
    case RemoveAgent(a, listing) => RemoveSpawns(r, a, listing);
    case _ =>
  }

  /** Every spawn request any agent is ever sent respects the size limits and has a well-formed session id. */
  lemma {:induction false} SpawnsReachingAgents(states: seq<Registry>, steps: seq<Step>, i: nat)
    requires IsRun(states, steps) && i < |states|
    ensures SpawnsValid(states[i])
  {
    if i > 0 {
      SpawnsReachingAgents(states, steps, i - 1);
      StepSpawns(states[i - 1], steps[i - 1]);
    }
  }
}
