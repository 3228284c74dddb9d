/** One connection of an agent: its PTY manager, the frames under way, and the server's registry. What each step
    of any party does to a browser that follows a session. */
module RelayLink {
  import opened Listing
  import opened Wire
  import opened ConnectRegistry
  import opened RegistryProperties
  import P = PtyAgent
  import I = PtyInvariant

  /** One connection of one agent. `boot` are the two bootstrap frames; after them the connection carries
      `agent.queued` from position `start` on. `forwarded` is how far the writer has come on that channel
      and `received` how many frames of the connection the server has handled. */
  datatype Link = Link(agent: P.State, reg: Registry, boot: seq<AgentMessage>, start: nat, forwarded: nat, received: nat)

  datatype LinkStep =
    | Agent(action: P.Action)
    | Forward
    | Deliver(listing: seq<SessionInfo>)
    | Server(step: Step)

  /** How much of the agent's channel the server has handled. */
  function Handled(l: Link): nat {
    if l.received <= |l.boot| then l.start else l.start + (l.received - |l.boot|)
  }

  predicate Arrived(l: Link) {
    l.start <= l.forwarded <= |l.agent.queued| && l.received < |l.boot| + (l.forwarded - l.start)
  }

  function NextFrame(l: Link): AgentMessage
    requires Arrived(l)
  {
    if l.received < |l.boot| then l.boot[l.received] else l.agent.queued[Handled(l)].msg
  }

  /** Anything the rest of the world does to the registry: other agents, all browsers, queue ends. */
  predicate IsElsewhere(step: Step, me: AgentId) {
    && (step.Frame? || step.RemoveAgent? ==> step.agent != me)
  }

  predicate LinkEnabled(l: Link, step: LinkStep, me: AgentId) {
    match step
    case Agent(action) => P.Enabled(l.agent, action)
    case Forward => l.forwarded < |l.agent.queued|
    case Deliver(listing) => Arrived(l) && Allowed(l.reg, Frame(me, NextFrame(l), listing))
    case Server(s) => Allowed(l.reg, s) && IsElsewhere(s, me)
  }

  function LinkNext(l: Link, step: LinkStep, me: AgentId, capacity: nat): Link
    requires LinkEnabled(l, step, me)
  {
    match step
    case Agent(action) => l.(agent := P.Next(l.agent, action, capacity))
    case Forward => l.(forwarded := l.forwarded + 1)
    case Deliver(listing) => l.(reg := AgentFrame(l.reg, me, NextFrame(l), listing), received := l.received + 1)
    case Server(s) => l.(reg := Apply(l.reg, s))
  }

  /** A connection that has just been made: the agent announces itself and lists its sessions before
      anything already on its channel is sent. */
  ghost predicate Connected(l: Link, me: AgentId, capacity: nat) {
    && I.Inv(l.agent, capacity)
    && Consistent(l.reg) && me in l.reg.agents
    && |l.boot| == 2 && l.boot[0].Ready? && l.boot[1].SessionList?
    && SessionIds(l.boot[1].sessions) == l.agent.sessions.Keys
    && l.start == l.forwarded <= |l.agent.queued|
    && l.received == 0
  }

  ghost predicate LinkStepped(l: Link, step: LinkStep, l': Link, me: AgentId, capacity: nat) {
    LinkEnabled(l, step, me) && l' == LinkNext(l, step, me, capacity)
  }

  ghost predicate IsLinkRun(links: seq<Link>, steps: seq<LinkStep>, me: AgentId, capacity: nat) {
    && |links| == |steps| + 1
    && Connected(links[0], me, capacity)
    && forall i {:trigger steps[i]} :: 0 <= i < |steps| ==>
         LinkStepped(links[i], steps[i], links[i + 1], me, capacity)
  }

  ghost predicate LinkInv(l: Link, me: AgentId, capacity: nat) {
    && I.Inv(l.agent, capacity)
    && Consistent(l.reg)
    && l.start <= l.forwarded <= |l.agent.queued|
    && l.received <= |l.boot| + (l.forwarded - l.start)
  }

  // ---------------------------------------------------------------- the registry, seen by one follower

  predicate Following(r: Registry, me: AgentId, s: SessionId, b: BrowserId) {
    && b in r.browsers && s in r.browsers[b].sessions
    && s in r.sessions && r.sessions[s] == me
  }

  /** `r'` extends browser `b`'s queue by `more`. */
  predicate Extends(r: Registry, r': Registry, b: BrowserId, more: seq<AgentMessage>) {
    && b in r.browsers && b in r'.browsers
    && r'.browsers[b].outbox.sent == r.browsers[b].outbox.sent + more
  }

  function Arriving(r: Registry, r': Registry, b: BrowserId): seq<AgentMessage>
    requires b in r.browsers && b in r'.browsers
  {
    if |r.browsers[b].outbox.sent| <= |r'.browsers[b].outbox.sent|
    then r'.browsers[b].outbox.sent[|r.browsers[b].outbox.sent|..] else []
  }

  /** What no step may do to a follower of `s`: carry bytes of `s` that the agent did not send now. */
  ghost predicate Undisturbed(r: Registry, r': Registry, me: AgentId, s: SessionId, b: BrowserId) {
    && Following(r', me, s, b)
    && b in r.browsers
    && Extends(r, r', b, Arriving(r, r', b))
    && OutputBytes(Arriving(r, r', b), s) == []
  }

  lemma ConcatAssociates<T>(a: seq<T>, b: seq<T>, c: seq<T>)
    ensures a + (b + c) == (a + b) + c
  {
  }

  lemma {:induction false} OutputBytesConcat(xs: seq<AgentMessage>, ys: seq<AgentMessage>, s: SessionId)
    ensures OutputBytes(xs + ys, s) == OutputBytes(xs, s) + OutputBytes(ys, s)
  {
    if ys == [] {
      assert xs + ys == xs;
    } else {
      var front, last := ys[..|ys| - 1], ys[|ys| - 1];
      OutputBytesConcat(xs, front, s);
      assert (xs + ys)[..|xs + ys| - 1] == xs + front;
      ConcatAssociates(OutputBytes(xs, s), OutputBytes(front, s), BytesIn(last, s));
    }
  }

  lemma OutputBytesOne(m: AgentMessage, s: SessionId)
    ensures OutputBytes([m], s) == BytesIn(m, s)
    ensures OutputBytes([], s) == []
  {
    assert [m][..0] == [];
  }

  /** A broadcast adds nothing or just the message. */
  lemma BroadcastExtends(r: Registry, owner: Owner, topic: Option<SessionId>, msg: AgentMessage, b: BrowserId)
    requires b in r.browsers && b in Broadcast(r.browsers, owner, topic, msg)
    ensures var r' := r.(browsers := Broadcast(r.browsers, owner, topic, msg));
            && r'.browsers[b].sessions == r.browsers[b].sessions
            && r'.browsers[b].owner == r.browsers[b].owner
            && Extends(r, r', b, if Addressed(r.browsers[b], owner, topic) then [msg] else [])
            && Arriving(r, r', b) == if Addressed(r.browsers[b], owner, topic) then [msg] else []
  {
  }

  lemma ElsewhereFrameUndisturbed(r: Registry, other: AgentId, msg: AgentMessage, listing: seq<SessionInfo>,
                                  me: AgentId, s: SessionId, b: BrowserId)
    requires Consistent(r) && Following(r, me, s, b) && other != me
    requires b in AgentFrame(r, other, msg, listing).browsers
    ensures Undisturbed(r, AgentFrame(r, other, msg, listing), me, s, b)
  {
    OutputBytesOne(SessionList(listing), s);
    OutputBytesOne(msg, s);
    if other in r.agents {
      var owner := r.agents[other].owner;
      match msg
      case SessionList(infos) =>
        AcceptExact(r, other, FirstInfos(infos));
        BroadcastExtends(Reconcile(r, other, infos), owner, None, SessionList(listing), b);
      case Ready(_, _, _) => BroadcastExtends(r, owner, None, msg, b);
      case Pong(_) =>
      case AgentStatus(_) =>
      case _ =>
        if msg.sessionId in r.sessions && r.sessions[msg.sessionId] == other {
          BroadcastExtends(r, owner, Some(msg.sessionId), msg, b);
        }
    }
  }

  lemma RemoveAgentUndisturbed(r: Registry, other: AgentId, listing: seq<SessionInfo>, me: AgentId, s: SessionId, b: BrowserId)
    requires Following(r, me, s, b) && other != me && b in UnregisterAgent(r, other, listing).browsers
    ensures Undisturbed(r, UnregisterAgent(r, other, listing), me, s, b)
  {
    if other in r.agents {
      var owner := r.agents[other].owner;
      var r1 := DropAgent(r, other);
      var status := AgentStatus(OwnerConnected(r1.agents, owner));
      var r2 := r1.(browsers := Broadcast(r1.browsers, owner, None, status));
      BroadcastExtends(r1, owner, None, status, b);
      BroadcastExtends(r2, owner, None, SessionList(listing), b);
      OutputBytesOne(status, s);
      OutputBytesOne(SessionList(listing), s);
      OutputBytesConcat([status], [SessionList(listing)], s);
      assert [status] + [SessionList(listing)] == [status, SessionList(listing)];
    }
  }

  lemma SpawnUndisturbed(r: Registry, c: BrowserId, msg: ServerMessage, order: seq<AgentId>, me: AgentId, s: SessionId, b: BrowserId)
    requires Following(r, me, s, b) && c in r.browsers && msg.SpawnSession?
    ensures Undisturbed(r, SpawnCommand(r, c, msg, order).0, me, s, b)
  {
    hide ValidSpawn, FindAgent;
    assert OutputBytes([], s) == [];
  }

  lemma SessionCommandUndisturbed(r: Registry, c: BrowserId, t: SessionId, msg: ServerMessage, me: AgentId, s: SessionId, b: BrowserId)
    requires Following(r, me, s, b) && c in r.browsers
    ensures Undisturbed(r, SessionCommand(r, c, t, msg).0, me, s, b)
  {
    assert OutputBytes([], s) == [];
  }

  lemma ListUndisturbed(r: Registry, c: BrowserId, order: seq<AgentId>, me: AgentId, s: SessionId, b: BrowserId)
    requires Consistent(r) && Following(r, me, s, b) && c in r.browsers
    ensures Undisturbed(r, ListCommand(r, c, order).0, me, s, b)
  {
    OutputBytesOne(SessionList([]), s);
    AskAgentsExact(r, r.browsers[c].owner, order);
    hide AskAgents, Consistent;
  }

  lemma CommandUndisturbed(r: Registry, c: BrowserId, msg: ServerMessage, order: seq<AgentId>,
                           me: AgentId, s: SessionId, b: BrowserId)
    requires Consistent(r) && Following(r, me, s, b)
    ensures Undisturbed(r, BrowserCommand(r, c, msg, order).0, me, s, b)
  {
    hide ListCommand, SpawnCommand, SessionCommand, Consistent;
    if c !in r.browsers { return; }
    match msg
    case SpawnSession(_, _, _, _, _, _) => SpawnUndisturbed(r, c, msg, order, me, s, b);
    case SessionInput(t, _) => SessionCommandUndisturbed(r, c, t, msg, me, s, b);
    case SessionResize(t, _, _) => SessionCommandUndisturbed(r, c, t, msg, me, s, b);
    case SessionKill(t, _) => SessionCommandUndisturbed(r, c, t, msg, me, s, b);
    case ScrollbackRequest(t) => SessionCommandUndisturbed(r, c, t, msg, me, s, b);
    case ListSessions => ListUndisturbed(r, c, order, me, s, b);
    case Ping(_) =>
  }

  lemma AddAgentUndisturbed(r: Registry, a: AgentId, owner: Owner, me: AgentId, s: SessionId, b: BrowserId)
    requires Following(r, me, s, b) && b in RegisterAgent(r, a, owner).browsers
    ensures Undisturbed(r, RegisterAgent(r, a, owner), me, s, b)
  {
    BroadcastExtends(r, owner, None, AgentStatus(true), b);
    OutputBytesOne(AgentStatus(true), s);
  }

  lemma ReportUndisturbed(r: Registry, c: BrowserId, t: SessionId, error: Text, me: AgentId, s: SessionId, b: BrowserId)
    requires Following(r, me, s, b)
    ensures Undisturbed(r, BrowserError(r, c, t, error), me, s, b)
  {
    OutputBytesOne(SessionEvent(t, SpawnFailed(error)), s);
  }

  /** Connections of browsers, and the far ends of the queues. */
  lemma EndsUndisturbed(r: Registry, step: Step, me: AgentId, s: SessionId, b: BrowserId)
    requires Allowed(r, step) && Following(r, me, s, b) && b in Apply(r, step).browsers
    requires step.AddBrowser? || step.RemoveBrowser? || step.AgentTakes? || step.AgentCloses? || step.BrowserTakes? || step.BrowserCloses?
    ensures Undisturbed(r, Apply(r, step), me, s, b)
  {
    hide AgentFrame, BrowserCommand, UnregisterAgent, BrowserError, RegisterAgent;
    assert OutputBytes([], s) == [];
  }

  lemma ElsewhereUndisturbed(r: Registry, step: Step, me: AgentId, s: SessionId, b: BrowserId)
    requires Consistent(r) && Allowed(r, step) && IsElsewhere(step, me) && Following(r, me, s, b)
    requires b in Apply(r, step).browsers
    ensures Undisturbed(r, Apply(r, step), me, s, b)
  {
    hide Consistent, AgentFrame, BrowserCommand, UnregisterAgent, BrowserError, Undisturbed, RegisterAgent;
    match step
    case AddAgent(a, owner) => AddAgentUndisturbed(r, a, owner, me, s, b);
    case RemoveAgent(a, listing) => RemoveAgentUndisturbed(r, a, listing, me, s, b);
    case Command(c, msg, order) => CommandUndisturbed(r, c, msg, order, me, s, b);
    case Frame(a, msg, listing) => ElsewhereFrameUndisturbed(r, a, msg, listing, me, s, b);
    case Report(c, t, error) => ReportUndisturbed(r, c, t, error, me, s, b);
    case _ => EndsUndisturbed(r, step, me, s, b);
  }

  /** A frame of the agent's own gives a follower of its session `s` the bytes of `s` that it carries. */
  lemma OwnFrameGives(r: Registry, me: AgentId, msg: AgentMessage, listing: seq<SessionInfo>, s: SessionId, b: BrowserId)
    requires Consistent(r) && Following(r, me, s, b) && b in AgentFrame(r, me, msg, listing).browsers
    ensures var r' := AgentFrame(r, me, msg, listing);
            var more := Arriving(r, r', b);
            && Extends(r, r', b, more)
            && OutputBytes(more, s) == BytesIn(msg, s)
            && (msg.SessionOutput? || msg.ScrollbackDump? || msg.SessionEvent?
                ==> more == if msg.sessionId in r.sessions && r.sessions[msg.sessionId] == me
                               && msg.sessionId in r.browsers[b].sessions then [msg] else [])
  {
    OutputBytesOne(SessionList(listing), s);
    OutputBytesOne(msg, s);
    var owner := r.agents[me].owner;
    assert OwnedRoute(r, s, r.browsers[b].owner);
    match msg
    case SessionList(infos) => BroadcastExtends(Reconcile(r, me, infos), owner, None, SessionList(listing), b);
    case Ready(_, _, _) => BroadcastExtends(r, owner, None, msg, b);
    case Pong(_) =>
    case AgentStatus(_) =>
    case _ =>
      if msg.sessionId in r.sessions && r.sessions[msg.sessionId] == me {
        BroadcastExtends(r, owner, Some(msg.sessionId), msg, b);
      }
  }

  lemma ListKeepsFollowing(r: Registry, me: AgentId, infos: seq<SessionInfo>, listing: seq<SessionInfo>, s: SessionId, b: BrowserId)
    requires Consistent(r) && Following(r, me, s, b) && b in AgentFrame(r, me, SessionList(infos), listing).browsers
    requires |infos| <= MAX_SESSIONS && s in SessionIds(infos)
    ensures Following(AgentFrame(r, me, SessionList(infos), listing), me, s, b)
  {
    AcceptExact(r, me, FirstInfos(infos));
    assert ValidSessionId(s) && me in r.agents;
    hide Consistent, AcceptRoutes, AcceptInfos;
    assert s in AcceptedIds(r.sessions, me, infos) by {
      var info :| info in infos && info.sessionId == s;
      assert Acceptable(r.sessions, me, info);
    }
  }

  /** What a frame of the agent's own does to a follower of its session `s`: the follower gets the bytes of
      `s` it carries, loses the session only by being told that it ended, and otherwise keeps following. */
  lemma OwnFrameReaches(r: Registry, me: AgentId, msg: AgentMessage, listing: seq<SessionInfo>, s: SessionId, b: BrowserId)
    requires Consistent(r) && Following(r, me, s, b) && b in AgentFrame(r, me, msg, listing).browsers
    requires msg.SessionList? ==> |msg.sessions| <= MAX_SESSIONS && s in SessionIds(msg.sessions)
    ensures var r' := AgentFrame(r, me, msg, listing);
            var more := Arriving(r, r', b);
            && Extends(r, r', b, more)
            && OutputBytes(more, s) == BytesIn(msg, s)
            && (if IsTerminalFor(msg, s) then more == [msg] else Following(r', me, s, b))
  {
    OwnFrameGives(r, me, msg, listing, s, b);
    hide Extends, OutputBytes, Arriving, Consistent, Reconcile;
    if msg.SessionList? { ListKeepsFollowing(r, me, msg.sessions, listing, s, b); }
  }

  // ---------------------------------------------------------------- what only grows

  lemma QueueGrows(st: P.State, a: P.Action, capacity: nat)
    requires P.Enabled(st, a)
    ensures st.queued <= P.Next(st, a, capacity).queued
    ensures st.owners <= P.Next(st, a, capacity).owners
  {
  }

  lemma RunStepped(links: seq<Link>, steps: seq<LinkStep>, me: AgentId, capacity: nat, i: nat)
    requires IsLinkRun(links, steps, me, capacity) && i + 1 < |links|
    ensures i < |steps| && LinkStepped(links[i], steps[i], links[i + 1], me, capacity)
  {
    hide Connected, LinkStepped;
  }

  lemma StepQueueGrows(l: Link, step: LinkStep, l': Link, me: AgentId, capacity: nat)
    requires LinkStepped(l, step, l', me, capacity)
    ensures l.agent.queued <= l'.agent.queued
  {
    hide P.Next, P.Enabled;
    if step.Agent? { QueueGrows(l.agent, step.action, capacity); }
  }

  lemma {:induction false} RunQueueGrows(links: seq<Link>, steps: seq<LinkStep>, me: AgentId, capacity: nat, k: nat, n: nat)
    requires IsLinkRun(links, steps, me, capacity) && k <= n < |links|
    ensures links[k].agent.queued <= links[n].agent.queued
    decreases n
  {
    hide IsLinkRun, LinkStepped;
    if k < n {
      RunQueueGrows(links, steps, me, capacity, k, n - 1);
      RunStepped(links, steps, me, capacity, n - 1);
      StepQueueGrows(links[n - 1], steps[n - 1], links[n], me, capacity);
    }
  }

  lemma RemoveAgentGrows(r: Registry, a: AgentId, listing: seq<SessionInfo>, b: BrowserId)
    requires b in r.browsers && b in UnregisterAgent(r, a, listing).browsers
    ensures r.browsers[b].outbox.sent <= UnregisterAgent(r, a, listing).browsers[b].outbox.sent
  {
    if a in r.agents {
      var owner := r.agents[a].owner;
      var r1 := DropAgent(r, a);
      var status := AgentStatus(OwnerConnected(r1.agents, owner));
      BroadcastExtends(r1, owner, None, status, b);
      BroadcastExtends(r1.(browsers := Broadcast(r1.browsers, owner, None, status)), owner, None, SessionList(listing), b);
    }
  }

  lemma ListGrows(r: Registry, c: BrowserId, order: seq<AgentId>, b: BrowserId)
    requires Consistent(r) && b in r.browsers && c in r.browsers
    ensures b in ListCommand(r, c, order).0.browsers
    ensures r.browsers[b].outbox.sent <= ListCommand(r, c, order).0.browsers[b].outbox.sent
  {
    AskAgentsExact(r, r.browsers[c].owner, order);
    hide AskAgents, Consistent;
  }

  lemma CommandGrows(r: Registry, c: BrowserId, msg: ServerMessage, order: seq<AgentId>, b: BrowserId)
    requires Consistent(r) && b in r.browsers
    ensures b in BrowserCommand(r, c, msg, order).0.browsers
    ensures r.browsers[b].outbox.sent <= BrowserCommand(r, c, msg, order).0.browsers[b].outbox.sent
  {
    hide ListCommand, ValidSpawn, FindAgent, Consistent;
    if c in r.browsers && msg.ListSessions? { ListGrows(r, c, order, b); }
  }

  lemma FrameGrows(r: Registry, a: AgentId, msg: AgentMessage, listing: seq<SessionInfo>, b: BrowserId)
    requires b in r.browsers && b in AgentFrame(r, a, msg, listing).browsers
    ensures r.browsers[b].outbox.sent <= AgentFrame(r, a, msg, listing).browsers[b].outbox.sent
  {
    if a in r.agents {
      var owner := r.agents[a].owner;
      match msg
      case SessionList(infos) => BroadcastExtends(Reconcile(r, a, infos), owner, None, SessionList(listing), b);
      case Ready(_, _, _) => BroadcastExtends(r, owner, None, msg, b);
      case Pong(_) =>
      case AgentStatus(_) =>
      case _ =>
        if msg.sessionId in r.sessions && r.sessions[msg.sessionId] == a {
          BroadcastExtends(r, owner, Some(msg.sessionId), msg, b);
        }
    }
  }

  /** A registered browser's queue only grows. */
  lemma SentGrows(r: Registry, step: Step, b: BrowserId)
    requires Consistent(r) && Allowed(r, step) && b in r.browsers && b in Apply(r, step).browsers
    ensures r.browsers[b].outbox.sent <= Apply(r, step).browsers[b].outbox.sent
  {
    hide Consistent, AgentFrame, BrowserCommand, UnregisterAgent;
    match step
    case AddAgent(_, owner) => BroadcastExtends(r, owner, None, AgentStatus(true), b);
    case RemoveAgent(a, listing) => RemoveAgentGrows(r, a, listing, b);
    case Command(c, msg, order) => CommandGrows(r, c, msg, order, b);
    case Frame(a, msg, listing) => FrameGrows(r, a, msg, listing, b);
    case _ => hide Broadcast;
  }

  lemma LinkSentGrows(l: Link, step: LinkStep, me: AgentId, capacity: nat, b: BrowserId)
    requires LinkInv(l, me, capacity) && LinkEnabled(l, step, me)
    requires b in l.reg.browsers && b in LinkNext(l, step, me, capacity).reg.browsers
    ensures l.reg.browsers[b].outbox.sent <= LinkNext(l, step, me, capacity).reg.browsers[b].outbox.sent
  {
    match step
    case Deliver(listing) => SentGrows(l.reg, Frame(me, NextFrame(l), listing), b);
    case Server(t) => SentGrows(l.reg, t, b);
    case _ =>
  }

  // ---------------------------------------------------------------- over whole runs

  lemma DeliverConsistent(r: Registry, me: AgentId, msg: AgentMessage, listing: seq<SessionInfo>)
    requires Consistent(r) && Allowed(r, Frame(me, msg, listing))
    ensures Consistent(AgentFrame(r, me, msg, listing))
  {
    hide Consistent, AgentFrame, Allowed;
    StepConsistent(r, Frame(me, msg, listing));
  }

  lemma StepKeepsLinkInv(l: Link, step: LinkStep, me: AgentId, capacity: nat)
    requires LinkInv(l, me, capacity) && LinkEnabled(l, step, me)
    ensures LinkInv(LinkNext(l, step, me, capacity), me, capacity) && LinkNext(l, step, me, capacity).boot == l.boot
  {
    hide I.Inv, Consistent, Apply, AgentFrame, Allowed, P.Next, P.Enabled;
    match step
    case Agent(action) =>
      I.Keeps(l.agent, action, capacity);
      QueueGrows(l.agent, action, capacity);
    case Deliver(listing) => DeliverConsistent(l.reg, me, NextFrame(l), listing);
    case Server(s) => StepConsistent(l.reg, s);
    case Forward =>
  }

  lemma RunConnected(links: seq<Link>, steps: seq<LinkStep>, me: AgentId, capacity: nat)
    requires IsLinkRun(links, steps, me, capacity)
    ensures LinkInv(links[0], me, capacity) && |links[0].boot| == 2
  {
    hide I.Inv, Consistent;
  }

  lemma {:induction false} RunKeepsLinkInv(links: seq<Link>, steps: seq<LinkStep>, me: AgentId, capacity: nat, i: nat)
    requires IsLinkRun(links, steps, me, capacity) && i < |links|
    ensures LinkInv(links[i], me, capacity)
    ensures |links[i].boot| == 2
  {
    hide IsLinkRun, LinkInv, LinkEnabled, LinkNext;
    if i == 0 {
      RunConnected(links, steps, me, capacity);
    } else {
      RunKeepsLinkInv(links, steps, me, capacity, i - 1);
      RunStepped(links, steps, me, capacity, i - 1);
      StepKeepsLinkInv(links[i - 1], steps[i - 1], me, capacity);
    }
  }

  lemma RunStep(links: seq<Link>, steps: seq<LinkStep>, me: AgentId, capacity: nat, i: nat)
    requires IsLinkRun(links, steps, me, capacity) && i + 1 < |links|
    ensures i < |steps| && LinkInv(links[i], me, capacity) && LinkEnabled(links[i], steps[i], me)
    ensures links[i + 1] == LinkNext(links[i], steps[i], me, capacity)
  {
    hide IsLinkRun, LinkInv, LinkEnabled;
    RunKeepsLinkInv(links, steps, me, capacity, i);
    RunStepped(links, steps, me, capacity, i);
  }
}
