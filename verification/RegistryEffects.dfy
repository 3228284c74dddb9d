/** What each operation of the relay does, told from the tables before and after: who is sent what, who is dropped, and
    which routes and subscriptions change. */
module RegistryEffects {
  import opened Listing
  import opened Wire
  import opened ConnectRegistry

  // ---------------------------------------------------------------- what commands reach which agent

  /** Agent `a` has been sent `msgs` on top, and no agent anything else. */
  ghost predicate AgentsSent(before: map<AgentId, Agent>, after: map<AgentId, Agent>, told: set<AgentId>, msgs: seq<ServerMessage>) {
    && after.Keys == before.Keys
    && forall a {:trigger after[a]} :: a in before ==>
         && after[a].owner == before[a].owner
         && after[a].inbox.taken == before[a].inbox.taken && after[a].inbox.open == before[a].inbox.open
         && after[a].inbox.sent == before[a].inbox.sent + (if a in told then msgs else [])
  }

  /** Browser `b` follows these sessions on top, and otherwise the browsers are as they were. */
  ghost predicate BrowsersFollow(before: map<BrowserId, Browser>, after: map<BrowserId, Browser>, b: BrowserId, more: set<SessionId>) {
    && after.Keys == before.Keys
    && forall c {:trigger after[c]} :: c in before ==>
         && after[c].owner == before[c].owner && after[c].outbox == before[c].outbox
         && after[c].sessions == before[c].sessions + (if c == b then more else {})
  }

  predicate OnSession(msg: ServerMessage) {
    msg.SessionInput? || msg.SessionResize? || msg.SessionKill? || msg.ScrollbackRequest?
  }

  predicate Sendable(r: Registry, a: AgentId) {
    a in r.agents && r.agents[a].inbox.open && |r.agents[a].inbox.sent| < r.agents[a].inbox.taken + 64
  }

  /** A command on a session is accepted exactly when the session is routed to a connected agent of the browser's own
      owner that has room. Then it is in that agent's queue and in no other, and a scrollback request has subscribed the
      browser; a refused one has changed nothing and says why. */
  lemma SessionCommandEffect(r: Registry, b: BrowserId, msg: ServerMessage, order: seq<AgentId>)
    requires OnSession(msg)
    ensures var ((r', outcome), s) := (BrowserCommand(r, b, msg, order), msg.sessionId);
            && (outcome == Accepted <==>
                  && b in r.browsers && s in r.sessions && Sendable(r, r.sessions[s])
                  && r.agents[r.sessions[s]].owner == r.browsers[b].owner)
            && (outcome == Accepted ==>
                  && AgentsSent(r.agents, r'.agents, {r.sessions[s]}, [msg])
                  && BrowsersFollow(r.browsers, r'.browsers, b, if msg.ScrollbackRequest? then {s} else {})
                  && r'.sessions == r.sessions && r'.infos == r.infos)
            && (outcome != Accepted ==> r' == r)
  {
  }

  /** The reason of a refusal. */
  lemma SessionRefusalSays(r: Registry, b: BrowserId, msg: ServerMessage, order: seq<AgentId>)
    requires OnSession(msg)
    ensures var (outcome, s) := (BrowserCommand(r, b, msg, order).1, msg.sessionId);
            && (outcome == Refused("Browser disconnected") <==> b !in r.browsers)
            && (outcome == Refused("Unknown session") <==> b in r.browsers && s !in r.sessions)
            && (outcome == Refused("Agent disconnected") <==> b in r.browsers && s in r.sessions && r.sessions[s] !in r.agents)
            && (outcome == Refused("Session access denied") <==>
                  b in r.browsers && s in r.sessions && r.sessions[s] in r.agents
                  && r.agents[r.sessions[s]].owner != r.browsers[b].owner)
  {
    hide Follow, SendTo;
  }

  function Lengths(words: seq<Text>): nat {
    if words == [] then 0 else |words[0]| + Lengths(words[1..])
  }

  function PairLengths(env: seq<(Text, Text)>): nat {
    if env == [] then 0 else |env[0].0| + |env[0].1| + PairLengths(env[1..])
  }

  /** What the limits on a spawn request are. */
  predicate WithinLimits(msg: ServerMessage)
    requires msg.SpawnSession?
  {
    && msg.command != [] && |msg.command| <= 16 && Lengths(msg.command) <= 1024
    && (msg.workingDir == None || |msg.workingDir.value| <= 1024)
    && |msg.env| <= 128 && PairLengths(msg.env) <= 16384
    && 1 <= msg.cols <= 500 && 1 <= msg.rows <= 500
  }

  lemma {:induction false} LengthsTotal(words: seq<Text>)
    ensures Lengths(words) == TotalLength(words)
  {
    if |words| == 1 {
      assert words[..0] == [] && words[1..] == [];
    } else if words != [] {
      var front := words[..|words| - 1];
      LengthsTotal(front);
      LengthsTotal(words[1..]);
      LengthsTotal(words[1..][..|words| - 2]);
      assert front[1..] == words[1..][..|words| - 2];
    }
  }

  lemma {:induction false} PairLengthsTotal(env: seq<(Text, Text)>)
    ensures PairLengths(env) == EnvSize(env)
  {
    if |env| == 1 {
      assert env[..0] == [] && env[1..] == [];
    } else if env != [] {
      var front := env[..|env| - 1];
      PairLengthsTotal(front);
      PairLengthsTotal(env[1..]);
      PairLengthsTotal(env[1..][..|env| - 2]);
      assert front[1..] == env[1..][..|env| - 2];
    }
  }

  /** The agent a spawn goes to: the first of the owner's in iteration order. */
  ghost predicate Chosen(r: Registry, owner: Owner, order: seq<AgentId>, a: AgentId) {
    exists i :: 0 <= i < |order| && order[i] == a && a in r.agents && r.agents[a].owner == owner
                && forall j :: 0 <= j < i ==> order[j] in r.agents ==> r.agents[order[j]].owner != owner
  }

  lemma {:induction false} FoundIsChosen(r: Registry, owner: Owner, order: seq<AgentId>)
    ensures match FindAgent(r.agents, owner, order)
            case Some(a) => Chosen(r, owner, order, a)
            case None => forall a :: a in order && a in r.agents ==> r.agents[a].owner != owner
  {
    if order != [] && !(order[0] in r.agents && r.agents[order[0]].owner == owner) {
      FoundIsChosen(r, owner, order[1..]);
      if a: AgentId :| FindAgent(r.agents, owner, order[1..]) == Some(a) {
        var i :| 0 <= i < |order| - 1 && order[1..][i] == a && a in r.agents && r.agents[a].owner == owner
                 && forall j :: 0 <= j < i ==> order[1..][j] in r.agents ==> r.agents[order[1..][j]].owner != owner;
        assert order[i + 1] == a;
        forall j | 0 <= j < i + 1 && order[j] in r.agents ensures r.agents[order[j]].owner != owner {
          if j > 0 { assert order[j] == order[1..][j - 1]; }
        }
      }
    }
  }

  lemma ChosenIsFound(r: Registry, owner: Owner, order: seq<AgentId>, a: AgentId)
    ensures Chosen(r, owner, order, a) <==> FindAgent(r.agents, owner, order) == Some(a)
  {
    FoundIsChosen(r, owner, order);
    if c: AgentId :| Chosen(r, owner, order, a) && FindAgent(r.agents, owner, order) == Some(c) {
      assert a == c;
    }
  }

  /** What a request must be for any agent to be asked. */
  predicate GoodRequest(r: Registry, msg: ServerMessage)
    requires msg.SpawnSession?
  {
    WithinLimits(msg) && 1 <= |msg.sessionId| <= 128 && msg.sessionId !in r.sessions
  }

  predicate HasPlace(r: Registry, a: AgentId) {
    |set s | s in r.sessions && r.sessions[s] == a| < 32 && Sendable(r, a)
  }

  /** The registry with the request queued, the session reserved and followed. */
  function Reserved(r: Registry, b: BrowserId, s: SessionId, a: AgentId, msg: ServerMessage): Registry
    requires b in r.browsers && a in r.agents
  {
    Follow(SendTo(r, a, msg).(sessions := r.sessions[s := a]), b, s)
  }

  lemma ReservedEffect(r: Registry, b: BrowserId, s: SessionId, a: AgentId, msg: ServerMessage)
    requires b in r.browsers && a in r.agents
    ensures var r' := Reserved(r, b, s, a, msg);
            && r'.infos == r.infos && BrowsersFollow(r.browsers, r'.browsers, b, {s})
            && AgentsSent(r.agents, r'.agents, {a}, [msg]) && r'.sessions == r.sessions[s := a]
  {
  }

  lemma SpawnDecides(r: Registry, b: BrowserId, msg: ServerMessage, order: seq<AgentId>)
    requires msg.SpawnSession? && b in r.browsers
    ensures var found := FindAgent(r.agents, r.browsers[b].owner, order);
            if GoodRequest(r, msg) && found.Some? && HasPlace(r, found.value)
            then SpawnCommand(r, b, msg, order) == (Reserved(r, b, msg.sessionId, found.value, msg), Accepted)
            else SpawnCommand(r, b, msg, order).0 == r && SpawnCommand(r, b, msg, order).1.Refused?
  {
    LengthsTotal(msg.command);
    PairLengthsTotal(msg.env);
    assert ValidSpawn(msg) <==> WithinLimits(msg);
    hide ValidSpawn, WithinLimits, FindAgent;
    assert forall a :: RoutesOf(r, a) == set s | s in r.sessions && r.sessions[s] == a;
    hide Follow, SendTo;
  }

  lemma SpawnReaches(r: Registry, b: BrowserId, msg: ServerMessage, order: seq<AgentId>, r': Registry, outcome: Outcome)
    requires msg.SpawnSession? && b in r.browsers && (r', outcome) == SpawnCommand(r, b, msg, order)
    ensures var found := FindAgent(r.agents, r.browsers[b].owner, order);
            && (outcome == Accepted <==> GoodRequest(r, msg) && found.Some? && HasPlace(r, found.value))
            && (outcome != Accepted ==> r' == r)
            && (outcome == Accepted ==>
                  && r'.infos == r.infos && BrowsersFollow(r.browsers, r'.browsers, b, {msg.sessionId})
                  && AgentsSent(r.agents, r'.agents, {found.value}, [msg]) && r'.sessions == r.sessions[msg.sessionId := found.value])
  {
    SpawnDecides(r, b, msg, order);
    hide SpawnCommand, FindAgent, GoodRequest, Reserved, BrowsersFollow, AgentsSent;
    if outcome == Accepted { ReservedEffect(r, b, msg.sessionId, FindAgent(r.agents, r.browsers[b].owner, order).value, msg); }
  }

  /** A spawn is accepted exactly when the request is within the limits, the id is well formed and not in use, and the
      first of the owner's agents exists, has a place left and has room. Then the request is in that agent's queue and in
      no other, the session is reserved for it and the browser follows it; a refused one has changed nothing. */
  lemma SpawnEffect(r: Registry, b: BrowserId, msg: ServerMessage, order: seq<AgentId>, r': Registry, outcome: Outcome)
    requires msg.SpawnSession? && (r', outcome) == BrowserCommand(r, b, msg, order)
    ensures outcome == Accepted <==>
              b in r.browsers && GoodRequest(r, msg) && exists a :: Chosen(r, r.browsers[b].owner, order, a) && HasPlace(r, a)
    ensures outcome == Accepted ==>
              && r'.infos == r.infos && BrowsersFollow(r.browsers, r'.browsers, b, {msg.sessionId})
              && exists a :: Chosen(r, r.browsers[b].owner, order, a) && AgentsSent(r.agents, r'.agents, {a}, [msg])
                             && r'.sessions == r.sessions[msg.sessionId := a]
    ensures outcome != Accepted ==> r' == r
  {
    if b in r.browsers {
      SpawnReaches(r, b, msg, order, r', outcome);
      forall a ensures Chosen(r, r.browsers[b].owner, order, a) <==> FindAgent(r.agents, r.browsers[b].owner, order) == Some(a) {
        ChosenIsFound(r, r.browsers[b].owner, order, a);
      }
      hide FindAgent, Chosen, GoodRequest, HasPlace, BrowsersFollow, AgentsSent, SpawnCommand;
    }
  }

  /** The agents of `owner` in `order` before place `n` can all take a message, and the one at `n`, if any, cannot. */
  ghost predicate FullAt(r: Registry, owner: Owner, order: seq<AgentId>, n: nat) {
    && n <= |order|
    && (forall j :: 0 <= j < n && order[j] in r.agents && r.agents[order[j]].owner == owner ==> Sendable(r, order[j]))
    && (n < |order| ==> order[n] in r.agents && r.agents[order[n]].owner == owner && !Sendable(r, order[n]))
  }

  function OwnersIn(r: Registry, owner: Owner, order: seq<AgentId>): set<AgentId> {
    set a | a in order && a in r.agents && r.agents[a].owner == owner
  }

  lemma AskedNext(r: Registry, owner: Owner, order: seq<AgentId>, n: nat, agents: map<AgentId, Agent>)
    requires order != [] && Distinct(order) && order[0] in r.agents && r.agents[order[0]].owner == owner && n < |order|
    requires var r1 := SendTo(r, order[0], ListSessions); AgentsSent(r1.agents, agents, OwnersIn(r1, owner, order[1..][..n]), [ListSessions])
    ensures AgentsSent(r.agents, agents, OwnersIn(r, owner, order[..n + 1]), [ListSessions])
  {
    assert order[..n + 1] == [order[0]] + order[1..][..n];
    forall a | a in order[1..][..n] ensures a != order[0] {
      var k :| 0 <= k < n && order[1..][..n][k] == a;
      assert order[k + 1] == a;
    }
  }

  lemma FullNext(r: Registry, owner: Owner, order: seq<AgentId>, n: nat)
    requires order != [] && Distinct(order) && Sendable(r, order[0]) && r.agents[order[0]].owner == owner
    requires FullAt(SendTo(r, order[0], ListSessions), owner, order[1..], n)
    ensures FullAt(r, owner, order, n + 1)
  {
    var r1 := SendTo(r, order[0], ListSessions);
    forall j | 1 <= j < |order|
      ensures order[j] == order[1..][j - 1] && order[j] != order[0] && (order[j] in r.agents <==> order[j] in r1.agents)
      ensures order[j] in r.agents ==> r1.agents[order[j]] == r.agents[order[j]]
    {}
  }

  lemma {:induction false} AskEffect(r: Registry, owner: Owner, order: seq<AgentId>) returns (n: nat)
    requires Distinct(order)
    ensures FullAt(r, owner, order, n)
    ensures var (r', asked, outcome) := AskAgents(r, owner, order);
            && r' == r.(agents := r'.agents) && AgentsSent(r.agents, r'.agents, OwnersIn(r, owner, order[..n]), [ListSessions])
            && (asked <==> OwnersIn(r, owner, order[..n]) != {}) && (outcome == Accepted <==> n == |order|)
    decreases |order|
  {
    if order == [] {
      n := 0;
    } else if !(order[0] in r.agents && r.agents[order[0]].owner == owner) {
      var k := AskEffect(r, owner, order[1..]);
      n := k + 1;
      assert order[..n] == [order[0]] + order[1..][..k];
      assert OwnersIn(r, owner, order[..n]) == OwnersIn(r, owner, order[1..][..k]);
      hide AgentsSent, OwnersIn;
    } else if !Sendable(r, order[0]) {
      n := 0;
    } else {
      var r1 := SendTo(r, order[0], ListSessions);
      var k := AskEffect(r1, owner, order[1..]);
      n := k + 1;
      FullNext(r, owner, order, k);
      AskedNext(r, owner, order, k, AskAgents(r1, owner, order[1..]).0.agents);
      assert order[0] in OwnersIn(r, owner, order[..n]);
      hide AgentsSent, OwnersIn, FullAt, Distinct;
    }
  }

  /** Message `msg` is in the queue of browser `b` if that has room; the others are as they were. */
  ghost predicate TriedSend(before: map<BrowserId, Browser>, after: map<BrowserId, Browser>, b: BrowserId, msg: AgentMessage) {
    && after.Keys == before.Keys && (forall c :: c in before && c != b ==> after[c] == before[c])
    && (b in before ==>
          && after[b].owner == before[b].owner && after[b].sessions == before[b].sessions
          && after[b].outbox == if before[b].outbox.open && |before[b].outbox.sent| < before[b].outbox.taken + 64
                                then before[b].outbox.(sent := before[b].outbox.sent + [msg]) else before[b].outbox)
  }

  /** A request for the lists asks each of the owner's agents in turn, up to the first that has no room, where it is
      refused; an owner without agents is told at once that there are no sessions. */
  lemma ListEffect(r: Registry, b: BrowserId, order: seq<AgentId>, r': Registry, outcome: Outcome) returns (n: nat)
    requires b in r.browsers && Lists(order, r.agents.Keys) && (r', outcome) == BrowserCommand(r, b, ListSessions, order)
    ensures FullAt(r, r.browsers[b].owner, order, n) && (outcome == Accepted <==> n == |order|)
    ensures AgentsSent(r.agents, r'.agents, OwnersIn(r, r.browsers[b].owner, order[..n]), [ListSessions])
    ensures r'.sessions == r.sessions && r'.infos == r.infos
    ensures if forall a :: a in r.agents ==> r.agents[a].owner != r.browsers[b].owner
            then TriedSend(r.browsers, r'.browsers, b, SessionList([])) else r'.browsers == r.browsers
  {
    var owner := r.browsers[b].owner;
    n := AskEffect(r, owner, order);
    forall a ensures a in order <==> a in r.agents { Listed(order, r.agents.Keys, a); }
    assert n == |order| ==> order[..n] == order;
    assert n < |order| ==> order[n] in r.agents;
    hide AskAgents, AgentsSent;
    if a :| a in r.agents && r.agents[a].owner == owner { assert n == |order| ==> a in OwnersIn(r, owner, order); }
  }

  lemma PingEffect(r: Registry, b: BrowserId, ts: nat, order: seq<AgentId>)
    ensures BrowserCommand(r, b, Ping(ts), order) == (r, if b in r.browsers then Accepted else Refused("Browser disconnected"))
  {
  }

  // ---------------------------------------------------------------- what frames reach which browser

  predicate HasRoom(b: Browser) {
    b.outbox.open && |b.outbox.sent| < b.outbox.taken + 64
  }

  /** The owner's browsers, or those of them that follow `topic`, got the message, except that those without room are
      gone; all other browsers are as they were. */
  ghost predicate Delivered(before: map<BrowserId, Browser>, after: map<BrowserId, Browser>, owner: Owner, topic: Option<SessionId>,
                            msg: AgentMessage)
  {
    forall b {:trigger before[b]} {:trigger after[b]} ::
      && (b in after ==> b in before)
      && (b in before ==>
            var meant := before[b].owner == owner && (topic == None || topic.value in before[b].sessions);
            && (b in after <==> !meant || HasRoom(before[b]))
            && (b in after ==>
                  && after[b].owner == before[b].owner && after[b].sessions == before[b].sessions
                  && after[b].outbox == if meant then before[b].outbox.(sent := before[b].outbox.sent + [msg]) else before[b].outbox))
  }

  /** Nobody follows these sessions any more; nothing else changes. */
  ghost predicate Unfollowed(before: map<BrowserId, Browser>, after: map<BrowserId, Browser>, gone: set<SessionId>) {
    && after.Keys == before.Keys
    && forall b {:trigger after[b]} :: b in before ==>
         && after[b].owner == before[b].owner && after[b].outbox == before[b].outbox
         && forall s :: s in after[b].sessions <==> s in before[b].sessions && s !in gone
  }

  lemma BroadcastDelivers(browsers: map<BrowserId, Browser>, owner: Owner, topic: Option<SessionId>, msg: AgentMessage)
    ensures Delivered(browsers, Broadcast(browsers, owner, topic, msg), owner, topic, msg)
  {
  }

  lemma UnfollowUnfollows(browsers: map<BrowserId, Browser>, gone: set<SessionId>)
    ensures Unfollowed(browsers, Unfollow(browsers, gone), gone)
  {
  }

  /** Whether a frame ends its session: all events but the first. */
  predicate Ends(msg: AgentMessage) {
    msg.SessionEvent? && msg.event != Started
  }

  /** A frame about a session counts only if the session is routed to the agent that sent it. Then its followers get it,
      and if it ends the session, route, info and subscriptions go; nothing else changes. */
  lemma SessionFrameEffect(r: Registry, a: AgentId, msg: AgentMessage, listing: seq<SessionInfo>) returns (told: map<BrowserId, Browser>)
    requires msg.SessionOutput? || msg.ScrollbackDump? || msg.SessionEvent?
    ensures AgentFrame(r, a, msg, listing).agents == r.agents
    ensures var (r', s) := (AgentFrame(r, a, msg, listing), msg.sessionId);
            if !(a in r.agents && s in r.sessions && r.sessions[s] == a) then r' == r
            else
              && Delivered(r.browsers, told, r.agents[a].owner, Some(s), msg)
              && if Ends(msg) then r'.sessions == r.sessions - {s} && r'.infos == r.infos - {s} && Unfollowed(told, r'.browsers, {s})
                 else r'.sessions == r.sessions && r'.infos == r.infos && r'.browsers == told
  {
    told := r.browsers;
    if a in r.agents {
      told := Broadcast(r.browsers, r.agents[a].owner, Some(msg.sessionId), msg);
      BroadcastDelivers(r.browsers, r.agents[a].owner, Some(msg.sessionId), msg);
      UnfollowUnfollows(told, {msg.sessionId});
      hide Broadcast, Unfollow, Delivered, Unfollowed;
    }
  }

  /** `Ready` goes to all of the owner's browsers; a pong or a status from an agent to nobody. */
  lemma OtherFrameEffect(r: Registry, a: AgentId, msg: AgentMessage, listing: seq<SessionInfo>)
    requires msg.Ready? || msg.Pong? || msg.AgentStatus?
    ensures var r' := AgentFrame(r, a, msg, listing);
            && r'.agents == r.agents && r'.sessions == r.sessions && r'.infos == r.infos
            && if a in r.agents && msg.Ready? then Delivered(r.browsers, r'.browsers, r.agents[a].owner, None, msg) else r' == r
  {
    if a in r.agents { BroadcastDelivers(r.browsers, r.agents[a].owner, None, msg); }
  }

  /** A list leaves the agents alone; subscriptions to sessions without a route go, and the owner's browsers are told the
      owner's sessions. Which routes and infos there are then is `RegistryProperties.ListIsAuthoritative`. */
  lemma ListFrameEffect(r: Registry, a: AgentId, infos: seq<SessionInfo>, listing: seq<SessionInfo>) returns (pruned: map<BrowserId, Browser>)
    requires a in r.agents
    ensures var r' := AgentFrame(r, a, SessionList(infos), listing);
            && r'.agents == r.agents && Delivered(pruned, r'.browsers, r.agents[a].owner, None, SessionList(listing))
            && Unfollowed(r.browsers, pruned, (set b, s | b in r.browsers && s in r.browsers[b].sessions :: s) - r'.sessions.Keys)
  {
    pruned := Reconcile(r, a, infos).browsers;
    BroadcastDelivers(pruned, r.agents[a].owner, None, SessionList(listing));
    hide Broadcast, Delivered, AcceptRoutes, AcceptInfos, AcceptedIds;
  }

  // ---------------------------------------------------------------- connections

  lemma AddAgentEffect(r: Registry, a: AgentId, owner: Owner)
    ensures var r' := RegisterAgent(r, a, owner);
            && r'.sessions == r.sessions && r'.infos == r.infos
            && r'.agents == r.agents[a := Agent(owner, Channel([], 0, true))]
            && Delivered(r.browsers, r'.browsers, owner, None, AgentStatus(true))
  {
    BroadcastDelivers(r.browsers, owner, None, AgentStatus(true));
  }

  /** Whether `owner` has an agent, beside `except`. */
  ghost predicate HasAgent(r: Registry, owner: Owner, except: set<AgentId>) {
    exists a :: a in r.agents && a !in except && r.agents[a].owner == owner
  }

  lemma AnotherAgent(r: Registry, a: AgentId, owner: Owner)
    ensures OwnerConnected(DropAgent(r, a).agents, owner) == HasAgent(r, owner, {a})
  {
    forall c | c in r.agents && c !in {a} ensures c in DropAgent(r, a).agents {}
  }

  /** With an agent go its routes, their infos and the subscriptions to them; the owner's browsers are told whether another
      agent is left, and then the sessions that are. */
  lemma RemoveAgentEffect(r: Registry, a: AgentId, listing: seq<SessionInfo>)
    returns (left: map<BrowserId, Browser>, told: map<BrowserId, Browser>)
    requires a in r.agents
    ensures var (r', gone) := (UnregisterAgent(r, a, listing), set s | s in r.sessions && r.sessions[s] == a);
            && r'.agents == r.agents - {a} && r'.sessions == r.sessions - gone && r'.infos == r.infos - gone
            && Unfollowed(r.browsers, left, gone)
            && Delivered(left, told, r.agents[a].owner, None, AgentStatus(HasAgent(r, r.agents[a].owner, {a})))
            && Delivered(told, r'.browsers, r.agents[a].owner, None, SessionList(listing))
  {
    var owner := r.agents[a].owner;
    var r1 := DropAgent(r, a);
    var status := AgentStatus(OwnerConnected(r1.agents, owner));
    AnotherAgent(r, a, owner);
    left, told := r1.browsers, Broadcast(r1.browsers, owner, None, status);
    UnfollowUnfollows(r.browsers, RoutesOf(r, a));
    BroadcastDelivers(r1.browsers, owner, None, status);
    BroadcastDelivers(told, owner, None, SessionList(listing));
    hide Broadcast, Delivered, Unfollow, Unfollowed, OwnerConnected, HasAgent;
    assert r1.sessions == r.sessions - set s | s in r.sessions && r.sessions[s] == a;
  }

  lemma BrowserEffects(r: Registry, b: BrowserId, owner: Owner, s: SessionId, error: Text)
    ensures var r' := RegisterBrowser(r, b, owner);
            && r' == r.(browsers := r'.browsers) && r'.browsers.Keys == r.browsers.Keys + {b}
            && (forall c :: c in r.browsers && c != b ==> r'.browsers[c] == r.browsers[c])
            && r'.browsers[b] == Browser(owner, Channel([AgentStatus(HasAgent(r, owner, {}))], 0, true), {})
    ensures UnregisterBrowser(r, b) == r.(browsers := r.browsers - {b})
    ensures var r' := BrowserError(r, b, s, error);
            r' == r.(browsers := r'.browsers) && TriedSend(r.browsers, r'.browsers, b, SessionEvent(s, SpawnFailed(error)))
  {
  }

  /** What an owner is told: the infos whose session is routed to one of the owner's connected agents. */
  lemma ListingExactly(r: Registry, owner: Owner, listing: seq<SessionInfo>, info: SessionInfo)
    requires Lists(listing, OwnerInfos(r, owner))
    ensures info in listing <==>
              && (exists s :: s in r.infos && r.infos[s] == info)
              && info.sessionId in r.sessions && r.sessions[info.sessionId] in r.agents
              && r.agents[r.sessions[info.sessionId]].owner == owner
  {
    Listed(listing, OwnerInfos(r, owner), info);
  }

  /** A receiver takes the oldest message there is, and nothing else changes. */
  lemma AgentTakesEffect(r: Registry, a: AgentId)
    ensures var r' := Apply(r, AgentTakes(a));
            if a in r.agents && r.agents[a].inbox.taken < |r.agents[a].inbox.sent|
            then
              && r' == r.(agents := r'.agents) && r'.agents.Keys == r.agents.Keys
              && (forall c :: c in r.agents && c != a ==> r'.agents[c] == r.agents[c])
              && r'.agents[a] == Agent(r.agents[a].owner, Channel(r.agents[a].inbox.sent, r.agents[a].inbox.taken + 1, r.agents[a].inbox.open))
            else r' == r
  {
  }

  lemma BrowserTakesEffect(r: Registry, b: BrowserId)
    ensures var r' := Apply(r, BrowserTakes(b));
            if b in r.browsers && r.browsers[b].outbox.taken < |r.browsers[b].outbox.sent|
            then
              && r' == r.(browsers := r'.browsers) && r'.browsers.Keys == r.browsers.Keys
              && (forall c :: c in r.browsers && c != b ==> r'.browsers[c] == r.browsers[c])
              && r'.browsers[b]
                 == r.browsers[b].(outbox := Channel(r.browsers[b].outbox.sent, r.browsers[b].outbox.taken + 1, r.browsers[b].outbox.open))
            else r' == r
  {
  }
}
