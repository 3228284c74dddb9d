/** Sessions in a key-value store with expiry, indexed by workspace in a set that expires by its own clock: the store's
    commands, and the manager whose calls are made of them. `McpCalls` interleaves the commands of many calls. */
module McpSessions {
  import opened Wire

  type Id = Text

  type Time = nat

  const SESSION_TTL: nat := 86400

  const SET_TTL: nat := 2 * SESSION_TTL

  datatype Session = Session(workspace: Id, supportsApps: bool, expiresAt: Time)

  /** A set nobody has given an expiry, or one in a store whose sets do not expire, has `None`. */
  datatype Index = Index(members: set<Id>, expiresAt: Option<Time>)

  /** `slack` is 1 for a store that still has a key at the second of its expiry. */
  datatype Store = Store(sessions: map<Id, Session>, sets: map<Id, Index>, setsExpire: bool, slack: nat)

  predicate Before(now: Time, expiresAt: Time, slack: nat) {
    now < expiresAt + slack
  }

  /** The session validates. */
  predicate Valid(st: Store, s: Id, now: Time) {
    s in st.sessions && Before(now, st.sessions[s].expiresAt, st.slack)
  }

  predicate SetAlive(st: Store, w: Id, now: Time) {
    w in st.sets && (st.sets[w].expiresAt.Some? ==> Before(now, st.sets[w].expiresAt.value, st.slack))
  }

  function Members(st: Store, w: Id, now: Time): set<Id> {
    if SetAlive(st, w, now) then st.sets[w].members else {}
  }

  // ---------------------------------------------------------------- the commands

  /** Writing a session writes all of it, with a full time to live. */
  function Put(st: Store, s: Id, w: Id, supports: bool, now: Time): Store {
    st.(sessions := st.sessions[s := Session(w, supports, now + SESSION_TTL)])
  }

  function Deleted(st: Store, s: Id): Store {
    st.(sessions := st.sessions - {s})
  }

  /** A set that has expired starts anew, without an expiry. */
  function Added(st: Store, w: Id, s: Id, now: Time): Store {
    st.(sets := st.sets[w := Index(Members(st, w, now) + {s}, if SetAlive(st, w, now) then st.sets[w].expiresAt else None)])
  }

  function Renewed(st: Store, w: Id, now: Time): Store {
    if st.setsExpire && SetAlive(st, w, now)
    then st.(sets := st.sets[w := st.sets[w].(expiresAt := Some(now + SET_TTL))]) else st
  }

  function TakenOut(st: Store, w: Id, s: Id, now: Time): Store {
    if !SetAlive(st, w, now) then st
    else if st.sets[w].members - {s} == {} then st.(sets := st.sets - {w})
    else st.(sets := st.sets[w := st.sets[w].(members := st.sets[w].members - {s})])
  }

  function Dropped(st: Store, w: Id): Store {
    st.(sets := st.sets - {w})
  }

  // ---------------------------------------------------------------- calls that run alone

  function Create(st: Store, s: Id, w: Id, now: Time): Store {
    Renewed(Added(Put(st, s, w, false, now), w, s, now), w, now)
  }

  function Remove(st: Store, s: Id, now: Time): Store {
    if Valid(st, s, now) then TakenOut(Deleted(st, s), st.sessions[s].workspace, s, now) else Deleted(st, s)
  }

  function SetFlag(st: Store, s: Id, supports: bool, now: Time): Store {
    if Valid(st, s, now) then Put(st, s, st.sessions[s].workspace, supports, now) else st
  }

  function Invalidate(st: Store, w: Id, now: Time): Store {
    var members := Members(st, w, now);
    if members == {} then st else Dropped(st.(sessions := st.sessions - members), w)
  }

  // ---------------------------------------------------------------- the manager

  class SessionManager {
    var sessions: map<Id, Session>
    var sets: map<Id, Index>
    var senders: set<Id>

    const setsExpire: bool

    const slack: nat

    ghost function State(): Store
      reads this
    {
      Store(sessions, sets, setsExpire, slack)
    }

    predicate HasSet(w: Id, now: Time)
      reads this
      ensures HasSet(w, now) <==> SetAlive(State(), w, now)
    {
      w in sets && (sets[w].expiresAt.Some? ==> now < sets[w].expiresAt.value + slack)
    }

    constructor (setsExpire: bool, slack: nat)
      ensures State() == Store(map[], map[], setsExpire, slack) && senders == {}
    {
      sessions, sets, senders := map[], map[], {};
      this.setsExpire, this.slack := setsExpire, slack;
    }

    method Get(s: Id, now: Time) returns (found: Option<Session>)
      ensures found == if Valid(State(), s, now) then Some(sessions[s]) else None
    {
      found := if s in sessions && now < sessions[s].expiresAt + slack then Some(sessions[s]) else None;
    }

    method Set(s: Id, w: Id, supports: bool, now: Time)
      modifies this`sessions
      ensures State() == Put(old(State()), s, w, supports, now)
    {
      sessions := sessions[s := Session(w, supports, now + SESSION_TTL)];
    }

    method Del(s: Id)
      modifies this`sessions
      ensures State() == Deleted(old(State()), s)
    {
      sessions := sessions - {s};
    }

    method Smembers(w: Id, now: Time) returns (members: set<Id>)
      ensures members == Members(State(), w, now)
    {
      members := {};
      if HasSet(w, now) { members := sets[w].members; }
    }

    method Sadd(w: Id, s: Id, now: Time)
      modifies this`sets
      ensures State() == Added(old(State()), w, s, now)
    {
      var members := Smembers(w, now);
      sets := sets[w := Index(members + {s}, if HasSet(w, now) then sets[w].expiresAt else None)];
    }

    method Expire(w: Id, now: Time)
      modifies this`sets
      ensures State() == Renewed(old(State()), w, now)
    {
      if setsExpire && HasSet(w, now) {
        sets := sets[w := sets[w].(expiresAt := Some(now + SET_TTL))];
      }
    }

    method Srem(w: Id, s: Id, now: Time)
      modifies this`sets
      ensures State() == TakenOut(old(State()), w, s, now)
    {
      if HasSet(w, now) {
        var left := sets[w].members - {s};
        sets := if left == {} then sets - {w} else sets[w := sets[w].(members := left)];
      }
    }

    method Sdel(w: Id)
      modifies this`sets
      ensures State() == Dropped(old(State()), w)
    {
      sets := sets - {w};
    }

    method CreateSession(s: Id, w: Id, now: Time)
      modifies this
      ensures State() == Create(old(State()), s, w, now) && senders == old(senders)
      ensures sessions == old(sessions)[s := Session(w, false, now + 86400)] && s in Members(State(), w, now)
      ensures setsExpire ==> sets[w].expiresAt == Some(now + 172800)
    {
      Set(s, w, false, now);
      Sadd(w, s, now);
      Expire(w, now);
    }

    method ValidateSession(s: Id, now: Time) returns (workspace: Option<Id>)
      ensures workspace == if Valid(State(), s, now) then Some(sessions[s].workspace) else None
    {
      var found := Get(s, now);
      workspace := if found.Some? then Some(found.value.workspace) else None;
    }

    method RemoveSession(s: Id, now: Time)
      modifies this
      ensures State() == Remove(old(State()), s, now) && senders == old(senders) - {s}
      ensures sessions == old(sessions) - {s}
      ensures Valid(old(State()), s, now) ==> s !in Members(State(), old(sessions)[s].workspace, now)
    {
      var workspace := ValidateSession(s, now);
      Del(s);
      if workspace.Some? { Srem(workspace.value, s, now); }
      senders := senders - {s};
    }

    method SetSupportsMcpApps(s: Id, supports: bool, now: Time)
      modifies this
      ensures State() == SetFlag(old(State()), s, supports, now) && senders == old(senders)
      ensures sets == old(sets)
      ensures Valid(old(State()), s, now) ==> sessions == old(sessions)[s := Session(old(sessions)[s].workspace, supports, now + 86400)]
      ensures !Valid(old(State()), s, now) ==> sessions == old(sessions)
    {
      var found := Get(s, now);
      if found.Some? { Set(s, found.value.workspace, supports, now); }
    }

    method InvalidateWorkspaceSessions(w: Id, now: Time)
      modifies this
      ensures State() == Invalidate(old(State()), w, now)
      ensures senders == old(senders) - Members(old(State()), w, now)
      ensures sessions == old(sessions) - Members(old(State()), w, now) && Members(State(), w, now) == {}
    {
      var members := Smembers(w, now);
      if members == {} { return; }
      var rest := members;
      while rest != {}
        invariant rest <= members && sets == old(sets) && senders == old(senders)
        invariant sessions == old(sessions) - (members - rest)
        decreases |rest|
      {
        var s :| s in rest;
        Del(s);
        rest := rest - {s};
      }
      Sdel(w);
      rest := members;
      while rest != {}
        invariant rest <= members && senders == old(senders) - (members - rest)
        invariant State() == Invalidate(old(State()), w, now)
        decreases |rest|
      {
        var s :| s in rest;
        senders := senders - {s};
        rest := rest - {s};
      }
    }
  }
}
