/** The session manager's calls from all replicas, interleaved store command by store command. */
module McpCalls {
  import opened Wire
  import opened McpSessions

  type CallId = nat

  /** Where a call stands and what it has read. `rest` is what an invalidation has yet to delete. */
  datatype Call =
    | Creating(session: Id, workspace: Id, added: bool)
    | Removing(session: Id, found: Option<Id>, deleted: bool)
    | Flagging(session: Id, workspace: Id, supports: bool)
    | Invalidating(workspace: Id, members: set<Id>, rest: set<Id>)

  datatype Made = Made(workspace: Id, at: Time, call: CallId)

  /** `made` is history: for whom, when and by which call an id was drawn. `returned` are the ids whose creation has returned them. */
  datatype State = State(store: Store, calls: map<CallId, Call>, made: map<Id, Made>, returned: set<Id>, clock: Time)

  /** Three commands create a session, up to three remove one, two write its flag, and an invalidation reads the members,
      deletes each and drops the set. */
  datatype Command =
    | StoreSession(call: CallId, session: Id, workspace: Id)
    | AddMember(call: CallId)
    | RenewSet(call: CallId)
    | ReadSession(call: CallId, session: Id)
    | DeleteSession(call: CallId)
    | TakeOut(call: CallId)
    | ReadFlag(call: CallId, session: Id, supports: bool)
    | WriteFlag(call: CallId)
    | ReadMembers(call: CallId, workspace: Id)
    | DeleteMember(call: CallId, session: Id)
    | DropSet(call: CallId)
    | GiveUp(call: CallId)

  /** A command that is not `ok` has failed without effect; its call carries on all the same. */
  datatype Step = Step(command: Command, ok: bool, now: Time)

  predicate Enabled(st: State, step: Step) {
    && st.clock <= step.now
    && match step.command
       case StoreSession(c, s, _) => c !in st.calls && s !in st.made
       case AddMember(c) => c in st.calls && st.calls[c].Creating? && !st.calls[c].added
       case RenewSet(c) => c in st.calls && st.calls[c].Creating? && st.calls[c].added
       case ReadSession(c, _) => c !in st.calls
       case DeleteSession(c) => c in st.calls && st.calls[c].Removing? && !st.calls[c].deleted
       case TakeOut(c) => c in st.calls && st.calls[c].Removing? && st.calls[c].deleted && st.calls[c].found.Some?
       case ReadFlag(c, _, _) => c !in st.calls
       case WriteFlag(c) => c in st.calls && st.calls[c].Flagging?
       case ReadMembers(c, _) => c !in st.calls
       case DeleteMember(c, s) => c in st.calls && st.calls[c].Invalidating? && s in st.calls[c].rest
       case DropSet(c) => c in st.calls && st.calls[c].Invalidating? && st.calls[c].rest == {}
       case GiveUp(c) => c in st.calls
  }

  /** What the command does to the store if it does not fail. */
  function Effect(st: State, command: Command, now: Time): Store
    requires Enabled(st, Step(command, true, now))
  {
    match command
    case StoreSession(_, s, w) => Put(st.store, s, w, false, now)
    case AddMember(c) => Added(st.store, st.calls[c].workspace, st.calls[c].session, now)
    case RenewSet(c) => Renewed(st.store, st.calls[c].workspace, now)
    case DeleteSession(c) => Deleted(st.store, st.calls[c].session)
    case TakeOut(c) => TakenOut(st.store, st.calls[c].found.value, st.calls[c].session, now)
    case WriteFlag(c) => Put(st.store, st.calls[c].session, st.calls[c].workspace, st.calls[c].supports, now)
    case DeleteMember(_, s) => Deleted(st.store, s)
    case DropSet(c) => Dropped(st.store, st.calls[c].workspace)
    case _ => st.store
  }

  function Found(st: State, s: Id, step: Step): Option<Id> {
    if step.ok && Valid(st.store, s, step.now) then Some(st.store.sessions[s].workspace) else None
  }

  /** How far the calls are after it. A call that has nothing to go on with ends. */
  function CallsAfter(st: State, step: Step): map<CallId, Call>
    requires Enabled(st, step)
  {
    match step.command
    case StoreSession(c, s, w) => st.calls[c := Creating(s, w, false)]
    case AddMember(c) => st.calls[c := st.calls[c].(added := true)]
    case ReadSession(c, s) => st.calls[c := Removing(s, Found(st, s, step), false)]
    case DeleteSession(c) => if st.calls[c].found.None? then st.calls - {c} else st.calls[c := st.calls[c].(deleted := true)]
    case ReadFlag(c, s, supports) =>
      var w := Found(st, s, step);
      if w.None? then st.calls else st.calls[c := Flagging(s, w.value, supports)]
    case ReadMembers(c, w) =>
      var members := Members(st.store, w, step.now);
      if !step.ok || members == {} then st.calls else st.calls[c := Invalidating(w, members, members)]
    case DeleteMember(c, s) => st.calls[c := st.calls[c].(rest := st.calls[c].rest - {s})]
    case _ => st.calls - {step.command.call}
  }

  function Next(st: State, step: Step): State
    requires Enabled(st, step)
  {
    var store := if step.ok then Effect(st, step.command, step.now) else st.store;
    var calls := CallsAfter(st, step);
    match step.command
    case StoreSession(c, s, w) => State(store, calls, st.made[s := Made(w, step.now, c)], st.returned, step.now)
    case RenewSet(c) => State(store, calls, st.made, st.returned + {st.calls[c].session}, step.now)
    case _ => State(store, calls, st.made, st.returned, step.now)
  }

  predicate Stepped(st: State, step: Step, st': State) {
    Enabled(st, step) && st' == Next(st, step)
  }

  function Start(setsExpire: bool, slack: nat): State {
    State(Store(map[], map[], setsExpire, slack), map[], map[], {}, 0)
  }

  ghost predicate IsRun(states: seq<State>, steps: seq<Step>) {
    && |states| == |steps| + 1
    && states[0] == Start(states[0].store.setsExpire, states[0].store.slack)
    && forall i {:trigger steps[i]} :: 0 <= i < |steps| ==> Stepped(states[i], steps[i], states[i + 1])
  }

  // ---------------------------------------------------------------- what holds in every run

  predicate Of(st: State, s: Id, w: Id) {
    s in st.made && st.made[s].workspace == w
  }

  ghost predicate CallSound(st: State, c: CallId)
    requires c in st.calls
  {
    match st.calls[c]
    case Creating(s, w, _) => Of(st, s, w) && st.made[s].call == c && s !in st.returned
    case Removing(s, found, _) => found.Some? ==> Of(st, s, found.value)
    case Flagging(s, w, _) => Of(st, s, w)
    case Invalidating(w, members, rest) => rest <= members && forall s :: s in members ==> Of(st, s, w)
  }

  ghost predicate StoreSound(st: State) {
    && (forall s {:trigger st.store.sessions[s]} :: s in st.store.sessions ==>
          Of(st, s, st.store.sessions[s].workspace) && st.store.sessions[s].expiresAt <= st.clock + SESSION_TTL)
    && (forall w, s {:trigger s in st.store.sets[w].members} ::
          w in st.store.sets && s in st.store.sets[w].members ==> Of(st, s, w))
    && (forall w {:trigger st.store.sets[w]} :: w in st.store.sets && !st.store.setsExpire ==> st.store.sets[w].expiresAt.None?)
  }

  ghost predicate Sound(st: State) {
    && StoreSound(st)
    && (forall s {:trigger st.made[s]} :: s in st.made ==> st.made[s].at <= st.clock)
    && st.returned <= st.made.Keys
    && forall c {:trigger st.calls[c]} :: c in st.calls ==> CallSound(st, c)
  }

  lemma StepKeepsStoreSound(st: State, step: Step)
    requires Sound(st) && Enabled(st, step)
    ensures StoreSound(Next(st, step))
  {
    match step.command
    case StoreSession(_, _, _) =>
    case AddMember(c) => assert CallSound(st, c);
    case RenewSet(c) =>
    case TakeOut(c) =>
    case WriteFlag(c) => assert CallSound(st, c);
    case _ =>
  }

  lemma OtherCallStaysSound(st: State, step: Step, c: CallId)
    requires Sound(st) && Enabled(st, step) && c in st.calls && c != step.command.call
    ensures c in Next(st, step).calls && CallSound(Next(st, step), c)
  {
    assert CallSound(st, c);
    if step.command.RenewSet? { assert CallSound(st, step.command.call); }
  }

  lemma OwnCallSound(st: State, step: Step)
    requires Sound(st) && Enabled(st, step) && step.command.call in Next(st, step).calls
    ensures CallSound(Next(st, step), step.command.call)
  {
    if step.command.call in st.calls { assert CallSound(st, step.command.call); }
  }

  lemma StepKeepsSound(st: State, step: Step)
    requires Sound(st) && Enabled(st, step)
    ensures Sound(Next(st, step))
  {
    var st' := Next(st, step);
    StepKeepsStoreSound(st, step);
    forall c {:trigger st'.calls[c]} | c in st'.calls ensures CallSound(st', c) {
      if c == step.command.call { OwnCallSound(st, step); } else { OtherCallStaysSound(st, step, c); }
    }
    if step.command.RenewSet? { assert CallSound(st, step.command.call); }
    hide StoreSound, CallSound, Effect, CallsAfter;
  }

  lemma {:induction false} RunKeepsSound(states: seq<State>, steps: seq<Step>, n: nat)
    requires IsRun(states, steps) && n < |states|
    ensures Sound(states[n])
  {
    if n > 0 {
      RunKeepsSound(states, steps, n - 1);
      assert Stepped(states[n - 1], steps[n - 1], states[n]);
      StepKeepsSound(states[n - 1], steps[n - 1]);
    }
  }

  // ---------------------------------------------------------------- the index is complete

  predicate Outlives(store: Store, w: Id, until: Time)
    requires w in store.sets
  {
    store.sets[w].expiresAt.Some? ==> until <= store.sets[w].expiresAt.value
  }

  /** The session is in its workspace's set, and the set outlives it. */
  predicate Indexed(store: Store, s: Id)
    requires s in store.sessions
  {
    var x := store.sessions[s];
    && x.workspace in store.sets && s in store.sets[x.workspace].members
    && Outlives(store, x.workspace, x.expiresAt)
  }

  /** A session whose creation has returned and which validates. */
  predicate Live(st: State, s: Id, now: Time) {
    s in st.returned && Valid(st.store, s, now)
  }

  /** Every live session of the workspace is indexed, for as long as it lives. */
  ghost predicate Complete(st: State, w: Id) {
    forall s {:trigger st.store.sessions[s]} :: Live(st, s, st.clock) && st.store.sessions[s].workspace == w ==> Indexed(st.store, s)
  }

  /** The new session is gone again, or it still is in the set it was added to. */
  predicate RenewFits(st: State, s: Id, w: Id, ok: bool, now: Time) {
    Valid(st.store, s, now) ==>
      && SetAlive(st.store, w, now) && s in st.store.sets[w].members
      && ((ok && st.store.setsExpire) || Outlives(st.store, w, st.store.sessions[s].expiresAt))
  }

  /** The session is in the set, and the set outlives the time to live the write gives it. */
  predicate WriteFits(st: State, s: Id, w: Id, now: Time) {
    s in st.returned ==>
      && w in st.store.sets && s in st.store.sets[w].members
      && Outlives(st.store, w, now + SESSION_TTL)
  }

  /** No member of the set is live. */
  ghost predicate DropFits(st: State, w: Id, now: Time) {
    forall s :: s in Members(st.store, w, now) ==> !Live(st, s, now)
  }

  /** What the command needs at the moment it is run for the index of `w` to stay complete. Reads, deletions, new members
      and commands for other workspaces need nothing. */
  ghost predicate Fits(st: State, step: Step, w: Id)
    requires Enabled(st, step)
  {
    match step.command
    case RenewSet(c) => st.calls[c].workspace == w ==> RenewFits(st, st.calls[c].session, w, step.ok, step.now)
    case TakeOut(c) => step.ok && st.calls[c].found == Some(w) ==> !Live(st, st.calls[c].session, step.now)
    case WriteFlag(c) => step.ok && st.calls[c].workspace == w ==> WriteFits(st, st.calls[c].session, w, step.now)
    case DropSet(c) => step.ok && st.calls[c].workspace == w ==> DropFits(st, w, step.now)
    case _ => true
  }

  lemma TimePasses(st: State, w: Id, s: Id, now: Time)
    requires Complete(st, w) && st.clock <= now && Live(st, s, now) && st.store.sessions[s].workspace == w
    ensures Indexed(st.store, s) && SetAlive(st.store, w, now)
  {
  }

  lemma AddKeepsComplete(st: State, step: Step, w: Id)
    requires Sound(st) && Complete(st, w) && Enabled(st, step) && step.command.AddMember?
    ensures Complete(Next(st, step), w)
  {
    var st' := Next(st, step);
    forall s {:trigger st'.store.sessions[s]} | Live(st', s, st'.clock) && st'.store.sessions[s].workspace == w
      ensures Indexed(st'.store, s)
    {
      TimePasses(st, w, s, step.now);
    }
  }

  lemma StoreKeepsComplete(st: State, step: Step, w: Id)
    requires Sound(st) && Complete(st, w) && Enabled(st, step) && step.command.StoreSession?
    ensures Complete(Next(st, step), w)
  {
    var st' := Next(st, step);
    forall s {:trigger st'.store.sessions[s]} | Live(st', s, st'.clock) && st'.store.sessions[s].workspace == w
      ensures Indexed(st'.store, s)
    {
      assert s in st.made && s != step.command.session;
    }
  }

  /** A creation that returns keeps the index complete exactly when its session is gone by then or still in a set that
      has not expired since it was added. */
  lemma RenewExactly(st: State, step: Step, w: Id)
    requires Sound(st) && Complete(st, w) && Enabled(st, step) && step.command.RenewSet?
    ensures Complete(Next(st, step), w) <==> Fits(st, step, w)
  {
    var st', call := Next(st, step), st.calls[step.command.call];
    assert CallSound(st, step.command.call);
    forall s {:trigger st'.store.sessions[s]} | Live(st, s, step.now) && st.store.sessions[s].workspace == w
      ensures Indexed(st'.store, s)
    {
      TimePasses(st, w, s, step.now);
    }
    assert Valid(st.store, call.session, step.now) ==> Live(st', call.session, st'.clock);
  }

  /** Taking a session out of the set keeps the index complete exactly when nothing has brought the session back. */
  lemma TakeOutExactly(st: State, step: Step, w: Id)
    requires Sound(st) && Complete(st, w) && Enabled(st, step) && step.command.TakeOut?
    ensures Complete(Next(st, step), w) <==> Fits(st, step, w)
  {
    var st', call := Next(st, step), st.calls[step.command.call];
    assert CallSound(st, step.command.call);
    forall s {:trigger st'.store.sessions[s]} | Live(st, s, step.now) && st.store.sessions[s].workspace == w && s != call.session
      ensures Indexed(st'.store, s)
    {
      TimePasses(st, w, s, step.now);
      assert s in st.store.sets[w].members - {call.session};
    }
    if Live(st, call.session, step.now) {
      assert Live(st', call.session, st'.clock);
      if call.found == Some(w) { TimePasses(st, w, call.session, step.now); }
    }
  }

  /** Writing a flag keeps the index complete exactly when the session is still indexed, in a set that lives as long as
      the session's new time to live. */
  lemma FlagKeepsCoverExactly(st: State, step: Step, w: Id)
    requires Sound(st) && Complete(st, w) && Enabled(st, step) && step.command.WriteFlag?
    ensures Complete(Next(st, step), w) <==> Fits(st, step, w)
  {
    var st', call := Next(st, step), st.calls[step.command.call];
    assert CallSound(st, step.command.call);
    forall s {:trigger st'.store.sessions[s]} | Live(st, s, step.now) && st.store.sessions[s].workspace == w && s != call.session
      ensures Indexed(st'.store, s)
    {
      TimePasses(st, w, s, step.now);
    }
    if step.ok && call.session in st.returned { assert Live(st', call.session, st'.clock); }
  }

  /** Dropping a set keeps the index complete exactly when no member is live, which by then is about the members that came
      after the members were read, if those that were read are gone. */
  lemma DropExactly(st: State, step: Step, w: Id)
    requires Sound(st) && Complete(st, w) && Enabled(st, step) && step.command.DropSet?
    ensures Complete(Next(st, step), w) <==> Fits(st, step, w)
    ensures var call := st.calls[step.command.call];
            step.ok && call.workspace == w && call.members !! st.store.sessions.Keys ==>
              (Complete(Next(st, step), w)
               <==> forall s :: s in Members(st.store, w, step.now) - call.members ==> !Live(st, s, step.now))
  {
    var st', call := Next(st, step), st.calls[step.command.call];
    if !Fits(st, step, w) {
      var s :| s in Members(st.store, w, step.now) && Live(st, s, step.now);
      assert Of(st, s, st.store.sessions[s].workspace) && Live(st', s, st'.clock);
      assert !Indexed(st'.store, s);
    } else {
      forall s {:trigger st'.store.sessions[s]} | Live(st', s, st'.clock) && st'.store.sessions[s].workspace == w
        ensures Indexed(st'.store, s)
      {
        TimePasses(st, w, s, step.now);
        assert s in Members(st.store, w, step.now);
      }
    }
  }

  /** One command of any call keeps a workspace's index complete if and only if it fits. */
  lemma StepExactly(st: State, step: Step, w: Id)
    requires Sound(st) && Complete(st, w) && Enabled(st, step)
    ensures Complete(Next(st, step), w) <==> Fits(st, step, w)
  {
    match step.command
    case StoreSession(_, _, _) => StoreKeepsComplete(st, step, w);
    case AddMember(_) => AddKeepsComplete(st, step, w);
    case RenewSet(_) => RenewExactly(st, step, w);
    case TakeOut(_) => TakeOutExactly(st, step, w);
    case WriteFlag(_) => FlagKeepsCoverExactly(st, step, w);
    case DropSet(_) => DropExactly(st, step, w);
    case _ =>
  }

  ghost predicate CompleteUntil(states: seq<State>, n: nat, w: Id)
    requires n < |states|
  {
    forall i {:trigger states[i]} :: 0 <= i <= n ==> Complete(states[i], w)
  }

  ghost predicate AllFit(states: seq<State>, steps: seq<Step>, n: nat, w: Id)
    requires IsRun(states, steps) && n < |states|
  {
    forall i {:trigger steps[i]} :: 0 <= i < n ==> Stepped(states[i], steps[i], states[i + 1]) && Fits(states[i], steps[i], w)
  }

  /** Every run, however the calls interleave and fail: a workspace's index has been complete all along if and only if
      every command so far fitted at the moment it was run. */
  lemma {:induction false} CompleteExactly(states: seq<State>, steps: seq<Step>, n: nat, w: Id)
    requires IsRun(states, steps) && n < |states|
    ensures CompleteUntil(states, n, w) <==> AllFit(states, steps, n, w)
  {
    if n > 0 {
      CompleteExactly(states, steps, n - 1, w);
      RunKeepsSound(states, steps, n - 1);
      assert Stepped(states[n - 1], steps[n - 1], states[n]);
      hide Complete, Fits, Enabled, Next, Sound;
      if CompleteUntil(states, n - 1, w) { StepExactly(states[n - 1], steps[n - 1], w); }
      if CompleteUntil(states, n, w) { assert CompleteUntil(states, n - 1, w); }
      if AllFit(states, steps, n, w) { assert AllFit(states, steps, n - 1, w) && Fits(states[n - 1], steps[n - 1], w); }
    }
  }
}
