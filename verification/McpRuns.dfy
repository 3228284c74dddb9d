/** Which runs of the session manager's calls keep a workspace's index complete, what an invalidation then leaves, and the
    runs in which it leaves a session behind. */
module McpRuns {
  import opened Wire
  import opened McpSessions
  import opened McpCalls

  // ---------------------------------------------------------------- undisturbed runs

  ghost predicate BeingInvalidated(st: State, w: Id) {
    exists c :: c in st.calls && st.calls[c].Invalidating? && st.calls[c].workspace == w
  }

  ghost predicate BeingFlagged(st: State, s: Id) {
    exists c :: c in st.calls && st.calls[c].Flagging? && st.calls[c].session == s
  }

  /** No set of `w` has expired since a creation that is still in flight added to it. */
  ghost predicate SetStays(st: State, now: Time, w: Id) {
    w in st.store.sets && (exists c :: c in st.calls && st.calls[c].Creating? && st.calls[c].workspace == w && st.calls[c].added)
    ==> SetAlive(st.store, w, now)
  }

  /** No session of `w` is added while `w` is being invalidated, or deleted while its flag is being written; flags are
      written within a day of the session's making; sets do not expire under a creation; no addition, renewal or deletion
      fails. */
  ghost predicate Undisturbed(st: State, step: Step, w: Id)
    requires Enabled(st, step)
  {
    match step.command
    case AddMember(c) => st.calls[c].workspace == w ==> step.ok && !BeingInvalidated(st, w) && SetStays(st, step.now, w)
    case RenewSet(c) => st.calls[c].workspace == w ==> step.ok && SetStays(st, step.now, w)
    case DeleteSession(c) => Of(st, st.calls[c].session, w) ==> step.ok && !BeingFlagged(st, st.calls[c].session)
    case DeleteMember(c, s) => Of(st, s, w) ==> step.ok && !BeingFlagged(st, s)
    case WriteFlag(c) => Of(st, st.calls[c].session, w) ==> step.now <= st.made[st.calls[c].session].at + SESSION_TTL
    case _ => true
  }

  ghost predicate AllUndisturbed(states: seq<State>, steps: seq<Step>, n: nat, w: Id)
    requires IsRun(states, steps) && n < |states|
  {
    forall i {:trigger steps[i]} :: 0 <= i < n ==> Stepped(states[i], steps[i], states[i + 1]) && Undisturbed(states[i], steps[i], w)
  }

  /** What a call knows that nothing has disturbed. */
  ghost predicate Informed(st: State, c: CallId, w: Id)
    requires c in st.calls
  {
    match st.calls[c]
    case Creating(s, v, true) => v == w && s in st.store.sessions ==> w in st.store.sets && s in st.store.sets[w].members
    case Removing(s, Some(v), true) => v == w ==> s !in st.store.sessions
    case Flagging(s, v, _) => v == w ==> s in st.store.sessions
    case Invalidating(v, members, rest) =>
      v == w ==>
        && (w in st.store.sets ==> st.store.sets[w].members <= members)
        && forall s :: s in members && s !in rest ==> s !in st.store.sessions
    case _ => true
  }

  ghost predicate AllInformed(st: State, w: Id) {
    forall c {:trigger st.calls[c]} :: c in st.calls ==> Informed(st, c, w)
  }

  /** A session of `w` never lives longer than two days from its making, and its set remembers it as long. */
  ghost predicate Dated(st: State, w: Id) {
    forall s {:trigger st.store.sessions[s]} :: s in st.store.sessions && Of(st, s, w) ==>
      var until := st.made[s].at + SET_TTL;
      && st.store.sessions[s].expiresAt <= until
      && (s in st.returned && Before(st.clock, until, st.store.slack) ==>
            w in st.store.sets && s in st.store.sets[w].members && Outlives(st.store, w, until))
  }

  lemma DatedIsComplete(st: State, w: Id)
    requires Sound(st) && Dated(st, w)
    ensures Complete(st, w)
  {
  }

  /** A session whose set remembers it has a live set. */
  lemma RememberedNow(st: State, w: Id, s: Id, now: Time)
    requires Sound(st) && Dated(st, w) && st.clock <= now
    requires s in st.store.sessions && Of(st, s, w) && s in st.returned && Before(now, st.made[s].at + SET_TTL, st.store.slack)
    ensures SetAlive(st.store, w, now) && s in st.store.sets[w].members && Outlives(st.store, w, st.made[s].at + SET_TTL)
  {
  }

  lemma AddKeepsDated(st: State, step: Step, w: Id)
    requires Sound(st) && Dated(st, w) && Enabled(st, step) && step.command.AddMember?
    ensures Dated(Next(st, step), w)
  {
    var st' := Next(st, step);
    forall s {:trigger st'.store.sessions[s]}
      | s in st'.store.sessions && Of(st', s, w) && s in st'.returned && Before(step.now, st'.made[s].at + SET_TTL, st'.store.slack)
      ensures w in st'.store.sets && s in st'.store.sets[w].members && Outlives(st'.store, w, st'.made[s].at + SET_TTL)
    {
      RememberedNow(st, w, s, step.now);
    }
  }

  lemma RenewKeepsDated(st: State, step: Step, w: Id)
    requires Sound(st) && Dated(st, w) && AllInformed(st, w) && Enabled(st, step) && Undisturbed(st, step, w)
    requires step.command.RenewSet?
    ensures Dated(Next(st, step), w)
  {
    var st', c := Next(st, step), step.command.call;
    assert CallSound(st, c) && Informed(st, c, w);
    forall s {:trigger st'.store.sessions[s]}
      | s in st'.store.sessions && Of(st', s, w) && s in st'.returned && Before(step.now, st'.made[s].at + SET_TTL, st'.store.slack)
      ensures w in st'.store.sets && s in st'.store.sets[w].members && Outlives(st'.store, w, st'.made[s].at + SET_TTL)
    {
      if s != st.calls[c].session { RememberedNow(st, w, s, step.now); }
    }
  }

  lemma TakeOutKeepsDated(st: State, step: Step, w: Id)
    requires Sound(st) && Dated(st, w) && AllInformed(st, w) && Enabled(st, step) && step.command.TakeOut?
    ensures Dated(Next(st, step), w)
  {
    var st', c := Next(st, step), step.command.call;
    assert Informed(st, c, w);
    forall s {:trigger st'.store.sessions[s]}
      | s in st'.store.sessions && Of(st', s, w) && s in st'.returned && Before(step.now, st'.made[s].at + SET_TTL, st'.store.slack)
      ensures w in st'.store.sets && s in st'.store.sets[w].members && Outlives(st'.store, w, st'.made[s].at + SET_TTL)
    {
      RememberedNow(st, w, s, step.now);
      if st.calls[c].found == Some(w) { assert s in st.store.sets[w].members - {st.calls[c].session}; }
    }
  }

  lemma WriteKeepsDated(st: State, step: Step, w: Id)
    requires Sound(st) && Dated(st, w) && AllInformed(st, w) && Enabled(st, step) && Undisturbed(st, step, w)
    requires step.command.WriteFlag?
    ensures Dated(Next(st, step), w)
  {
    assert CallSound(st, step.command.call) && Informed(st, step.command.call, w);
  }

  lemma DropKeepsDated(st: State, step: Step, w: Id)
    requires Sound(st) && Dated(st, w) && AllInformed(st, w) && Enabled(st, step) && step.command.DropSet?
    ensures Dated(Next(st, step), w)
  {
    assert Informed(st, step.command.call, w);
  }

  lemma StoreKeepsDated(st: State, step: Step, w: Id)
    requires Sound(st) && Dated(st, w) && Enabled(st, step) && step.command.StoreSession?
    ensures Dated(Next(st, step), w)
  {
    assert step.command.session !in st.store.sessions && step.command.session !in st.returned;
  }

  /** A step that leaves the sets and what is known of the ids alone, and at most deletes sessions. */
  lemma FewerKeepDated(st: State, st': State, w: Id)
    requires Dated(st, w) && st'.store.sets == st.store.sets && st'.store.slack == st.store.slack
    requires st'.made == st.made && st'.returned == st.returned && st.clock <= st'.clock
    requires forall s :: s in st'.store.sessions ==> s in st.store.sessions && st'.store.sessions[s] == st.store.sessions[s]
    ensures Dated(st', w)
  {
  }

  lemma OtherKeepsDated(st: State, step: Step, w: Id)
    requires Dated(st, w) && Enabled(st, step)
    requires step.command.ReadSession? || step.command.DeleteSession? || step.command.ReadFlag? || step.command.ReadMembers?
             || step.command.DeleteMember? || step.command.GiveUp?
    ensures Dated(Next(st, step), w)
  {
    hide Dated, CallsAfter;
    FewerKeepDated(st, Next(st, step), w);
  }

  lemma StepKeepsDated(st: State, step: Step, w: Id)
    requires Sound(st) && Dated(st, w) && AllInformed(st, w) && Enabled(st, step) && Undisturbed(st, step, w)
    ensures Dated(Next(st, step), w)
  {
    hide Dated, Sound, Enabled, Next, Undisturbed, AllInformed;
    match step.command
    case StoreSession(_, _, _) => StoreKeepsDated(st, step, w);
    case AddMember(_) => AddKeepsDated(st, step, w);
    case RenewSet(_) => RenewKeepsDated(st, step, w);
    case TakeOut(_) => TakeOutKeepsDated(st, step, w);
    case WriteFlag(_) => WriteKeepsDated(st, step, w);
    case DropSet(_) => DropKeepsDated(st, step, w);
    case _ => OtherKeepsDated(st, step, w);
  }

  lemma CreationStaysInformed(st: State, step: Step, w: Id, c: CallId)
    requires Sound(st) && AllInformed(st, w) && Enabled(st, step) && Undisturbed(st, step, w)
    requires c in st.calls && c != step.command.call && st.calls[c].Creating?
    ensures Informed(Next(st, step), c, w)
  {
    var s, d := st.calls[c].session, step.command.call;
    assert Informed(st, c, w) && CallSound(st, c);
    if d in st.calls { assert Informed(st, d, w) && CallSound(st, d); }
    if step.command.TakeOut? && st.calls[c].added && s in st.store.sessions && st.calls[c].workspace == w {
      assert s in st.store.sets[w].members - {st.calls[d].session};
    }
  }

  lemma InvalidationStaysInformed(st: State, step: Step, w: Id, c: CallId)
    requires Sound(st) && AllInformed(st, w) && Enabled(st, step) && Undisturbed(st, step, w)
    requires c in st.calls && c != step.command.call && st.calls[c].Invalidating?
    ensures Informed(Next(st, step), c, w)
  {
    assert Informed(st, c, w) && CallSound(st, c);
    if step.command.WriteFlag? { assert Informed(st, step.command.call, w) && CallSound(st, step.command.call); }
  }

  lemma CallStaysInformed(st: State, step: Step, w: Id, c: CallId)
    requires Sound(st) && AllInformed(st, w) && Enabled(st, step) && Undisturbed(st, step, w)
    requires c in st.calls && c != step.command.call
    ensures Informed(Next(st, step), c, w)
  {
    if st.calls[c].Creating? {
      CreationStaysInformed(st, step, w, c);
    } else if st.calls[c].Invalidating? {
      InvalidationStaysInformed(st, step, w, c);
    } else {
      assert Informed(st, c, w) && CallSound(st, c);
      if step.command.WriteFlag? { assert Informed(st, step.command.call, w) && CallSound(st, step.command.call); }
    }
  }

  lemma CallBecomesInformed(st: State, step: Step, w: Id)
    requires Sound(st) && AllInformed(st, w) && Enabled(st, step) && Undisturbed(st, step, w)
    requires step.command.call in Next(st, step).calls
    ensures Informed(Next(st, step), step.command.call, w)
  {
    var c := step.command.call;
    if c in st.calls { assert Informed(st, c, w) && CallSound(st, c); }
  }

  lemma StepInforms(st: State, step: Step, w: Id)
    requires Sound(st) && AllInformed(st, w) && Enabled(st, step) && Undisturbed(st, step, w)
    ensures AllInformed(Next(st, step), w)
  {
    var st' := Next(st, step);
    forall c {:trigger st'.calls[c]} | c in st'.calls ensures Informed(st', c, w) {
      if c == step.command.call { CallBecomesInformed(st, step, w); } else { CallStaysInformed(st, step, w, c); }
    }
  }

  /** In every run that is undisturbed for a workspace its index is complete, whatever else interleaves. */
  lemma {:induction false} AlwaysComplete(states: seq<State>, steps: seq<Step>, n: nat, w: Id)
    requires IsRun(states, steps) && n < |states| && AllUndisturbed(states, steps, n, w)
    ensures Complete(states[n], w) && Dated(states[n], w) && AllInformed(states[n], w)
  {
    if n > 0 {
      var st, step := states[n - 1], steps[n - 1];
      AlwaysComplete(states, steps, n - 1, w);
      RunKeepsSound(states, steps, n - 1);
      RunKeepsSound(states, steps, n);
      assert Stepped(st, step, states[n]) && Undisturbed(st, step, w);
      hide Complete, Dated, AllInformed, Enabled, Next, Undisturbed, Sound;
      StepKeepsDated(st, step, w);
      StepInforms(st, step, w);
      DatedIsComplete(states[n], w);
    }
  }

  // ---------------------------------------------------------------- what an invalidation leaves

  /** The command is the last of an invalidation of `w`: it found no members, or it drops the set. */
  predicate Ends(st: State, step: Step, w: Id)
    requires Enabled(st, step)
  {
    || (step.command.ReadMembers? && step.command.workspace == w && step.ok && Members(st.store, w, step.now) == {})
    || (step.command.DropSet? && st.calls[step.command.call].workspace == w)
  }

  /** In every run in which all commands have fitted so far: when an invalidation ends, none of the workspace's sessions
      validates whose creation has returned, if and only if none of them is a live member of the set that is dropped. */
  lemma InvalidationExactly(states: seq<State>, steps: seq<Step>, k: nat, w: Id)
    requires IsRun(states, steps) && k < |steps| && AllFit(states, steps, k, w)
    requires Stepped(states[k], steps[k], states[k + 1]) && Ends(states[k], steps[k], w)
    ensures var (st, st', step) := (states[k], states[k + 1], steps[k]);
            (forall s :: s in st.returned && Of(st, s, w) ==> !Valid(st'.store, s, st'.clock))
            <==> (step.command.DropSet? ==> DropFits(st, w, step.now))
  {
    var st, step := states[k], steps[k];
    CompleteExactly(states, steps, k, w);
    RunKeepsSound(states, steps, k);
    assert Complete(st, w);
    forall s | s in st.returned && Of(st, s, w) && Valid(st.store, s, step.now) ensures s in Members(st.store, w, step.now) {
      TimePasses(st, w, s, step.now);
    }
  }

  /** In every run that is undisturbed for a workspace: when an invalidation of it ends, none of its sessions validates
      whose creation has returned by then. */
  lemma InvalidationInRuns(states: seq<State>, steps: seq<Step>, k: nat, w: Id, s: Id)
    requires IsRun(states, steps) && k < |steps| && AllUndisturbed(states, steps, k, w)
    requires Stepped(states[k], steps[k], states[k + 1]) && Ends(states[k], steps[k], w)
    requires s in states[k].returned && Of(states[k], s, w)
    ensures !Valid(states[k + 1].store, s, states[k + 1].clock)
  {
    var st, step := states[k], steps[k];
    AlwaysComplete(states, steps, k, w);
    RunKeepsSound(states, steps, k);
    if Valid(st.store, s, step.now) {
      RememberedNow(st, w, s, step.now);
    }
  }

  /** The workspace a call is about. */
  predicate About(st: State, step: Step, w: Id)
    requires Enabled(st, step)
  {
    match step.command
    case StoreSession(_, _, v) => v == w
    case AddMember(c) => st.calls[c].workspace == w
    case RenewSet(c) => st.calls[c].workspace == w
    case ReadSession(_, s) => Of(st, s, w)
    case DeleteSession(c) => Of(st, st.calls[c].session, w)
    case TakeOut(c) => Of(st, st.calls[c].session, w)
    case ReadFlag(_, s, _) => Of(st, s, w)
    case WriteFlag(c) => Of(st, st.calls[c].session, w)
    case ReadMembers(_, v) => v == w
    case DeleteMember(c, _) => st.calls[c].workspace == w
    case DropSet(c) => st.calls[c].workspace == w
    case GiveUp(_) => false
  }

  /** In every run: no command for one workspace changes a session or the set of another. */
  lemma WorkspacesApart(states: seq<State>, steps: seq<Step>, k: nat, w: Id, v: Id, s: Id)
    requires IsRun(states, steps) && k < |steps| && Stepped(states[k], steps[k], states[k + 1])
    requires About(states[k], steps[k], w) && v != w
    ensures v in states[k].store.sets <==> v in states[k + 1].store.sets
    ensures v in states[k].store.sets ==> states[k].store.sets[v] == states[k + 1].store.sets[v]
    ensures Of(states[k], s, v) ==>
              (s in states[k].store.sessions <==> s in states[k + 1].store.sessions)
              && (s in states[k].store.sessions ==> states[k].store.sessions[s] == states[k + 1].store.sessions[s])
  {
    var st, step := states[k], steps[k];
    RunKeepsSound(states, steps, k);
    if step.command.call in st.calls { assert CallSound(st, step.command.call); }
  }

  // ---------------------------------------------------------------- runs that leave a session behind

  /** One more step of a run. */
  lemma RunOn(states: seq<State>, steps: seq<Step>, command: Command, now: Time, next: State)
    returns (more: seq<State>, done: seq<Step>)
    requires IsRun(states, steps) && Stepped(states[|steps|], Step(command, true, now), next)
    ensures IsRun(more, done) && more == states + [next] && done == steps + [Step(command, true, now)]
  {
    more, done := states + [next], steps + [Step(command, true, now)];
  }

  /** A creation that runs alone. */
  lemma Created(states: seq<State>, steps: seq<Step>, c: CallId, s: Id, w: Id, now: Time) returns (more: seq<State>, done: seq<Step>)
    requires IsRun(states, steps)
    requires var st := states[|steps|];
             st.clock <= now && c !in st.calls && s !in st.made
    ensures IsRun(more, done) && |more| == |states| + 3 && |done| == |steps| + 3 && states <= more && steps <= done
    ensures var st := states[|steps|];
            more[|done|] == State(Create(st.store, s, w, now), st.calls, st.made[s := Made(w, now, c)], st.returned + {s}, now)
  {
    var st := states[|steps|];
    var stored := Next(st, Step(StoreSession(c, s, w), true, now));
    var added := Next(stored, Step(AddMember(c), true, now));
    var renewed := Next(added, Step(RenewSet(c), true, now));
    more, done := RunOn(states, steps, StoreSession(c, s, w), now, stored);
    more, done := RunOn(more, done, AddMember(c), now, added);
    more, done := RunOn(more, done, RenewSet(c), now, renewed);
    assert renewed.calls == st.calls;
  }

  /** A session that validates although the invalidation that ends the run has found its workspace's set empty. */
  ghost predicate LeftBehind(states: seq<State>, steps: seq<Step>, s: Id, w: Id) {
    && IsRun(states, steps) && |steps| > 0
    && var last := |steps| - 1;
       && Stepped(states[last], steps[last], states[last + 1]) && Ends(states[last], steps[last], w)
       && states[last].calls == map[] && s in states[last].returned && Of(states[last], s, w)
       && Valid(states[last + 1].store, s, states[last + 1].clock)
  }

  lemma ReadsNothing(states: seq<State>, steps: seq<Step>, s: Id, w: Id, now: Time) returns (more: seq<State>, done: seq<Step>)
    requires IsRun(states, steps)
    requires var st := states[|steps|];
             && st.calls == map[] && s in st.returned && Of(st, s, w) && Valid(st.store, s, now) && st.clock <= now
             && Members(st.store, w, now) == {}
    ensures LeftBehind(more, done, s, w) && |more| == |states| + 1 && |done| == |steps| + 1 && states <= more && steps <= done
  {
    more, done := RunOn(states, steps, ReadMembers(0, w), now, states[|steps|].(clock := now));
  }

  /** A session `b` is created after an invalidation has read that the members are `a` alone. */
  lemma CreatedAfterReading(setsExpire: bool, slack: nat) returns (states: seq<State>, steps: seq<Step>)
    ensures IsRun(states, steps) && |states| == 8 && |steps| == 7 && states[0] == Start(setsExpire, slack)
    ensures states[7].calls == map[2 := Invalidating("w", {"a"}, {"a"})] && states[7].clock == 10
    ensures "b" in states[7].returned && Of(states[7], "b", "w")
    ensures "b" in states[7].store.sessions && states[7].store.sessions["b"].expiresAt == 10 + SESSION_TTL
  {
    states, steps := Created([Start(setsExpire, slack)], [], 1, "a", "w", 0);
    var one := states[3];
    assert Members(one.store, "w", 10) == {"a"};
    var read := Next(one, Step(ReadMembers(2, "w"), true, 10));
    states, steps := RunOn(states, steps, ReadMembers(2, "w"), 10, read);
    assert read.calls == map[2 := Invalidating("w", {"a"}, {"a"})];
    hide IsRun;
    states, steps := Created(states, steps, 3, "b", "w", 10);
  }

  /** A session is created while its workspace is being invalidated: the set is dropped with it inside. The next
      invalidation, which nothing overlaps, finds no members, and the session validates for its full time. */
  lemma CreationUnderInvalidation(setsExpire: bool, slack: nat) returns (states: seq<State>, steps: seq<Step>)
    ensures |states| == 11 && |steps| == 10 && states[0] == Start(setsExpire, slack)
    ensures Stepped(states[8], steps[8], states[9]) && steps[8].command.DropSet? && Ends(states[8], steps[8], "w")
    ensures LeftBehind(states, steps, "b", "w")
    ensures forall now: nat :: now < 10 + SESSION_TTL ==> Valid(states[10].store, "b", now)
  {
    states, steps := CreatedAfterReading(setsExpire, slack);
    hide IsRun;
    var gone := Next(states[7], Step(DeleteMember(2, "a"), true, 10));
    states, steps := RunOn(states, steps, DeleteMember(2, "a"), 10, gone);
    assert {"a"} - {"a"} == {};
    assert gone.calls == map[2 := Invalidating("w", {"a"}, {})];
    var dropped := Next(gone, Step(DropSet(2), true, 10));
    states, steps := RunOn(states, steps, DropSet(2), 10, dropped);
    assert dropped.calls == map[];
    states, steps := ReadsNothing(states, steps, "b", "w", 20);
  }

  /** Both a removal and a flag's call have read the session. */
  lemma ReadTwice(setsExpire: bool, slack: nat) returns (states: seq<State>, steps: seq<Step>)
    ensures IsRun(states, steps) && |states| == 6 && |steps| == 5 && states[0] == Start(setsExpire, slack)
    ensures states[5] == State(Create(Store(map[], map[], setsExpire, slack), "s", "w", 0),
                               map[2 := Flagging("s", "w", true), 3 := Removing("s", Some("w"), false)],
                               map["s" := Made("w", 0, 1)], {"s"}, 10)
  {
    states, steps := Created([Start(setsExpire, slack)], [], 1, "s", "w", 0);
    hide IsRun;
    var flagged := Next(states[3], Step(ReadFlag(2, "s", true), true, 10));
    states, steps := RunOn(states, steps, ReadFlag(2, "s", true), 10, flagged);
    var read := Next(flagged, Step(ReadSession(3, "s"), true, 10));
    states, steps := RunOn(states, steps, ReadSession(3, "s"), 10, read);
  }

  /** A session is removed while its flag is being written: the write brings it back, but not into the set. */
  lemma FlagUnderRemoval(setsExpire: bool, slack: nat) returns (states: seq<State>, steps: seq<Step>)
    ensures LeftBehind(states, steps, "s", "w") && |steps| == 9 && states[0] == Start(setsExpire, slack)
  {
    states, steps := ReadTwice(setsExpire, slack);
    hide IsRun;
    var deleted := Next(states[5], Step(DeleteSession(3), true, 10));
    assert deleted.store == Deleted(states[5].store, "s");
    states, steps := RunOn(states, steps, DeleteSession(3), 10, deleted);
    var out := Next(deleted, Step(TakeOut(3), true, 10));
    assert {"s"} - {"s"} == {} && Members(deleted.store, "w", 10) == {"s"};
    assert out.store.sets == map[] && out.calls == map[2 := Flagging("s", "w", true)];
    states, steps := RunOn(states, steps, TakeOut(3), 10, out);
    var written := Next(out, Step(WriteFlag(2), true, 10));
    states, steps := RunOn(states, steps, WriteFlag(2), 10, written);
    assert written.calls == map[];
    states, steps := ReadsNothing(states, steps, "s", "w", 20);
  }

  /** A session is added to a set that expires before the creation renews it. */
  lemma SetExpiresUnderCreation() returns (states: seq<State>, steps: seq<Step>)
    ensures LeftBehind(states, steps, "b", "w") && |steps| == 7 && states[0] == Start(true, 0)
  {
    states, steps := Created([Start(true, 0)], [], 1, "a", "w", 0);
    hide IsRun;
    var stored := Next(states[3], Step(StoreSession(2, "b", "w"), true, SET_TTL - 1));
    states, steps := RunOn(states, steps, StoreSession(2, "b", "w"), SET_TTL - 1, stored);
    var added := Next(stored, Step(AddMember(2), true, SET_TTL - 1));
    states, steps := RunOn(states, steps, AddMember(2), SET_TTL - 1, added);
    var renewed := Next(added, Step(RenewSet(2), true, SET_TTL));
    states, steps := RunOn(states, steps, RenewSet(2), SET_TTL, renewed);
    assert renewed.calls == map[];
    states, steps := ReadsNothing(states, steps, "b", "w", SET_TTL);
  }

  lemma Flagged(states: seq<State>, steps: seq<Step>, s: Id, w: Id, now: Time) returns (more: seq<State>, done: seq<Step>)
    requires IsRun(states, steps)
    requires var st := states[|steps|];
             st.calls == map[] && Valid(st.store, s, now) && st.store.sessions[s].workspace == w && st.clock <= now
    ensures IsRun(more, done) && |more| == |states| + 2 && |done| == |steps| + 2 && states <= more && steps <= done
    ensures var st := states[|steps|];
            more[|done|] == st.(store := SetFlag(st.store, s, true, now), clock := now)
  {
    var read := Next(states[|steps|], Step(ReadFlag(0, s, true), true, now));
    more, done := RunOn(states, steps, ReadFlag(0, s, true), now, read);
    var written := Next(read, Step(WriteFlag(0), true, now));
    more, done := RunOn(more, done, WriteFlag(0), now, written);
    assert written.calls == map[];
  }

  /** A session whose flag is written after almost a day and again after almost two outlives its set. */
  lemma LateFlagSurvives() returns (states: seq<State>, steps: seq<Step>)
    ensures LeftBehind(states, steps, "s", "w") && |steps| == 8 && states[0] == Start(true, 0)
  {
    states, steps := Created([Start(true, 0)], [], 1, "s", "w", 0);
    hide IsRun;
    states, steps := Flagged(states, steps, "s", "w", SESSION_TTL - 400);
    states, steps := Flagged(states, steps, "s", "w", SET_TTL - 800);
    states, steps := ReadsNothing(states, steps, "s", "w", SET_TTL);
  }
}
