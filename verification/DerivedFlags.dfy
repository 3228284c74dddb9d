/** The derived flag `is_blocked` across an update. The issues to announce are listed before the update's transaction
    begins, so the list can be out of date when the transaction runs. */
module DerivedFlags {
  import opened Listing
  import opened Wire
  import opened IssueStore
  import opened Replay
  import opened ReplayAgreement
  import opened SyncRuns
  import opened IssueInvariants

  // ---------------------------------------------------------------- one transaction

  predicate BlocksFrom(r: Relation, i: Id, x: Id) {
    r.kind == Blocks && r.source == i && r.target == x
  }

  lemma FlagMovedMeansRelation(st: Store, st': Store, i: Id, x: Id) returns (r: Id)
    requires st'.relations == st.relations && st'.statuses == st.statuses && i in st.issues && i in st'.issues
    requires st'.issues == st.issues[i := st'.issues[i]] && IsBlocked(st, x) != IsBlocked(st', x)
    ensures r in st.relations && BlocksFrom(st.relations[r], i, x) && st.issues[i].status != st'.issues[i].status
  {
    if IsBlocked(st, x) {
      r :| r in st.relations && OpenBlocker(st, st.relations[r], x);
      assert !OpenBlocker(st', st'.relations[r], x);
    } else {
      r :| r in st'.relations && OpenBlocker(st', st'.relations[r], x);
      assert !OpenBlocker(st, st.relations[r], x);
    }
  }

  lemma StatusMovedMeansGiven(st: Store, i: Id, u: Updates, blocked: seq<Id>)
    requires UpdateIssueTx(st, i, u, blocked).1.Done?
    ensures var st' := UpdateIssueTx(st, i, u, blocked).0;
            i in st.issues && i in st'.issues && (st.issues[i].status != st'.issues[i].status ==> u.status.Some?)
  {
  }

  /** An update only moves flags of issues that `i` blocks, and only when it sets a status. */
  lemma FlagMovedMeansBlocked(st: Store, i: Id, u: Updates, blocked: seq<Id>, x: Id)
    requires UpdateIssueTx(st, i, u, blocked).1.Done?
    requires IsBlocked(st, x) != IsBlocked(UpdateIssueTx(st, i, u, blocked).0, x)
    ensures u.status.Some? && x in BlockedBy(st, i)
  {
    var st' := UpdateIssueTx(st, i, u, blocked).0;
    UpdateTouchesOneIssue(st, i, u, blocked);
    hide UpdateIssueTx, IsBlocked;
    var r := FlagMovedMeansRelation(st, st', i, x);
    StatusMovedMeansGiven(st, i, u, blocked);
  }

  /** Entry `k` is one of the update's own and is about issue `x`. */
  predicate About(st: Store, st': Store, k: nat, x: Id) {
    |st.log| <= k < |st'.log| && st'.log[k].key == Key(IssueKind, x)
  }

  /** It carries the row of `x` and the new value of its flag to the whole workspace. */
  predicate AnnouncesFlag(st: Store, st': Store, k: nat, x: Id, i: Id) {
    && About(st, st', k, x) && x in st'.issues && i in st.issues
    && st'.log[k] == Entry(Key(IssueKind, x), st.issues[i].workspace, None, Update, Some(IssueData(st'.issues[x], IsBlocked(st', x))))
  }

  ghost predicate FlagAnnounced(st: Store, st': Store, x: Id, i: Id) {
    exists k: nat :: AnnouncesFlag(st, st', k, x, i)
  }

  lemma EntryOf(st: Store, st': Store, i: Id, blocked: seq<Id>, x: Id) returns (k: nat)
    requires i in st.issues && i in st'.issues && x in st'.issues && (x == i || x in blocked)
    ensures k < |UpdateEntries(st, st', i, blocked)|
    ensures UpdateEntries(st, st', i, blocked)[k] == IssueEntry(st', x, st.issues[i].workspace, Update)
  {
    if x == i {
      k := 0;
    } else {
      var j :| 0 <= j < |blocked| && blocked[j] == x;
      var w := st.issues[i].workspace;
      var m := BlockedIsAnnounced(st', w, blocked, j);
      k := 1 + |ChangeEntries(StatusChanged(st.issues[i], st'.issues[i], i), w)| + m;
      assert UpdateEntries(st, st', i, blocked)[k] == BlockedEntries(st', w, blocked)[m];
    }
  }

  /** A transaction whatever its list: an existing issue has an entry in the commit if and only if it is the updated
      one or is in the list as it was read; and the entry then carries the issue's new row and flag. */
  lemma AnnouncedExactly(st: Store, i: Id, u: Updates, blocked: seq<Id>, x: Id)
    requires UpdateIssueTx(st, i, u, blocked).1.Done? && x in st.issues
    ensures var st' := UpdateIssueTx(st, i, u, blocked).0;
            && ((exists k: nat :: About(st, st', k, x)) <==> x == i || x in blocked)
            && (FlagAnnounced(st, st', x, i) <==> x == i || x in blocked)
  {
    var st' := UpdateIssueTx(st, i, u, blocked).0;
    UpdateTouchesOneIssue(st, i, u, blocked);
    UpdateLog(st, i, u, blocked);
    var es := UpdateEntries(st, st', i, blocked);
    hide UpdateIssueTx, UpdateEntries, IsBlocked;
    if x == i || x in blocked {
      var m := EntryOf(st, st', i, blocked, x);
      assert st'.log[|st.log| + m] == es[m];
      assert AnnouncesFlag(st, st', |st.log| + m, x, i);
    }
    if FlagAnnounced(st, st', x, i) {
      var k: nat :| AnnouncesFlag(st, st', k, x, i);
      assert About(st, st', k, x);
    }
    if k: nat :| About(st, st', k, x) {
      assert st'.log[k] == es[k - |st.log|];
      InUpdateEntries(st, st', i, blocked, k - |st.log|);
    }
  }

  // ---------------------------------------------------------------- runs

  /** The update of step `k`, whose list was read in state `j`, is carried out. */
  ghost predicate UpdateRuns(states: seq<Store>, steps: seq<Step>, times: seq<Time>, j: nat, k: nat) {
    && IsRun(states, steps, times) && j <= k < |steps| && steps[k].UpdateIssue?
    && ReadAt(states[j], steps[k])
    && UpdateIssueTx(states[k].(clock := times[k]), steps[k].id, steps[k].updates, steps[k].blocked).1.Done?
  }

  /** Issue `x` is shown a different flag after step `k`. */
  predicate FlagMoves(states: seq<Store>, k: nat, x: Id)
    requires k + 1 < |states|
  {
    x in states[k].issues && IsBlocked(states[k], x) != IsBlocked(states[k + 1], x)
  }

  /** Log entries do not look at the clock. */
  lemma SameFlags(st: Store, now: Time, st': Store, x: Id, i: Id)
    ensures FlagAnnounced(st.(clock := now), st', x, i) <==> FlagAnnounced(st, st', x, i)
  {
    hide IsBlocked;
    if FlagAnnounced(st.(clock := now), st', x, i) {
      var k: nat :| AnnouncesFlag(st.(clock := now), st', k, x, i);
      assert AnnouncesFlag(st, st', k, x, i);
    }
    if FlagAnnounced(st, st', x, i) {
      var k: nat :| AnnouncesFlag(st, st', k, x, i);
      assert AnnouncesFlag(st.(clock := now), st', k, x, i);
    }
  }

  /** Over every run: a flag that an update moves is announced in the same commit if and only if the issue was already
      blocked by the updated one when the list was read. */
  lemma MovedFlagAnnouncedExactly(states: seq<Store>, steps: seq<Step>, times: seq<Time>, j: nat, k: nat, x: Id)
    requires UpdateRuns(states, steps, times, j, k) && FlagMoves(states, k, x) && x != steps[k].id
    ensures FlagAnnounced(states[k], states[k + 1], x, steps[k].id) <==> x in BlockedBy(states[j], steps[k].id)
  {
    var st, step := states[k].(clock := times[k]), steps[k];
    assert Stepped(states[k], step, times[k], states[k + 1]);
    AnnouncedExactly(st, step.id, step.updates, step.blocked, x);
    assert IsBlocked(st, x) == IsBlocked(states[k], x) by { SameRowsSameEntries(st, states[k], "", []); }
    FlagMovedMeansBlocked(st, step.id, step.updates, step.blocked, x);
    Listed(step.blocked, BlockedBy(states[j], step.id), x);
    hide IsRun, UpdateRuns, UpdateIssueTx, BlockedBy, Allowed;
    SameFlags(states[k], times[k], states[k + 1], x, step.id);
  }

  predicate MakesBlocker(step: Step, i: Id) {
    step.Relate? && step.relation.kind == Blocks && step.relation.source == i
  }

  /** No step from `j` up to `k` makes `i` block another issue. */
  predicate NoneRelated(steps: seq<Step>, i: Id, j: nat, k: nat)
    requires k <= |steps|
  {
    forall m {:trigger steps[m]} :: j <= m < k ==> !MakesBlocker(steps[m], i)
  }

  /** Only these three steps touch relations. */
  predicate TouchesRelations(step: Step) {
    step.Relate? || step.Unrelate? || step.DeleteIssue?
  }

  lemma IssueStepKeepsRelations(st: Store, step: Step)
    requires Allowed(st, step) && (step.CreateIssue? || step.SetLabels? || step.SetSortOrder? || step.Archive?)
    ensures Apply(st, step).relations == st.relations
  {
    hide IsBlocked, NextNumber, Unused;
  }

  lemma UpdateKeepsRelations(st: Store, i: Id, u: Updates, blocked: seq<Id>)
    ensures UpdateIssueTx(st, i, u, blocked).0.relations == st.relations
  {
  }

  lemma StepKeepsRelations(st: Store, step: Step)
    requires Allowed(st, step) && !TouchesRelations(step)
    ensures Apply(st, step).relations == st.relations
  {
    if step.UpdateIssue? {
      UpdateKeepsRelations(st, step.id, step.updates, step.blocked);
      hide UpdateIssueTx, Allowed;
    } else if ElsewhereThanIssues(step) {
      OtherStepsLeaveIssues(st, step);
      hide Apply, Allowed;
    } else {
      IssueStepKeepsRelations(st, step);
    }
  }

  lemma RelationStepKeepsBlockedBy(st: Store, step: Step, i: Id)
    requires Allowed(st, step) && TouchesRelations(step) && !MakesBlocker(step, i)
    ensures BlockedBy(Apply(st, step), i) <= BlockedBy(st, i)
  {
    hide IsBlocked, Lists, Unused;
    if step.DeleteIssue? { ListedRows(st, step); }
  }

  lemma StepKeepsBlockedBy(st: Store, step: Step, i: Id)
    requires Allowed(st, step) && !MakesBlocker(step, i)
    ensures BlockedBy(Apply(st, step), i) <= BlockedBy(st, i)
  {
    if TouchesRelations(step) {
      RelationStepKeepsBlockedBy(st, step, i);
    } else {
      StepKeepsRelations(st, step);
      hide Apply, Allowed;
    }
  }

  lemma {:induction false} BlockedByShrinks(states: seq<Store>, steps: seq<Step>, times: seq<Time>, i: Id, j: nat, k: nat)
    requires IsRun(states, steps, times) && j <= k < |states| && NoneRelated(steps, i, j, k)
    ensures BlockedBy(states[k], i) <= BlockedBy(states[j], i)
    decreases k
  {
    if j < k {
      BlockedByShrinks(states, steps, times, i, j, k - 1);
      assert Stepped(states[k - 1], steps[k - 1], times[k - 1], states[k]) && !MakesBlocker(steps[k - 1], i);
      hide IsRun, Allowed, Apply;
      StepKeepsBlockedBy(states[k - 1].(clock := times[k - 1]), steps[k - 1], i);
    }
  }

  /** So whenever an update changes an issue's status, and the issue was made to block nothing between the reading of
      the list and the update, every issue whose flag differs before and after has an entry in the same commit that
      carries its row and the flag's new value. */
  lemma DerivedFlagsAnnounced(states: seq<Store>, steps: seq<Step>, times: seq<Time>, j: nat, k: nat, x: Id)
    requires UpdateRuns(states, steps, times, j, k) && FlagMoves(states, k, x) && NoneRelated(steps, steps[k].id, j, k)
    ensures FlagAnnounced(states[k], states[k + 1], x, steps[k].id)
  {
    var st, step := states[k].(clock := times[k]), steps[k];
    BlockedByShrinks(states, steps, times, step.id, j, k);
    assert Stepped(states[k], step, times[k], states[k + 1]);
    AnnouncedExactly(st, step.id, step.updates, step.blocked, x);
    assert IsBlocked(st, x) == IsBlocked(states[k], x) by { SameRowsSameEntries(st, states[k], "", []); }
    FlagMovedMeansBlocked(st, step.id, step.updates, step.blocked, x);
    Listed(step.blocked, BlockedBy(states[j], step.id), x);
    hide IsRun, UpdateRuns, UpdateIssueTx, Allowed;
    SameFlags(states[k], times[k], states[k + 1], x, step.id);
  }

  // ---------------------------------------------------------------- lists stay within a workspace

  /** Issue `x` keeps its workspace, or is gone for good. */
  predicate KeepsWorkspace(st: Store, st': Store, x: Id) {
    x in st'.born && (x in st'.issues ==> x in st.issues && st'.issues[x].workspace == st.issues[x].workspace)
  }

  lemma CreateKeepsWorkspace(st: Store, i: Id, w: Id, team: Id, content: Text, labels: set<Id>, x: Id)
    requires i !in st.born && x in st.born
    ensures KeepsWorkspace(st, CreateIssueTx(st, i, w, team, content, labels).0, x)
  {
  }

  lemma UpdateKeepsWorkspace(st: Store, i: Id, u: Updates, blocked: seq<Id>, x: Id)
    requires x in st.born
    ensures KeepsWorkspace(st, UpdateIssueTx(st, i, u, blocked).0, x)
  {
    if UpdateIssueTx(st, i, u, blocked).1.Done? {
      UpdateTouchesOneIssue(st, i, u, blocked);
      hide UpdateIssueTx;
    }
  }

  lemma OtherStepKeepsWorkspace(st: Store, step: Step, x: Id)
    requires Allowed(st, step) && ElsewhereThanIssues(step) && x in st.born
    ensures KeepsWorkspace(st, Apply(st, step), x)
  {
    OtherStepsLeaveIssues(st, step);
    hide Apply, Allowed;
  }

  lemma RowStepKeepsWorkspace(st: Store, step: Step, x: Id)
    requires Allowed(st, step) && x in st.born
    requires step.DeleteIssue? || step.SetLabels? || step.SetSortOrder? || step.Archive?
    ensures KeepsWorkspace(st, Apply(st, step), x)
  {
    hide IsBlocked, Lists;
    if step.DeleteIssue? { ListedRows(st, step); }
  }

  lemma StepKeepsWorkspace(st: Store, step: Step, x: Id)
    requires Allowed(st, step) && x in st.born
    ensures KeepsWorkspace(st, Apply(st, step), x)
  {
    hide IsBlocked, Lists, CreateIssueTx, UpdateIssueTx, DeleteIssueTx, SetLabelsTx, SetSortOrderTx, ArchiveTx, KeepsWorkspace, SameIssues;
    match step
    case CreateIssue(i, w, team, content, labels) => CreateKeepsWorkspace(st, i, w, team, content, labels, x);
    case UpdateIssue(i, u, blocked) => UpdateKeepsWorkspace(st, i, u, blocked, x);
    case DeleteIssue(_, _, _, _, _) => RowStepKeepsWorkspace(st, step, x);
    case SetLabels(_, _) => RowStepKeepsWorkspace(st, step, x);
    case SetSortOrder(_, _) => RowStepKeepsWorkspace(st, step, x);
    case Archive(_, _) => RowStepKeepsWorkspace(st, step, x);
    case _ => OtherStepKeepsWorkspace(st, step, x);
  }

  /** An issue that was there once, and is there now, was there before the last step. */
  lemma StayedIssue(states: seq<Store>, steps: seq<Step>, times: seq<Time>, x: Id, k: nat)
    requires IsRun(states, steps, times) && 0 < k < |states| && x in states[k - 1].born && x in states[k].issues
    ensures x in states[k - 1].issues && states[k].issues[x].workspace == states[k - 1].issues[x].workspace
  {
    assert Stepped(states[k - 1], steps[k - 1], times[k - 1], states[k]);
    hide IsRun, Allowed, Apply;
    StepKeepsWorkspace(states[k - 1].(clock := times[k - 1]), steps[k - 1], x);
  }

  /** An issue never changes workspace, and once it is gone its id never comes back. */
  lemma {:induction false} WorkspaceFixed(states: seq<Store>, steps: seq<Step>, times: seq<Time>, x: Id, j: nat, k: nat)
    requires IsRun(states, steps, times) && j <= k < |states| && x in states[j].issues
    ensures x in states[k].born && (x in states[k].issues ==> states[k].issues[x].workspace == states[j].issues[x].workspace)
    ensures x in states[k].issues ==> forall i {:trigger states[i]} :: j <= i <= k ==> x in states[i].issues
    decreases k
  {
    if j == k {
      StatusHistory(states, steps, times, k, x);
    } else {
      WorkspaceFixed(states, steps, times, x, j, k - 1);
      assert Stepped(states[k - 1], steps[k - 1], times[k - 1], states[k]);
      hide IsRun, Allowed, Apply;
      StepKeepsWorkspace(states[k - 1].(clock := times[k - 1]), steps[k - 1], x);
      if x in states[k].issues { StayedIssue(states, steps, times, x, k); }
    }
  }

  /** Whenever a list was read, the issues in it that still exist are in the updated issue's workspace. */
  lemma EarlierReadsTogether(states: seq<Store>, steps: seq<Step>, times: seq<Time>, j: nat, k: nat, step: Step)
    requires IsRun(states, steps, times) && j <= k < |states|
    requires step.UpdateIssue? && ReadAt(states[j], step) && step.id in states[k].issues
    ensures ListedTogether(states[k], step.id, step.blocked)
  {
    RunKeepsTables(states, steps, times, j);
    forall x | x in step.blocked && x in states[k].issues
      ensures states[k].issues[x].workspace == states[k].issues[step.id].workspace
    {
      Listed(step.blocked, if step.updates.status.Some? then BlockedBy(states[j], step.id) else {}, x);
      var r :| r in states[j].relations && BlocksFrom(states[j].relations[r], step.id, x);
      WorkspaceFixed(states, steps, times, x, j, k);
      WorkspaceFixed(states, steps, times, step.id, j, k);
    }
  }
}
