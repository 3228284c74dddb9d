/** What every run keeps about issues: their numbers, their timestamps, and the history of their status. */
module IssueInvariants {
  import opened Listing
  import opened Wire
  import opened IssueStore

  ghost predicate NumbersUnique(issues: map<Id, Issue>) {
    forall i, j {:trigger issues[i], issues[j]} ::
      i in issues && j in issues && issues[i].team == issues[j].team && issues[i].number == issues[j].number ==> i == j
  }

  /** The timestamps of an issue in a status of category `c`, at time `now`. */
  predicate TimesRight(x: Issue, c: Category, now: Time) {
    && (x.completedAt.Some? <==> c.Closed())
    && (c.Started? ==> x.startedAt.Some?)
    && (c.Backlog? || c.Unstarted? ==> x.startedAt.None?)
    && (x.startedAt.Some? && x.completedAt.Some? ==> x.startedAt.value <= x.completedAt.value)
    && (x.archivedAt.Some? ==> c.Closed())
    && (x.startedAt.Some? ==> x.startedAt.value <= now)
    && (x.completedAt.Some? ==> x.completedAt.value <= now)
  }

  predicate IssueRight(st: Store, x: Issue) {
    x.status in st.statuses && x.number >= 1 && TimesRight(x, st.statuses[x.status], st.clock)
  }

  /** The status an issue ends up in when its recorded changes are followed from `first`; nothing when one of
      them does not start where the last one ended, or changes nothing. */
  function StatusAfter(changes: seq<StatusChange>, i: Id, first: Id): Option<Id> {
    if changes == [] then Some(first)
    else
      var before := StatusAfter(changes[..|changes| - 1], i, first);
      var c := changes[|changes| - 1];
      if c.issue != i then before
      else if before == Some(c.before) && c.before != c.after then Some(c.after)
      else None
  }

  ghost predicate HistoryRight(st: Store) {
    && (forall i {:trigger st.issues[i]} :: i in st.issues ==>
          i in st.born && StatusAfter(st.changes, i, st.born[i]) == Some(st.issues[i].status))
    && (forall k {:trigger st.changes[k]} :: 0 <= k < |st.changes| ==> st.changes[k].issue in st.born)
  }

  ghost predicate Issues(st: Store) {
    && (forall i {:trigger st.issues[i]} :: i in st.issues ==> IssueRight(st, st.issues[i]))
    && NumbersUnique(st.issues)
    && HistoryRight(st)
    && (forall w {:trigger st.defaults[w]} :: w in st.defaults ==>
          st.defaults[w] in st.statuses && st.statuses[st.defaults[w]] == Backlog)
  }

  // ---------------------------------------------------------------- one issue

  lemma PatchedRight(st: Store, x: Issue, u: Updates)
    requires IssueRight(st, x) && GoodUpdates(st, u)
    ensures IssueRight(st, Patched(st, x, u))
  {
  }

  /** A number one above the highest of a team is taken by nobody in it. */
  lemma NextNumberUnique(st: Store, i: Id, x: Issue)
    requires NumbersUnique(st.issues) && (x.number == NextNumber(st, x.team) || (i in st.issues && x.team == st.issues[i].team && x.number == st.issues[i].number))
    ensures NumbersUnique(st.issues[i := x])
  {
    var issues := st.issues[i := x];
    forall a, b {:trigger issues[a], issues[b]}
      | a in issues && b in issues && issues[a].team == issues[b].team && issues[a].number == issues[b].number ensures a == b
    {
      if a != i && b != i { assert issues[a] == st.issues[a] && issues[b] == st.issues[b]; }
    }
  }

  lemma {:induction false} NoChangesYet(changes: seq<StatusChange>, i: Id, first: Id)
    requires forall k {:trigger changes[k]} :: 0 <= k < |changes| ==> changes[k].issue != i
    ensures StatusAfter(changes, i, first) == Some(first)
  {
    if changes != [] { NoChangesYet(changes[..|changes| - 1], i, first); }
  }

  lemma AppendChange(changes: seq<StatusChange>, c: StatusChange, i: Id, first: Id)
    ensures StatusAfter(changes + [c], i, first)
            == if c.issue != i then StatusAfter(changes, i, first)
               else if StatusAfter(changes, i, first) == Some(c.before) && c.before != c.after then Some(c.after) else None
  {
    assert (changes + [c])[..|changes|] == changes;
  }

  // ---------------------------------------------------------------- every step

  /** One issue put in place, with the change of its status recorded. */
  lemma PutKeepsIssues(st: Store, st': Store, i: Id, x: Issue)
    requires Issues(st) && i in st.issues && IssueRight(st, x) && NumbersUnique(st.issues[i := x])
    requires st'.issues == st.issues[i := x] && st'.changes == st.changes + StatusChanged(st.issues[i], x, i)
    requires st'.born == st.born && st'.statuses == st.statuses && st'.defaults == st.defaults && st'.clock == st.clock
    ensures Issues(st')
  {
    forall j {:trigger st'.issues[j]} | j in st'.issues
      ensures j in st'.born && StatusAfter(st'.changes, j, st'.born[j]) == Some(st'.issues[j].status)
    {
      assert j in st.issues && StatusAfter(st.changes, j, st.born[j]) == Some(st.issues[j].status);
      if st.issues[i].status != x.status {
        AppendChange(st.changes, StatusChange(i, st.issues[i].status, x.status), j, st.born[j]);
      } else {
        assert st'.changes == st.changes;
      }
    }
  }

  lemma SameIssuesKept(st: Store, st': Store)
    requires Issues(st) && st'.issues == st.issues && st'.changes == st.changes
    requires st'.born == st.born && st'.statuses == st.statuses && st'.defaults == st.defaults && st'.clock >= st.clock
    ensures Issues(st')
  {
    forall i {:trigger st'.issues[i]} | i in st'.issues ensures IssueRight(st', st'.issues[i]) {
      assert IssueRight(st, st.issues[i]);
    }
  }

  lemma CreatedRight(st: Store, st': Store, i: Id, x: Issue)
    requires Issues(st) && i !in st.issues && i !in st.born && IssueRight(st, x) && NumbersUnique(st'.issues)
    requires st'.issues == st.issues[i := x] && st'.born == st.born[i := x.status] && st'.changes == st.changes
    requires st'.statuses == st.statuses && st'.defaults == st.defaults && st'.clock == st.clock
    requires StatusAfter(st.changes, i, x.status) == Some(x.status)
    ensures Issues(st')
  {
    forall j {:trigger st'.issues[j]} | j in st'.issues
      ensures IssueRight(st', st'.issues[j]) && j in st'.born && StatusAfter(st'.changes, j, st'.born[j]) == Some(st'.issues[j].status)
    {
      if j != i { assert st'.issues[j] == st.issues[j]; }
    }
    forall k {:trigger st'.changes[k]} | 0 <= k < |st'.changes| ensures st'.changes[k].issue in st'.born {
      assert st.changes[k].issue in st.born;
    }
  }

  lemma CreateKeepsIssues(st: Store, i: Id, w: Id, team: Id, content: Text, labels: set<Id>)
    requires Issues(st) && Unused(st, Key(IssueKind, i))
    ensures Issues(CreateIssueTx(st, i, w, team, content, labels).0)
  {
    var (st', outcome) := CreateIssueTx(st, i, w, team, content, labels);
    if outcome.Done? {
      var x := st'.issues[i];
      NextNumberUnique(st, i, x);
      forall k {:trigger st'.changes[k]} | 0 <= k < |st'.changes| ensures st'.changes[k].issue in st.born && st'.changes[k].issue != i {
        assert st.changes[k].issue in st.born;
      }
      NoChangesYet(st'.changes, i, x.status);
      CreatedRight(st, st', i, x);
    }
  }

  lemma UpdateKeepsIssues(st: Store, i: Id, u: Updates, blocked: seq<Id>)
    requires Issues(st)
    ensures Issues(UpdateIssueTx(st, i, u, blocked).0)
  {
    var (st', outcome) := UpdateIssueTx(st, i, u, blocked);
    if outcome.Done? {
      var x := st.issues[i];
      assert IssueRight(st, x);
      PatchedRight(st, x, u);
      NextNumberUnique(st, i, Patched(st, x, u));
      hide Patched, BlockedEntries, ChangeEntries;
      PutKeepsIssues(st, st', i, Patched(st, x, u));
    }
  }

  lemma RewriteKeepsIssues(st: Store, st': Store, i: Id, x: Issue)
    requires Issues(st) && i in st.issues && IssueRight(st, x)
    requires x.status == st.issues[i].status && x.team == st.issues[i].team && x.number == st.issues[i].number
    requires st'.issues == st.issues[i := x] && st'.changes == st.changes
    requires st'.born == st.born && st'.statuses == st.statuses && st'.defaults == st.defaults && st'.clock == st.clock
    ensures Issues(st')
  {
    NextNumberUnique(st, i, x);
    assert st.changes + [] == st.changes;
    PutKeepsIssues(st, st', i, x);
  }

  lemma DeleteKeepsIssues(st: Store, st': Store, i: Id)
    requires Issues(st) && st'.issues == st.issues - {i} && st'.changes == st.changes
    requires st'.born == st.born && st'.statuses == st.statuses && st'.defaults == st.defaults && st'.clock == st.clock
    ensures Issues(st')
  {
    forall j {:trigger st'.issues[j]} | j in st'.issues ensures j in st.issues && st'.issues[j] == st.issues[j] {}
    forall a, b {:trigger st'.issues[a], st'.issues[b]}
      | a in st'.issues && b in st'.issues && st'.issues[a].team == st'.issues[b].team && st'.issues[a].number == st'.issues[b].number
      ensures a == b
    {
      assert st.issues[a] == st'.issues[a] && st.issues[b] == st'.issues[b];
    }
  }

  lemma RewrittenKeepsIssues(st: Store, i: Id, x: Issue)
    requires Issues(st) && i in st.issues && IssueRight(st, x)
    requires x.status == st.issues[i].status && x.team == st.issues[i].team && x.number == st.issues[i].number
    ensures Issues(Rewritten(st, i, x))
  {
    RewriteKeepsIssues(st, Rewritten(st, i, x), i, x);
  }

  /** Columns that carry no rule may change; an archive stamp may come off, or go on in a closed status. */
  lemma IssueIsRight(st: Store, i: Id, y: Issue)
    requires Issues(st) && i in st.issues
    requires var x := st.issues[i];
             && y.status == x.status && y.number == x.number && y.startedAt == x.startedAt && y.completedAt == x.completedAt
             && (y.archivedAt.Some? ==> y.archivedAt == x.archivedAt || ClosedStatus(st, x.status))
    ensures IssueRight(st, y)
  {
    assert IssueRight(st, st.issues[i]);
  }

  lemma ArchiveKeepsIssues(st: Store, i: Id)
    requires Issues(st) && i in st.issues && ClosedStatus(st, st.issues[i].status)
    ensures Issues(ArchiveTx(st, i))
  {
    var x := st.issues[i].(archivedAt := Some(st.clock));
    IssueIsRight(st, i, x);
    RewriteKeepsIssues(st, ArchiveTx(st, i), i, x);
  }

  predicate ElsewhereThanIssues(step: Step) {
    !step.CreateIssue? && !step.UpdateIssue? && !step.DeleteIssue? && !step.SetLabels? && !step.SetSortOrder? && !step.Archive?
  }

  predicate SameIssues(st: Store, st': Store) {
    && st'.issues == st.issues && st'.changes == st.changes && st'.born == st.born && st'.statuses == st.statuses
    && st'.defaults == st.defaults && st'.clock == st.clock && st'.teams == st.teams
  }

  lemma CreateCommentLeavesIssues(st: Store, c: Id, i: Id, author: Id, body: Text)
    ensures SameIssues(st, CreateCommentTx(st, c, i, author, body).0) && CreateCommentTx(st, c, i, author, body).0.relations == st.relations
  {
    hide CommentEntry;
  }

  lemma EditCommentLeavesIssues(st: Store, c: Id, user: Id, body: Text)
    ensures SameIssues(st, EditCommentTx(st, c, user, body).0) && EditCommentTx(st, c, user, body).0.relations == st.relations
  {
    hide CommentEntry;
  }

  lemma DeleteCommentLeavesIssues(st: Store, c: Id, user: Id)
    ensures SameIssues(st, DeleteCommentTx(st, c, user).0) && DeleteCommentTx(st, c, user).0.relations == st.relations
  {
    hide Gone;
  }

  lemma NotifyLeavesIssues(st: Store, n: Id, i: Id, user: Id)
    ensures SameIssues(st, NotifyTx(st, n, i, user).0) && NotifyTx(st, n, i, user).0.relations == st.relations
  {
    hide NotificationEntry;
  }

  lemma ChangeLeavesIssues(st: Store, user: Id, change: Change, ids: seq<Id>)
    requires forall n :: n in ids ==> n in st.notifications
    ensures SameIssues(st, ChangeTx(st, user, change, ids)) && ChangeTx(st, user, change, ids).relations == st.relations
  {
    hide NotificationEntries, Changed;
  }

  lemma MarkReadLeavesIssues(st: Store, n: Id, user: Id)
    ensures SameIssues(st, MarkReadTx(st, n, user).0) && MarkReadTx(st, n, user).0.relations == st.relations
  {
    if MarkReadTx(st, n, user).1.Done? {
      ChangeLeavesIssues(st, user, Read, [n]);
      hide ChangeTx;
    }
  }

  lemma AddFavoriteLeavesIssues(st: Store, f: Id, user: Id, workspace: Id, target: Target)
    ensures SameIssues(st, AddFavoriteTx(st, f, user, workspace, target)) && AddFavoriteTx(st, f, user, workspace, target).relations == st.relations
  {
    hide FavoriteEntry;
  }

  lemma RemoveFavoriteLeavesIssues(st: Store, user: Id, workspace: Id, target: Target)
    ensures SameIssues(st, RemoveFavoriteTx(st, user, workspace, target)) && RemoveFavoriteTx(st, user, workspace, target).relations == st.relations
  {
    hide Gone;
  }

  lemma LeavesIssues(st: Store, step: Step)
    requires Allowed(st, step) && (step.ChangeNotifications? || step.Relate? || step.Unrelate?)
    ensures SameIssues(st, Apply(st, step))
    ensures step.ChangeNotifications? ==> Apply(st, step).relations == st.relations
  {
  }

  lemma OtherStepsLeaveIssues(st: Store, step: Step)
    requires Allowed(st, step) && ElsewhereThanIssues(step)
    ensures SameIssues(st, Apply(st, step))
    ensures !step.Relate? && !step.Unrelate? ==> Apply(st, step).relations == st.relations
  {
    hide SameIssues, Lists, CreateCommentTx, EditCommentTx, DeleteCommentTx, NotifyTx, MarkReadTx, AddFavoriteTx, RemoveFavoriteTx;
    match step
    case CreateComment(c, i, author, body) => CreateCommentLeavesIssues(st, c, i, author, body);
    case EditComment(c, user, body) => EditCommentLeavesIssues(st, c, user, body);
    case DeleteComment(c, user) => DeleteCommentLeavesIssues(st, c, user);
    case Notify(n, i, user) => NotifyLeavesIssues(st, n, i, user);
    case MarkRead(n, user) => MarkReadLeavesIssues(st, n, user);
    case AddFavorite(f, user, w, target) => AddFavoriteLeavesIssues(st, f, user, w, target);
    case RemoveFavorite(user, w, target) => RemoveFavoriteLeavesIssues(st, user, w, target);
    case _ => LeavesIssues(st, step);
  }

  lemma StepKeepsIssues(st: Store, step: Step)
    requires Issues(st) && Allowed(st, step)
    ensures Issues(Apply(st, step))
  {
    hide Issues, IssueRight, HistoryRight, Lists, CreateIssueTx, UpdateIssueTx, Rewritten, ArchiveTx, ClosedStatus;
    match step
    case CreateIssue(i, w, team, content, labels) => CreateKeepsIssues(st, i, w, team, content, labels);
    case UpdateIssue(i, u, blocked) => UpdateKeepsIssues(st, i, u, blocked);
    case DeleteIssue(i, _, _, _, _) => if i in st.issues { DeleteKeepsIssues(st, Apply(st, step), i); }
    case SetLabels(i, labels) =>
      if i in st.issues {
        IssueIsRight(st, i, st.issues[i].(labels := labels));
        RewrittenKeepsIssues(st, i, st.issues[i].(labels := labels));
      }
    case SetSortOrder(i, rank) =>
      if i in st.issues {
        var x := st.issues[i].(rank := rank, archivedAt := None, updatedAt := st.clock);
        IssueIsRight(st, i, x);
        RewrittenKeepsIssues(st, i, x);
      }
    case Archive(i, _) => ArchiveKeepsIssues(st, i);
    case _ =>
      OtherStepsLeaveIssues(st, step);
      hide Apply;
      SameIssuesKept(st, Apply(st, step));
  }

  lemma {:induction false} RunKeepsIssues(states: seq<Store>, steps: seq<Step>, times: seq<Time>, k: nat)
    requires IsRun(states, steps, times) && k < |states|
    ensures Issues(states[k])
  {
    if k > 0 {
      RunKeepsIssues(states, steps, times, k - 1);
      assert Stepped(states[k - 1], steps[k - 1], times[k - 1], states[k]);
      SameIssuesKept(states[k - 1], states[k - 1].(clock := times[k - 1]));
      StepKeepsIssues(states[k - 1].(clock := times[k - 1]), steps[k - 1]);
    }
  }

  lemma TeamsKept(st: Store, st': Store)
    requires TeamsRight(st.issues, st.teams) && st'.teams == st.teams
    requires forall i {:trigger st'.issues[i]} :: i in st'.issues ==>
               i in st.issues && st'.issues[i].team == st.issues[i].team && st'.issues[i].workspace == st.issues[i].workspace
    ensures TeamsRight(st'.issues, st'.teams)
  {
  }

  lemma UpdateKeepsTeams(st: Store, i: Id, u: Updates, blocked: seq<Id>)
    requires TeamsRight(st.issues, st.teams) && Allowed(st, UpdateIssue(i, u, blocked))
    ensures var st' := UpdateIssueTx(st, i, u, blocked).0; TeamsRight(st'.issues, st'.teams)
  {
    hide BlockedEntries, ChangeEntries, NextNumber, Lists;
  }

  lemma DeleteKeepsTeams(st: Store, step: Step)
    requires TeamsRight(st.issues, st.teams) && step.DeleteIssue? && Allowed(st, step)
    ensures TeamsRight(Apply(st, step).issues, Apply(st, step).teams)
  {
    ListedRows(st, step);
    hide Lists;
    TeamsKept(st, Apply(st, step));
  }

  lemma CreateKeepsTeams(st: Store, i: Id, w: Id, team: Id, content: Text, labels: set<Id>)
    requires TeamsRight(st.issues, st.teams) && (team in st.teams ==> st.teams[team] == w)
    ensures var st' := CreateIssueTx(st, i, w, team, content, labels).0; TeamsRight(st'.issues, st'.teams)
  {
  }

  lemma RewriteKeepsTeams(st: Store, i: Id, x: Issue)
    requires TeamsRight(st.issues, st.teams) && i in st.issues
    requires x.team == st.issues[i].team && x.workspace == st.issues[i].workspace
    ensures TeamsRight(Rewritten(st, i, x).issues, Rewritten(st, i, x).teams)
  {
    TeamsKept(st, Rewritten(st, i, x));
  }

  lemma ArchiveKeepsTeams(st: Store, i: Id)
    requires TeamsRight(st.issues, st.teams) && i in st.issues
    ensures TeamsRight(ArchiveTx(st, i).issues, ArchiveTx(st, i).teams)
  {
    TeamsKept(st, ArchiveTx(st, i));
  }

  lemma StepKeepsTeams(st: Store, step: Step)
    requires TeamsRight(st.issues, st.teams) && Allowed(st, step)
    ensures TeamsRight(Apply(st, step).issues, Apply(st, step).teams)
  {
    hide Lists, CreateIssueTx, UpdateIssueTx, Rewritten, ArchiveTx, TeamsRight;
    match step
    case CreateIssue(i, w, team, content, labels) => CreateKeepsTeams(st, i, w, team, content, labels);
    case UpdateIssue(i, u, blocked) => UpdateKeepsTeams(st, i, u, blocked);
    case DeleteIssue(i, _, _, _, _) => DeleteKeepsTeams(st, step);
    case SetLabels(i, labels) => if i in st.issues { RewriteKeepsTeams(st, i, st.issues[i].(labels := labels)); }
    case SetSortOrder(i, rank) =>
      if i in st.issues {
        RewriteKeepsTeams(st, i, st.issues[i].(rank := rank, archivedAt := None, updatedAt := st.clock));
      }
    case Archive(i, _) => ArchiveKeepsTeams(st, i);
    case _ =>
      OtherStepsLeaveIssues(st, step);
      hide Apply;
  }

  lemma {:induction false} RunKeepsTeams(states: seq<Store>, steps: seq<Step>, times: seq<Time>, k: nat)
    requires IsRun(states, steps, times) && k < |states|
    ensures TeamsRight(states[k].issues, states[k].teams)
  {
    if k > 0 {
      RunKeepsTeams(states, steps, times, k - 1);
      StepKeepsTeams(states[k - 1].(clock := times[k - 1]), steps[k - 1]);
    }
  }

  /** In every reachable state no two issues share a team and a number, an issue has a completion time exactly in
      a closed status and a start time where its status asks for one, starts no later than it completes, and
      is archived only when closed. */
  lemma IssueRules(states: seq<Store>, steps: seq<Step>, times: seq<Time>, k: nat, i: Id, j: Id)
    requires IsRun(states, steps, times) && k < |states|
    requires i in states[k].issues && j in states[k].issues
    ensures var st := states[k];
            var x := st.issues[i];
            && (x.team == st.issues[j].team && x.number == st.issues[j].number ==> i == j)
            && x.status in st.statuses
            && var c := st.statuses[x.status];
               && (x.completedAt.Some? <==> c == Completed || c == Cancelled)
               && (c.Started? ==> x.startedAt.Some?)
               && (c == Backlog || c == Unstarted ==> x.startedAt.None?)
               && (x.startedAt.Some? && x.completedAt.Some? ==> x.startedAt.value <= x.completedAt.value)
               && (x.archivedAt.Some? ==> c == Completed || c == Cancelled)
  {
    RunKeepsIssues(states, steps, times, k);
    assert IssueRight(states[k], states[k].issues[i]);
  }

  // ---------------------------------------------------------------- the history replays

  /** Every change of a history that adds up starts where the changes before it end, and changes something. */
  lemma {:induction false} HistoryLinks(changes: seq<StatusChange>, i: Id, first: Id, k: nat)
    requires StatusAfter(changes, i, first).Some? && k < |changes| && changes[k].issue == i
    ensures StatusAfter(changes[..k], i, first) == Some(changes[k].before) && changes[k].before != changes[k].after
    decreases |changes|
  {
    var front := changes[..|changes| - 1];
    if k < |front| {
      HistoryLinks(front, i, first, k);
      assert front[..k] == changes[..k];
    }
  }

  /** The recorded status changes of an issue lead from the status it was created with to the one it has. */
  lemma StatusHistory(states: seq<Store>, steps: seq<Step>, times: seq<Time>, k: nat, i: Id)
    requires IsRun(states, steps, times) && k < |states| && i in states[k].issues
    ensures i in states[k].born
    ensures StatusAfter(states[k].changes, i, states[k].born[i]) == Some(states[k].issues[i].status)
  {
    RunKeepsIssues(states, steps, times, k);
  }
}
