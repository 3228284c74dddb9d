/** Replay agreement and privacy over whole runs of the service, and derived flags within one commit. */
module SyncRuns {
  import opened Listing
  import opened Wire
  import opened IssueStore
  import opened Replay
  import opened ReplayAgreement
  import opened IssueInvariants

  // ---------------------------------------------------------------- the tables stay linked

  lemma DeleteKeepsTables(st: Store, i: Id)
    requires Tables(st)
    ensures Tables(WithoutIssue(st, i))
  {
    var st' := WithoutIssue(st, i);
    forall r {:trigger st'.relations[r]} | r in st'.relations
      ensures st'.relations[r].source in st'.issues && st'.relations[r].target in st'.issues
    {
      assert r in st.relations && st'.relations[r] == st.relations[r] && r !in RelationsOf(st, i);
    }
    forall c {:trigger st'.comments[c]} | c in st'.comments ensures st'.comments[c].issue in st'.issues {
      assert c in st.comments && st'.comments[c] == st.comments[c] && c !in CommentsOf(st, i);
    }
    forall n {:trigger st'.notifications[n]} | n in st'.notifications ensures st'.notifications[n].issue in st'.issues {
      assert n in st.notifications && st'.notifications[n] == st.notifications[n] && n !in NotificationsOf(st, i);
    }
  }

  /** Issues may change, as long as none goes away or changes workspace. */
  lemma IssuesKeepTables(st: Store, st': Store)
    requires Tables(st)
    requires forall i :: i in st.issues ==> i in st'.issues && st'.issues[i].workspace == st.issues[i].workspace
    requires st'.comments == st.comments && st'.relations == st.relations && st'.notifications == st.notifications
    requires st'.favorites == st.favorites
    ensures Tables(st')
  {
  }

  lemma ChangeKeepsTables(st: Store, user: Id, change: Change, ids: seq<Id>)
    requires Tables(st) && forall n :: n in ids ==> n in st.notifications
    ensures Tables(ChangeTx(st, user, change, ids))
  {
  }

  /** Only favorites moved. */
  lemma FavoritesKeepTables(st: Store, st': Store)
    requires Tables(st) && UniqueFavorites(st'.favorites)
    requires st'.issues == st.issues && st'.comments == st.comments && st'.relations == st.relations
    requires st'.notifications == st.notifications
    ensures Tables(st')
  {
  }

  lemma FreshFavoriteUnique(favorites: map<Id, Favorite>, f: Id, x: Favorite)
    requires UniqueFavorites(favorites) && forall g :: g in favorites ==> favorites[g] != x
    ensures UniqueFavorites(favorites[f := x])
  {
  }

  lemma AddFavoriteUnique(st: Store, f: Id, user: Id, workspace: Id, target: Target)
    requires UniqueFavorites(st.favorites)
    ensures UniqueFavorites(AddFavoriteTx(st, f, user, workspace, target).favorites)
  {
    var found := FindFavorite(st, user, workspace, target);
    if found.None? { FreshFavoriteUnique(st.favorites, f, Favorite(user, workspace, target)); }
  }

  lemma RemoveFavoriteUnique(st: Store, user: Id, workspace: Id, target: Target)
    requires UniqueFavorites(st.favorites)
    ensures UniqueFavorites(RemoveFavoriteTx(st, user, workspace, target).favorites)
  {
  }

  /** Only comments moved, and each belongs to an issue. */
  lemma CommentsKeepTables(st: Store, st': Store)
    requires Tables(st) && CommentsLinked(st'.comments, st'.issues)
    requires st'.issues == st.issues && st'.relations == st.relations && st'.notifications == st.notifications
    requires st'.favorites == st.favorites
    ensures Tables(st')
  {
  }

  lemma NotifyKeepsTables(st: Store, n: Id, i: Id, user: Id)
    requires Tables(st)
    ensures Tables(NotifyTx(st, n, i, user).0)
  {
  }

  lemma RelationsKeepTables(st: Store, st': Store)
    requires Tables(st) && RelationsLinked(st'.relations, st'.issues)
    requires st'.issues == st.issues && st'.comments == st.comments && st'.notifications == st.notifications
    requires st'.favorites == st.favorites
    ensures Tables(st')
  {
  }

  lemma CreateIssueKeepsTables(st: Store, i: Id, workspace: Id, team: Id, content: Text, labels: set<Id>)
    requires Tables(st) && i !in st.issues
    ensures Tables(CreateIssueTx(st, i, workspace, team, content, labels).0)
  {
    IssuesKeepTables(st, CreateIssueTx(st, i, workspace, team, content, labels).0);
  }

  lemma UpdateTouchesOneIssue(st: Store, i: Id, u: Updates, blocked: seq<Id>)
    requires UpdateIssueTx(st, i, u, blocked).1.Done?
    ensures var st' := UpdateIssueTx(st, i, u, blocked).0;
            && i in st.issues && i in st'.issues && st'.issues[i].workspace == st.issues[i].workspace
            && st' == st.(issues := st.issues[i := st'.issues[i]], changes := st'.changes, log := st'.log)
  {
    hide BlockedEntries, ChangeEntries, NextNumber;
  }

  lemma UpdateIssueKeepsTables(st: Store, i: Id, u: Updates, blocked: seq<Id>)
    requires Tables(st)
    ensures Tables(UpdateIssueTx(st, i, u, blocked).0)
  {
    if UpdateIssueTx(st, i, u, blocked).1.Done? {
      UpdateTouchesOneIssue(st, i, u, blocked);
      hide UpdateIssueTx;
      IssuesKeepTables(st, UpdateIssueTx(st, i, u, blocked).0);
    }
  }

  lemma RewrittenKeepsTables(st: Store, i: Id, x: Issue)
    requires Tables(st) && i in st.issues && x.workspace == st.issues[i].workspace
    ensures Tables(Rewritten(st, i, x))
  {
    IssuesKeepTables(st, Rewritten(st, i, x));
  }

  lemma ArchiveKeepsTables(st: Store, i: Id)
    requires Tables(st) && i in st.issues
    ensures Tables(ArchiveTx(st, i))
  {
    IssuesKeepTables(st, ArchiveTx(st, i));
  }

  lemma DeleteIssueKeepsTables(st: Store, step: Step)
    requires Tables(st) && step.DeleteIssue? && Allowed(st, step)
    ensures Tables(Apply(st, step))
  {
    if step.id in st.issues {
      DeleteKeepsTables(st, step.id);
      IssuesKeepTables(WithoutIssue(st, step.id), Apply(st, step));
    }
  }

  lemma AddFavoriteKeepsTables(st: Store, f: Id, user: Id, workspace: Id, target: Target)
    requires Tables(st)
    ensures Tables(AddFavoriteTx(st, f, user, workspace, target))
  {
    AddFavoriteUnique(st, f, user, workspace, target);
    FavoritesKeepTables(st, AddFavoriteTx(st, f, user, workspace, target));
  }

  lemma RemoveFavoriteKeepsTables(st: Store, user: Id, workspace: Id, target: Target)
    requires Tables(st)
    ensures Tables(RemoveFavoriteTx(st, user, workspace, target))
  {
    RemoveFavoriteUnique(st, user, workspace, target);
    FavoritesKeepTables(st, RemoveFavoriteTx(st, user, workspace, target));
  }

  lemma CreateCommentKeepsTables(st: Store, c: Id, i: Id, author: Id, body: Text)
    requires Tables(st)
    ensures Tables(CreateCommentTx(st, c, i, author, body).0)
  {
    var (st', outcome) := CreateCommentTx(st, c, i, author, body);
    if outcome.Done? {
      assert CommentsLinked(st'.comments, st'.issues);
      CommentsKeepTables(st, st');
    }
  }

  lemma EditCommentKeepsTables(st: Store, c: Id, user: Id, body: Text)
    requires Tables(st)
    ensures Tables(EditCommentTx(st, c, user, body).0)
  {
    var (st', outcome) := EditCommentTx(st, c, user, body);
    if outcome.Done? {
      assert CommentsLinked(st'.comments, st'.issues);
      CommentsKeepTables(st, st');
    }
  }

  lemma DeleteCommentKeepsTables(st: Store, c: Id, user: Id)
    requires Tables(st)
    ensures Tables(DeleteCommentTx(st, c, user).0)
  {
    var (st', outcome) := DeleteCommentTx(st, c, user);
    if outcome.Done? {
      assert CommentsLinked(st'.comments, st'.issues);
      CommentsKeepTables(st, st');
    }
  }

  lemma RelateKeepsTables(st: Store, r: Id, relation: Relation)
    requires Tables(st) && Allowed(st, Relate(r, relation))
    ensures Tables(Apply(st, Relate(r, relation)))
  {
    var st' := Apply(st, Relate(r, relation));
    assert RelationsLinked(st'.relations, st'.issues);
    RelationsKeepTables(st, st');
  }

  lemma UnrelateKeepsTables(st: Store, r: Id)
    requires Tables(st)
    ensures Tables(UnrelateTx(st, r))
  {
    var st' := UnrelateTx(st, r);
    if st' != st {
      assert RelationsLinked(st'.relations, st'.issues);
      RelationsKeepTables(st, st');
    }
  }

  lemma StepKeepsTables(st: Store, step: Step)
    requires Tables(st) && Allowed(st, step)
    ensures Tables(Apply(st, step))
  {
    hide Tables, Lists, CreateIssueTx, UpdateIssueTx, DeleteIssueTx, Rewritten, ArchiveTx, CreateCommentTx, EditCommentTx,
      DeleteCommentTx, NotifyTx, ChangeTx, AddFavoriteTx, RemoveFavoriteTx, UnrelateTx;
    match step
    case CreateIssue(i, w, team, content, labels) => CreateIssueKeepsTables(st, i, w, team, content, labels);
    case UpdateIssue(i, u, blocked) => UpdateIssueKeepsTables(st, i, u, blocked);
    case DeleteIssue(_, _, _, _, _) => DeleteIssueKeepsTables(st, step);
    case SetLabels(i, labels) => if i in st.issues { RewrittenKeepsTables(st, i, st.issues[i].(labels := labels)); }
    case SetSortOrder(i, rank) =>
      if i in st.issues {
        RewrittenKeepsTables(st, i, st.issues[i].(rank := rank, archivedAt := None, updatedAt := st.clock));
      }
    case Archive(i, _) => ArchiveKeepsTables(st, i);
    case CreateComment(c, i, author, body) => CreateCommentKeepsTables(st, c, i, author, body);
    case EditComment(c, user, body) => EditCommentKeepsTables(st, c, user, body);
    case DeleteComment(c, user) => DeleteCommentKeepsTables(st, c, user);
    case Notify(n, i, user) => NotifyKeepsTables(st, n, i, user);
    case MarkRead(n, user) => if MarkReadTx(st, n, user).1.Done? { ChangeKeepsTables(st, user, Read, [n]); }
    case ChangeNotifications(user, change, _, affected) =>
      ListedRows(st, step);
      ChangeKeepsTables(st, user, change, affected);
    case AddFavorite(f, user, w, target) => AddFavoriteKeepsTables(st, f, user, w, target);
    case RemoveFavorite(user, w, target) => RemoveFavoriteKeepsTables(st, user, w, target);
    case Relate(r, relation) => RelateKeepsTables(st, r, relation);
    case Unrelate(r) => UnrelateKeepsTables(st, r);
  }

  lemma {:induction false} RunKeepsTables(states: seq<Store>, steps: seq<Step>, times: seq<Time>, k: nat)
    requires IsRun(states, steps, times) && k < |states|
    ensures Tables(states[k])
  {
    if k > 0 {
      RunKeepsTables(states, steps, times, k - 1);
      StepKeepsTables(states[k - 1].(clock := times[k - 1]), steps[k - 1]);
    }
  }

  // ---------------------------------------------------------------- agreement

  /** No step up to `n` re-sends an issue that is in the archive. */
  ghost predicate NeverResends(states: seq<Store>, steps: seq<Step>, times: seq<Time>, n: nat)
    requires IsRun(states, steps, times) && n <= |steps|
  {
    forall k {:trigger steps[k]} :: 0 <= k < n ==> !ResendsArchived(states[k].(clock := times[k]), steps[k])
  }

  lemma ClockIsInvisible(st: Store, now: Time, w: Id, u: Id, key: Key)
    ensures AgreesOn(st.(clock := now), w, u, key) <==> AgreesOn(st, w, u, key)
    ensures ServerRow(st.(clock := now), w, u, key) == ServerRow(st, w, u, key)
  {
  }

  // ---------------------------------------------------------------- agreement row by row, over any run

  lemma InDeleteEntries(st: Store, step: Step, k: nat)
    requires step.DeleteIssue? && Allowed(st, step) && step.id in st.issues && k < |DeleteEntries(st, step)|
    ensures DeleteEntries(st, step)[k].key.kind.IssueKind? ==> DeleteEntries(st, step)[k].key.id == step.id
  {
  }

  lemma NewEntries(st: Store, st': Store, es: seq<Entry>, more: seq<Entry>)
    requires st'.log == st.log + es && st'.log == st.log + more
    ensures es == more
  {
    assert es == st'.log[|st.log|..];
    assert more == st'.log[|st.log|..];
  }

  lemma UpdateTouched(st: Store, step: Step, es: seq<Entry>, k: nat, w: Id, u: Id, x: Id)
    requires step.UpdateIssue? && Allowed(st, step) && Apply(st, step).log == st.log + es && Touches(es, k, w, u, Key(IssueKind, x))
    requires Archived(st, x) && Archived(Apply(st, step), x)
    ensures Key(IssueKind, x) in Resent(st, step, w)
  {
    if UpdateIssueTx(st, step.id, step.updates, step.blocked).1.Done? {
      UpdateLog(st, step.id, step.updates, step.blocked);
      NewEntries(st, Apply(st, step), es, UpdateEntries(st, Apply(st, step), step.id, step.blocked));
      InUpdateEntries(st, Apply(st, step), step.id, step.blocked, k);
      hide UpdateEntries, BlockedEntries, ChangeEntries, IsBlocked, NextNumber;
    } else {
      NewEntries(st, st, es, []);
    }
  }

  lemma DeleteTouched(st: Store, step: Step, es: seq<Entry>, k: nat, w: Id, u: Id, x: Id)
    requires step.DeleteIssue? && Allowed(st, step) && Apply(st, step).log == st.log + es && Touches(es, k, w, u, Key(IssueKind, x))
    ensures x !in Apply(st, step).issues
  {
    ListedRows(st, step);
    if step.id in st.issues {
      NewEntries(st, Apply(st, step), es, DeleteEntries(st, step));
      InDeleteEntries(st, step, k);
    } else {
      NewEntries(st, st, es, []);
    }
  }

  lemma CommentsWriteComments(st: Store, step: Step, es: seq<Entry>, k: nat)
    requires Allowed(st, step) && Apply(st, step).log == st.log + es && k < |es|
    requires step.CreateComment? || step.EditComment? || step.DeleteComment?
    ensures es[k].key.kind.CommentKind?
  {
    assert es == Apply(st, step).log[|st.log|..];
    hide Unused;
  }

  lemma AddedFavoriteEntry(st: Store, f: Id, user: Id, w: Id, target: Target, es: seq<Entry>, k: nat)
    requires AddFavoriteTx(st, f, user, w, target).log == st.log + es && k < |es|
    ensures es[k].key.kind.FavoriteKind?
  {
    var after := AddFavoriteTx(st, f, user, w, target);
    var found := FindFavorite(st, user, w, target);
    assert after.log == st.log + [FavoriteEntry(after, if found.Some? then found.value else f, Insert)];
    assert es[k] == after.log[|st.log| + k];
    hide AddFavoriteTx, FindFavorite;
  }

  lemma RemovedFavoriteEntry(st: Store, user: Id, w: Id, target: Target, es: seq<Entry>, k: nat)
    requires RemoveFavoriteTx(st, user, w, target).log == st.log + es && k < |es|
    ensures es[k].key.kind.FavoriteKind?
  {
    assert es == RemoveFavoriteTx(st, user, w, target).log[|st.log|..];
  }

  lemma FavoritesWriteFavorites(st: Store, step: Step, es: seq<Entry>, k: nat)
    requires Allowed(st, step) && Apply(st, step).log == st.log + es && k < |es|
    requires step.AddFavorite? || step.RemoveFavorite?
    ensures es[k].key.kind.FavoriteKind?
  {
    hide Unused, AddFavoriteTx, RemoveFavoriteTx;
    match step
    case AddFavorite(f, user, w, target) => AddedFavoriteEntry(st, f, user, w, target, es, k);
    case RemoveFavorite(user, w, target) => RemovedFavoriteEntry(st, user, w, target, es, k);
  }

  lemma OthersWriteTheirs(st: Store, step: Step, es: seq<Entry>, k: nat)
    requires Allowed(st, step) && Apply(st, step).log == st.log + es && k < |es|
    requires step.Notify? || step.Relate? || step.Unrelate?
    ensures es[k].key.kind.NotificationKind? || es[k].key.kind.RelationKind?
  {
    assert es == Apply(st, step).log[|st.log|..];
    hide Unused;
  }

  lemma ChangesWriteNotifications(st: Store, step: Step, es: seq<Entry>, k: nat)
    requires Allowed(st, step) && Apply(st, step).log == st.log + es && k < |es|
    requires step.MarkRead? || step.ChangeNotifications?
    ensures es[k].key.kind.NotificationKind?
  {
    assert es == Apply(st, step).log[|st.log|..];
    hide Lists, Changed, Affected;
    if step.ChangeNotifications? { ListedRows(st, step); }
  }

  /** Steps on other tables write no entry about an issue. */
  lemma NoIssueEntry(st: Store, step: Step, es: seq<Entry>, k: nat)
    requires Allowed(st, step) && ElsewhereThanIssues(step) && Apply(st, step).log == st.log + es && k < |es|
    ensures !es[k].key.kind.IssueKind?
  {
    if step.MarkRead? || step.ChangeNotifications? {
      ChangesWriteNotifications(st, step, es, k);
    } else if step.CreateComment? || step.EditComment? || step.DeleteComment? {
      CommentsWriteComments(st, step, es, k);
    } else if step.AddFavorite? || step.RemoveFavorite? {
      FavoritesWriteFavorites(st, step, es, k);
    } else {
      OthersWriteTheirs(st, step, es, k);
    }
  }

  lemma OtherTouched(st: Store, step: Step, es: seq<Entry>, k: nat, w: Id, u: Id, x: Id)
    requires Allowed(st, step) && Apply(st, step).log == st.log + es && Touches(es, k, w, u, Key(IssueKind, x))
    requires Archived(st, x) && Archived(Apply(st, step), x) && !step.UpdateIssue? && !step.DeleteIssue?
    ensures Key(IssueKind, x) in Resent(st, step, w)
  {
    if ElsewhereThanIssues(step) {
      NoIssueEntry(st, step, es, k);
    } else {
      assert es == Apply(st, step).log[|st.log|..];
      hide NextNumber, IsBlocked, Lists;
    }
  }

  /** An entry about an issue that is archived before and after is a re-send. */
  lemma TouchedWhileArchived(st: Store, step: Step, es: seq<Entry>, k: nat, w: Id, u: Id, x: Id)
    requires Allowed(st, step) && Apply(st, step).log == st.log + es && Touches(es, k, w, u, Key(IssueKind, x))
    requires Archived(st, x) && Archived(Apply(st, step), x)
    ensures Key(IssueKind, x) in Resent(st, step, w)
  {
    match step
    case UpdateIssue(_, _, _) => UpdateTouched(st, step, es, k, w, u, x);
    case DeleteIssue(_, _, _, _, _) => DeleteTouched(st, step, es, k, w, u, x);
    case _ => OtherTouched(st, step, es, k, w, u, x);
  }

  lemma UpdateTouches(st: Store, step: Step, es: seq<Entry>, w: Id, u: Id, x: Id)
    requires step.UpdateIssue? && Allowed(st, step) && Apply(st, step).log == st.log + es
    requires ArchivedIn(st, x, w) && !ArchivedIn(Apply(st, step), x, w)
    ensures exists k: nat :: Touches(es, k, w, u, Key(IssueKind, x))
  {
    var st' := Apply(st, step);
    assert UpdateIssueTx(st, step.id, step.updates, step.blocked).1.Done?;
    UpdateTouchesOneIssue(st, step.id, step.updates, step.blocked);
    UpdateLog(st, step.id, step.updates, step.blocked);
    NewEntries(st, st', es, UpdateEntries(st, st', step.id, step.blocked));
    hide UpdateIssueTx, IsBlocked, BlockedEntries, ChangeEntries, Allowed;
    assert Touches(es, 0, w, u, Key(IssueKind, x));
  }

  /** An issue that leaves the archive, by whatever step, is announced to its workspace. */
  lemma UnarchivedIsTouched(st: Store, step: Step, es: seq<Entry>, w: Id, u: Id, x: Id)
    requires Allowed(st, step) && Apply(st, step).log == st.log + es
    requires ArchivedIn(st, x, w) && !ArchivedIn(Apply(st, step), x, w)
    ensures exists k: nat :: Touches(es, k, w, u, Key(IssueKind, x))
  {
    if step.UpdateIssue? {
      UpdateTouches(st, step, es, w, u, x);
    } else if ElsewhereThanIssues(step) {
      OtherStepsLeaveIssues(st, step);
      hide Apply, Allowed;
    } else {
      assert es == Apply(st, step).log[|st.log|..];
      hide NextNumber, IsBlocked, Lists;
      if step.DeleteIssue? { ListedRows(st, step); }
      assert Touches(es, 0, w, u, Key(IssueKind, x));
    }
  }

  ghost predicate StaysArchived(states: seq<Store>, x: Id, w: Id, from: nat, n: nat)
    requires n < |states|
  {
    forall m :: from <= m <= n ==> ArchivedIn(states[m], x, w)
  }

  predicate ResentAt(states: seq<Store>, steps: seq<Step>, times: seq<Time>, j: nat, w: Id, x: Id)
    requires |states| == |steps| + 1 == |times| + 1 && j < |steps|
  {
    Key(IssueKind, x) in Resent(states[j].(clock := times[j]), steps[j], w)
  }

  /** Issue `x` was sent to its workspace `w` while it was archived, and has been archived ever since. */
  ghost predicate ResentSinceArchived(states: seq<Store>, steps: seq<Step>, times: seq<Time>, n: nat, w: Id, x: Id)
    requires |states| == |steps| + 1 == |times| + 1 && n <= |steps|
  {
    exists j: nat :: j < n && ResentAt(states, steps, times, j, w, x) && StaysArchived(states, x, w, j + 1, n)
  }

  lemma ResentNow(states: seq<Store>, steps: seq<Step>, times: seq<Time>, n: nat, w: Id, key: Key)
    requires |states| == |steps| + 1 == |times| + 1 && 0 < n <= |steps|
    requires key.kind.IssueKind? && key in Resent(states[n - 1].(clock := times[n - 1]), steps[n - 1], w) && ArchivedIn(states[n], key.id, w)
    ensures ResentSinceArchived(states, steps, times, n, w, key.id)
  {
    assert key == Key(IssueKind, key.id);
    hide Resent;
    assert ResentAt(states, steps, times, n - 1, w, key.id) && StaysArchived(states, key.id, w, n, n);
  }

  /** Without a re-send in the last step, having been re-sent is having been re-sent before and still being archived. */
  lemma ResentBefore(states: seq<Store>, steps: seq<Step>, times: seq<Time>, n: nat, w: Id, x: Id)
    requires |states| == |steps| + 1 == |times| + 1 && 0 < n <= |steps|
    requires !ResentAt(states, steps, times, n - 1, w, x)
    ensures ResentSinceArchived(states, steps, times, n, w, x)
            <==> ResentSinceArchived(states, steps, times, n - 1, w, x) && ArchivedIn(states[n], x, w)
    ensures ResentSinceArchived(states, steps, times, n - 1, w, x) ==> ArchivedIn(states[n - 1], x, w)
  {
    hide ResentAt;
    if ResentSinceArchived(states, steps, times, n - 1, w, x) {
      var j: nat :| j < n - 1 && ResentAt(states, steps, times, j, w, x) && StaysArchived(states, x, w, j + 1, n - 1);
      assert StaysArchived(states, x, w, j + 1, n - 1) && ArchivedIn(states[n - 1], x, w);
      if ArchivedIn(states[n], x, w) { assert StaysArchived(states, x, w, j + 1, n); }
    }
    if ResentSinceArchived(states, steps, times, n, w, x) {
      var j: nat :| j < n && ResentAt(states, steps, times, j, w, x) && StaysArchived(states, x, w, j + 1, n);
      assert StaysArchived(states, x, w, j + 1, n) && ArchivedIn(states[n], x, w);
      assert j < n - 1 && StaysArchived(states, x, w, j + 1, n - 1);
    }
  }

  lemma RowStep(states: seq<Store>, steps: seq<Step>, times: seq<Time>, n: nat, w: Id, u: Id, key: Key, es: seq<Entry>)
    requires |states| == |steps| + 1 == |times| + 1 && 0 < n <= |steps|
    requires Stepped(states[n - 1], steps[n - 1], times[n - 1], states[n])
    requires var before := states[n - 1].(clock := times[n - 1]);
             && key !in Resent(before, steps[n - 1], w)
             && Announced(before, states[n], es, w, u, Resent(before, steps[n - 1], w))
    ensures var wasResent := key.kind.IssueKind? && ResentSinceArchived(states, steps, times, n - 1, w, key.id);
            var isResent := key.kind.IssueKind? && ResentSinceArchived(states, steps, times, n, w, key.id);
            if exists k: nat :: Touches(es, k, w, u, key) then AgreesOn(states[n], w, u, key) && !isResent
            else (AgreesOn(states[n], w, u, key) <==> AgreesOn(states[n - 1], w, u, key)) && wasResent == isResent
  {
    var before, step := states[n - 1].(clock := times[n - 1]), steps[n - 1];
    ClockIsInvisible(states[n - 1], times[n - 1], w, u, key);
    if k: nat :| Touches(es, k, w, u, key) {
      RowTouched(before, states[n], es, w, u, Resent(before, step, w), key);
      if key.kind.IssueKind? && Archived(before, key.id) && Archived(states[n], key.id) {
        assert key == Key(IssueKind, key.id);
        TouchedWhileArchived(before, step, es, k, w, u, key.id);
      }
      hide Resent, Apply, Allowed, AgreesOn;
      if key.kind.IssueKind? { ResentBefore(states, steps, times, n, w, key.id); }
    } else {
      RowUntouched(before, states[n], es, w, u, Resent(before, step, w), key);
      if key.kind.IssueKind? && ArchivedIn(before, key.id, w) && !ArchivedIn(states[n], key.id, w) {
        assert key == Key(IssueKind, key.id);
        UnarchivedIsTouched(before, step, es, w, u, key.id);
      }
      hide Resent, Apply, Allowed, AgreesOn;
      if key.kind.IssueKind? { ResentBefore(states, steps, times, n, w, key.id); }
    }
  }

  /** Every run, at its end, row by row: what a member's replay holds of a row is what the server holds, unless the
      row is an issue that was sent while it was archived and has been archived since. Any step that takes it out of
      the archive or deletes it heals the row. */
  lemma {:induction false} RowAgreesExactly(states: seq<Store>, steps: seq<Step>, times: seq<Time>, n: nat, w: Id, u: Id, key: Key)
    requires IsRun(states, steps, times) && n < |states|
    ensures AgreesOn(states[n], w, u, key)
            <==> !(key.kind.IssueKind? && ResentSinceArchived(states, steps, times, n, w, key.id))
  {
    if n > 0 {
      RowAgreesExactly(states, steps, times, n - 1, w, u, key);
      RunKeepsTables(states, steps, times, n - 1);
      ClockIsInvisible(states[n - 1], times[n - 1], w, u, key);
      assert Stepped(states[n - 1], steps[n - 1], times[n - 1], states[n]);
      var before, step := states[n - 1].(clock := times[n - 1]), steps[n - 1];
      hide IsRun, AgreesOn, Apply, Allowed, Tables, Resent;
      if key in Resent(before, step, w) {
        ResentDisagrees(before, step, key, w, u);
        ResentNow(states, steps, times, n, w, key);
      } else {
        StepTells(before, step, w, u);
        var es :| Announced(before, states[n], es, w, u, Resent(before, step, w));
        hide Announced;
        RowStep(states, steps, times, n, w, u, key, es);
      }
    }
  }

  // ---------------------------------------------------------------- runs that never re-send

  /** Over every run of issue, comment, notification, favorite and archive operations in which no archived issue
      is re-sent, every member's replay of what they may see is exactly what the server holds for them: the
      unarchived issues and the comments of the workspace, row for row, and their own notifications and
      favorites with their read and deleted state. */
  lemma ReplayAgrees(states: seq<Store>, steps: seq<Step>, times: seq<Time>, k: nat, w: Id, u: Id)
    requires IsRun(states, steps, times) && k < |states| && NeverResends(states, steps, times, k)
    ensures Agrees(states[k], w, u)
  {
    forall key ensures AgreesOn(states[k], w, u, key) {
      RowAgreesExactly(states, steps, times, k, w, u, key);
      hide IsRun, AgreesOn;
      if key.kind.IssueKind? && ResentSinceArchived(states, steps, times, k, w, key.id) {
        var j: nat :| j < k && ResentAt(states, steps, times, j, w, key.id) && StaysArchived(states, key.id, w, j + 1, k);
        assert ResentAt(states, steps, times, j, w, key.id);
        ResentNothing(states[j].(clock := times[j]), steps[j], w);
      }
    }
  }

  // ---------------------------------------------------------------- privacy

  /** The one member a private row belongs to, as an entry's own payload tells it. */
  function OwnerIn(p: Payload): Option<Id> {
    match p
    case NotificationData(n) => Some(n.user)
    case FavoriteData(f) => Some(f.user)
    case _ => None
  }

  function OwnerNow(st: Store, key: Key): Option<Id> {
    if key.kind == NotificationKind && key.id in st.notifications then Some(st.notifications[key.id].user)
    else if key.kind == FavoriteKind && key.id in st.favorites then Some(st.favorites[key.id].user)
    else None
  }

  predicate Private(kind: Kind) {
    kind == NotificationKind || kind == FavoriteKind
  }

  /** An entry about a private row is addressed to one member: its owner, now and in the payload. */
  ghost predicate WellAddressed(st: Store, e: Entry) {
    Private(e.key.kind) ==>
      && e.audience.Some?
      && (e.data.Some? ==> OwnerIn(e.data.value) == e.audience)
      && (OwnerNow(st, e.key).Some? ==> OwnerNow(st, e.key) == e.audience)
  }

  ghost predicate LogIsPrivate(st: Store) {
    forall k {:trigger st.log[k]} :: 0 <= k < |st.log| ==> WellAddressed(st, st.log[k])
  }

  /** What a step appends, and that it never hands a private row to someone else. */
  lemma PrivateBatch(st: Store, st': Store, es: seq<Entry>)
    requires LogIsPrivate(st) && st'.log == st.log + es
    requires forall k {:trigger es[k]} :: 0 <= k < |es| ==> WellAddressed(st', es[k])
    requires forall k {:trigger st.log[k]} :: 0 <= k < |st.log| && OwnerNow(st', st.log[k].key).Some? ==>
               OwnerNow(st', st.log[k].key) == OwnerNow(st, st.log[k].key)
    ensures LogIsPrivate(st')
  {
    forall k {:trigger st'.log[k]} | 0 <= k < |st'.log| ensures WellAddressed(st', st'.log[k]) {
      if k < |st.log| { assert st'.log[k] == st.log[k]; } else { assert st'.log[k] == es[k - |st.log|]; }
    }
  }

  lemma UpdateIsPrivate(st: Store, i: Id, u: Updates, blocked: seq<Id>)
    requires LogIsPrivate(st)
    ensures LogIsPrivate(UpdateIssueTx(st, i, u, blocked).0)
  {
    if !UpdateIssueTx(st, i, u, blocked).1.Done? { return; }
    var st' := UpdateIssueTx(st, i, u, blocked).0;
    var es := UpdateEntries(st, st', i, blocked);
    UpdateLog(st, i, u, blocked);
    forall k {:trigger es[k]} | 0 <= k < |es| ensures WellAddressed(st', es[k]) { InUpdateEntries(st, st', i, blocked, k); }
    PrivateBatch(st, st', es);
  }

  lemma DeleteIsPrivate(st: Store, step: Step)
    requires LogIsPrivate(st) && Allowed(st, step) && step.DeleteIssue?
    ensures LogIsPrivate(Apply(st, step))
  {
    ListedRows(st, step);
    if step.id !in st.issues { return; }
    var st' := Apply(st, step);
    var es := DeleteEntries(st, step);
    forall k {:trigger es[k]} | 0 <= k < |es| ensures WellAddressed(st', es[k]) {}
    PrivateBatch(st, st', es);
  }

  lemma ChangeIsPrivate(st: Store, user: Id, change: Change, ids: seq<Id>)
    requires LogIsPrivate(st) && forall n :: n in ids ==> n in st.notifications && st.notifications[n].user == user
    ensures LogIsPrivate(ChangeTx(st, user, change, ids))
  {
    var st' := ChangeTx(st, user, change, ids);
    PrivateBatch(st, st', NotificationEntries(st', user, ids));
  }

  lemma OneEntryIsPrivate(st: Store, st': Store, e: Entry)
    requires LogIsPrivate(st) && st'.log == st.log + [e] && WellAddressed(st', e)
    requires forall k {:trigger st.log[k]} :: 0 <= k < |st.log| && OwnerNow(st', st.log[k].key).Some? ==>
               OwnerNow(st', st.log[k].key) == OwnerNow(st, st.log[k].key)
    ensures LogIsPrivate(st')
  {
    PrivateBatch(st, st', [e]);
  }

  lemma NotifyIsPrivate(st: Store, n: Id, i: Id, user: Id)
    requires LogIsPrivate(st) && Unused(st, Key(NotificationKind, n))
    ensures LogIsPrivate(NotifyTx(st, n, i, user).0)
  {
    var (st', outcome) := NotifyTx(st, n, i, user);
    if outcome.Done? { OneEntryIsPrivate(st, st', NotificationEntry(st', n, user, Insert)); }
  }

  lemma AddFavoriteIsPrivate(st: Store, f: Id, user: Id, workspace: Id, target: Target)
    requires LogIsPrivate(st) && Unused(st, Key(FavoriteKind, f))
    ensures LogIsPrivate(AddFavoriteTx(st, f, user, workspace, target))
  {
    var found := FindFavorite(st, user, workspace, target);
    var st' := AddFavoriteTx(st, f, user, workspace, target);
    OneEntryIsPrivate(st, st', FavoriteEntry(st', if found.Some? then found.value else f, Insert));
  }

  lemma RemoveFavoriteIsPrivate(st: Store, user: Id, workspace: Id, target: Target)
    requires LogIsPrivate(st)
    ensures LogIsPrivate(RemoveFavoriteTx(st, user, workspace, target))
  {
    var found := FindFavorite(st, user, workspace, target);
    if found.Some? {
      OneEntryIsPrivate(st, RemoveFavoriteTx(st, user, workspace, target), Gone(FavoriteKind, found.value, workspace, Some(user)));
    }
  }

  lemma SharedIsPrivate(st: Store, st': Store)
    requires LogIsPrivate(st) && st'.notifications == st.notifications && st'.favorites == st.favorites
    requires st'.log == st.log || exists e :: st'.log == st.log + [e] && !Private(e.key.kind)
    ensures LogIsPrivate(st')
  {
    if st'.log == st.log {
      assert st.log + [] == st.log;
      PrivateBatch(st, st', []);
    } else {
      var e :| st'.log == st.log + [e] && !Private(e.key.kind);
      PrivateBatch(st, st', [e]);
    }
  }

  /** The entry a step appends when it is about a row the whole workspace sees. */
  lemma SharedStepAppends(st: Store, step: Step)
    requires Allowed(st, step)
    requires step.CreateIssue? || step.SetLabels? || step.SetSortOrder? || step.Archive? || step.CreateComment?
             || step.EditComment? || step.DeleteComment? || step.Relate? || step.Unrelate?
    ensures var st' := Apply(st, step);
            && st'.notifications == st.notifications && st'.favorites == st.favorites
            && (st'.log == st.log || exists e :: st'.log == st.log + [e] && !Private(e.key.kind))
  {
    hide Lists, Unused, NextNumber, IsBlocked, Selected;
    var st' := Apply(st, step);
    if st' != st { assert st'.log == st.log + [st'.log[|st.log|]]; }
  }

  lemma SharedStepIsPrivate(st: Store, step: Step)
    requires LogIsPrivate(st) && Allowed(st, step)
    requires step.CreateIssue? || step.SetLabels? || step.SetSortOrder? || step.Archive? || step.CreateComment?
             || step.EditComment? || step.DeleteComment? || step.Relate? || step.Unrelate?
    ensures LogIsPrivate(Apply(st, step))
  {
    hide Apply, Allowed;
    SharedStepAppends(st, step);
    SharedIsPrivate(st, Apply(st, step));
  }

  lemma StepIsPrivate(st: Store, step: Step)
    requires LogIsPrivate(st) && Allowed(st, step)
    ensures LogIsPrivate(Apply(st, step))
  {
    hide LogIsPrivate, Lists, CreateIssueTx, UpdateIssueTx, DeleteIssueTx, Rewritten, ArchiveTx, CreateCommentTx, EditCommentTx,
      DeleteCommentTx, NotifyTx, ChangeTx, AddFavoriteTx, RemoveFavoriteTx, UnrelateTx;
    match step
    case UpdateIssue(i, u, blocked) => UpdateIsPrivate(st, i, u, blocked);
    case DeleteIssue(_, _, _, _, _) => DeleteIsPrivate(st, step);
    case ChangeNotifications(user, change, _, affected) =>
      ListedRows(st, step);
      ChangeIsPrivate(st, user, change, affected);
    case MarkRead(n, user) => if MarkReadTx(st, n, user).1.Done? { ChangeIsPrivate(st, user, Read, [n]); }
    case Notify(n, i, user) => NotifyIsPrivate(st, n, i, user);
    case AddFavorite(f, user, w, target) => AddFavoriteIsPrivate(st, f, user, w, target);
    case RemoveFavorite(user, w, target) => RemoveFavoriteIsPrivate(st, user, w, target);
    case _ => SharedStepIsPrivate(st, step);
  }

  lemma {:induction false} RunIsPrivate(states: seq<Store>, steps: seq<Step>, times: seq<Time>, k: nat)
    requires IsRun(states, steps, times) && k < |states|
    ensures LogIsPrivate(states[k])
  {
    if k > 0 {
      var before := states[k - 1].(clock := times[k - 1]);
      RunIsPrivate(states, steps, times, k - 1);
      assert LogIsPrivate(before) by {
        forall j {:trigger before.log[j]} | 0 <= j < |before.log| ensures WellAddressed(before, before.log[j]) {
          assert WellAddressed(states[k - 1], states[k - 1].log[j]);
        }
      }
      StepIsPrivate(before, steps[k - 1]);
    }
  }

  /** In every run, an entry about a notification or a favorite is visible to its owner and to nobody else. */
  lemma PrivateRowsStayPrivate(states: seq<Store>, steps: seq<Step>, times: seq<Time>, k: nat, j: nat, w: Id, u: Id)
    requires IsRun(states, steps, times) && k < |states| && j < |states[k].log|
    requires Private(states[k].log[j].key.kind) && Visible(states[k].log[j], w, u)
    ensures states[k].log[j].audience == Some(u)
    ensures states[k].log[j].data.Some? ==> OwnerIn(states[k].log[j].data.value) == Some(u)
    ensures OwnerNow(states[k], states[k].log[j].key).Some? ==> OwnerNow(states[k], states[k].log[j].key) == Some(u)
  {
    RunIsPrivate(states, steps, times, k);
    assert WellAddressed(states[k], states[k].log[j]);
  }
}
