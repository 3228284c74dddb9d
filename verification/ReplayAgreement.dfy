/** The log tells clients the truth: replaying the entries a user may see gives the server's rows. */
module ReplayAgreement {
  import opened Listing
  import opened Wire
  import opened IssueStore
  import opened Replay

  ghost predicate CommentsLinked(comments: map<Id, Comment>, issues: map<Id, Issue>) {
    forall c {:trigger comments[c]} :: c in comments ==> comments[c].issue in issues
  }

  ghost predicate RelationsLinked(relations: map<Id, Relation>, issues: map<Id, Issue>) {
    forall r {:trigger relations[r]} :: r in relations ==>
      && relations[r].source in issues && relations[r].target in issues
      && issues[relations[r].source].workspace == issues[relations[r].target].workspace
  }

  ghost predicate NotificationsLinked(notifications: map<Id, Notification>, issues: map<Id, Issue>) {
    forall n {:trigger notifications[n]} :: n in notifications ==>
      notifications[n].issue in issues && notifications[n].workspace == issues[notifications[n].issue].workspace
  }

  /** What the foreign keys and the unique index on favorites keep. */
  ghost predicate Tables(st: Store) {
    && CommentsLinked(st.comments, st.issues) && RelationsLinked(st.relations, st.issues)
    && NotificationsLinked(st.notifications, st.issues) && UniqueFavorites(st.favorites)
  }

  predicate Archived(st: Store, i: Id) {
    i in st.issues && st.issues[i].archivedAt.Some?
  }

  /** The two operations that send an issue without having taken it out of the archive: relabelling it, and a
      status update of an issue that blocks it. */
  predicate ResendsArchived(st: Store, step: Step) {
    match step
    case SetLabels(i, _) => i in st.issues && st.issues[i].archivedAt.Some?
    case UpdateIssue(i, u, blocked) =>
      i in st.issues && GoodUpdates(st, u)
      && exists k :: 0 <= k < |blocked| && blocked[k] != i && Archived(st, blocked[k])
    case _ => false
  }

  predicate ArchivedIn(st: Store, i: Id, w: Id) {
    Archived(st, i) && st.issues[i].workspace == w
  }

  /** The archived issues of workspace `w` that a step sends. */
  function Resent(st: Store, step: Step, w: Id): set<Key> {
    match step
    case SetLabels(i, _) => if ArchivedIn(st, i, w) then {Key(IssueKind, i)} else {}
    case UpdateIssue(i, u, blocked) =>
      if i in st.issues && GoodUpdates(st, u) && st.issues[i].workspace == w
      then set x | x in blocked && x != i && Archived(st, x) :: Key(IssueKind, x) else {}
    case _ => {}
  }

  /** Some batch of entries announces what happened, truthfully except about rows in `but`. */
  ghost predicate Tells(st: Store, st': Store, w: Id, u: Id, but: set<Key>) {
    exists es {:trigger Announced(st, st', es, w, u, but)} :: Announced(st, st', es, w, u, but)
  }

  lemma TellsAgrees(st: Store, st': Store, w: Id, u: Id)
    requires Agrees(st, w, u) && Tells(st, st', w, u, {})
    ensures Agrees(st', w, u)
  {
    var es :| Announced(st, st', es, w, u, {});
    BatchAgrees(st, st', es, w, u);
  }

  lemma NothingTells(st: Store, w: Id, u: Id)
    ensures Tells(st, st, w, u, {})
  {
    assert st.log + [] == st.log;
    assert Announced(st, st, [], w, u, {});
  }

  // ---------------------------------------------------------------- operations that announce one row

  lemma OneEntry(st: Store, st': Store, e: Entry, w: Id, u: Id, but: set<Key>)
    requires st'.log == st.log + [e] && Effective(e)
    requires Visible(e, w, u) && Cached(e.key.kind) && e.key !in but ==> EffectRow(e) == ServerRow(st', w, u, e.key)
    requires forall key {:trigger ServerRow(st', w, u, key)} ::
               ServerRow(st', w, u, key) != ServerRow(st, w, u, key) ==> key == e.key && Visible(e, w, u)
    ensures Tells(st, st', w, u, but)
  {
    assert Complete(st, st', [e], w, u) by {
      forall key {:trigger ServerRow(st', w, u, key)} | ServerRow(st', w, u, key) != ServerRow(st, w, u, key)
        ensures exists k: nat :: Touches([e], k, w, u, key)
      {
        assert Touches([e], 0, w, u, key);
      }
    }
    assert Announced(st, st', [e], w, u, but);
  }

  lemma CreateIssueTells(st: Store, i: Id, workspace: Id, team: Id, content: Text, labels: set<Id>, w: Id, u: Id)
    requires Tables(st) && Unused(st, Key(IssueKind, i))
    ensures Tells(st, CreateIssueTx(st, i, workspace, team, content, labels).0, w, u, {})
  {
    var (st', outcome) := CreateIssueTx(st, i, workspace, team, content, labels);
    if outcome.Done? {
      OneEntry(st, st', IssueEntry(st', i, workspace, Insert), w, u, {});
    } else {
      NothingTells(st, w, u);
    }
  }

  /** An issue sent after a change; what is said of it is wrong only if it is still archived. */
  lemma RewrittenTells(st: Store, i: Id, x: Issue, w: Id, u: Id)
    requires Tables(st) && i in st.issues && x.workspace == st.issues[i].workspace
    requires x.archivedAt.Some? ==> Archived(st, i)
    ensures Tells(st, Rewritten(st, i, x), w, u, if x.archivedAt.Some? && x.workspace == w then {Key(IssueKind, i)} else {})
  {
    var st' := Rewritten(st, i, x);
    OneEntry(st, st', IssueEntry(st', i, x.workspace, Update), w, u,
             if x.archivedAt.Some? && x.workspace == w then {Key(IssueKind, i)} else {});
  }

  lemma ArchiveTells(st: Store, i: Id, w: Id, u: Id)
    requires Tables(st) && i in st.issues
    ensures Tells(st, ArchiveTx(st, i), w, u, {})
  {
    OneEntry(st, ArchiveTx(st, i), Gone(IssueKind, i, st.issues[i].workspace, None), w, u, {});
  }

  lemma CreateCommentTells(st: Store, c: Id, i: Id, author: Id, body: Text, w: Id, u: Id)
    requires Unused(st, Key(CommentKind, c))
    ensures Tells(st, CreateCommentTx(st, c, i, author, body).0, w, u, {})
  {
    var (st', outcome) := CreateCommentTx(st, c, i, author, body);
    NothingTells(st, w, u);
    if outcome.Done? { OneEntry(st, st', CommentEntry(st', c, st.issues[i].workspace, Insert), w, u, {}); }
  }

  lemma EditCommentTells(st: Store, c: Id, user: Id, body: Text, w: Id, u: Id)
    ensures Tells(st, EditCommentTx(st, c, user, body).0, w, u, {})
  {
    var (st', outcome) := EditCommentTx(st, c, user, body);
    NothingTells(st, w, u);
    if outcome.Done? { OneEntry(st, st', CommentEntry(st', c, st.issues[st.comments[c].issue].workspace, Update), w, u, {}); }
  }

  lemma DeleteCommentTells(st: Store, c: Id, user: Id, w: Id, u: Id)
    ensures Tells(st, DeleteCommentTx(st, c, user).0, w, u, {})
  {
    var (st', outcome) := DeleteCommentTx(st, c, user);
    NothingTells(st, w, u);
    if outcome.Done? { OneEntry(st, st', Gone(CommentKind, c, st.issues[st.comments[c].issue].workspace, None), w, u, {}); }
  }

  lemma NotifyTells(st: Store, n: Id, i: Id, user: Id, w: Id, u: Id)
    requires Unused(st, Key(NotificationKind, n))
    ensures Tells(st, NotifyTx(st, n, i, user).0, w, u, {})
  {
    var (st', outcome) := NotifyTx(st, n, i, user);
    NothingTells(st, w, u);
    if outcome.Done? { OneEntry(st, st', NotificationEntry(st', n, user, Insert), w, u, {}); }
  }

  lemma AddFavoriteTells(st: Store, f: Id, user: Id, workspace: Id, target: Target, w: Id, u: Id)
    requires Unused(st, Key(FavoriteKind, f))
    ensures Tells(st, AddFavoriteTx(st, f, user, workspace, target), w, u, {})
  {
    var found := FindFavorite(st, user, workspace, target);
    var st' := AddFavoriteTx(st, f, user, workspace, target);
    OneEntry(st, st', FavoriteEntry(st', if found.Some? then found.value else f, Insert), w, u, {});
  }

  lemma RemoveFavoriteTells(st: Store, user: Id, workspace: Id, target: Target, w: Id, u: Id)
    ensures Tells(st, RemoveFavoriteTx(st, user, workspace, target), w, u, {})
  {
    var found := FindFavorite(st, user, workspace, target);
    NothingTells(st, w, u);
    if found.Some? {
      OneEntry(st, RemoveFavoriteTx(st, user, workspace, target), Gone(FavoriteKind, found.value, workspace, Some(user)), w, u, {});
    }
  }

  lemma RelationsTell(st: Store, step: Step, w: Id, u: Id)
    requires Allowed(st, step) && (step.Relate? || step.Unrelate?)
    ensures Tells(st, Apply(st, step), w, u, {})
  {
    var st' := Apply(st, step);
    NothingTells(st, w, u);
    if st'.log != st.log { OneEntry(st, st', st'.log[|st.log|], w, u, {}); }
  }

  // ---------------------------------------------------------------- batches

  lemma ChangeTells(st: Store, user: Id, change: Change, ids: seq<Id>, w: Id, u: Id)
    requires forall n :: n in ids ==> n in st.notifications && st.notifications[n].user == user
    ensures Tells(st, ChangeTx(st, user, change, ids), w, u, {})
  {
    var st' := ChangeTx(st, user, change, ids);
    var es := NotificationEntries(st', user, ids);
    assert Complete(st, st', es, w, u) by {
      forall key {:trigger ServerRow(st', w, u, key)} | ServerRow(st', w, u, key) != ServerRow(st, w, u, key)
        ensures exists k: nat :: Touches(es, k, w, u, key)
      {
        assert key.kind.NotificationKind? && key.id in ids;
        var k :| 0 <= k < |ids| && ids[k] == key.id;
        assert Touches(es, k, w, u, key);
      }
    }
    assert Announced(st, st', es, w, u, {});
  }

  lemma InBlockedEntries(st: Store, workspace: Id, blocked: seq<Id>, k: nat)
    requires k < |BlockedEntries(st, workspace, blocked)|
    ensures var e := BlockedEntries(st, workspace, blocked)[k];
            exists j :: 0 <= j < |blocked| && blocked[j] in st.issues && e == IssueEntry(st, blocked[j], workspace, Update)
  {
    var front := blocked[..|blocked| - 1];
    if k < |BlockedEntries(st, workspace, front)| {
      InBlockedEntries(st, workspace, front, k);
      var j :| 0 <= j < |front| && front[j] in st.issues
               && BlockedEntries(st, workspace, front)[k] == IssueEntry(st, front[j], workspace, Update);
      assert blocked[j] == front[j];
    } else {
      assert blocked[|blocked| - 1] in st.issues;
    }
  }

  lemma {:induction false} BlockedIsAnnounced(st: Store, workspace: Id, blocked: seq<Id>, j: nat) returns (k: nat)
    requires j < |blocked| && blocked[j] in st.issues
    ensures k < |BlockedEntries(st, workspace, blocked)|
    ensures BlockedEntries(st, workspace, blocked)[k] == IssueEntry(st, blocked[j], workspace, Update)
  {
    var front, last := blocked[..|blocked| - 1], blocked[|blocked| - 1];
    var before := BlockedEntries(st, workspace, front);
    var mine := if last in st.issues then [IssueEntry(st, last, workspace, Update)] else [];
    assert BlockedEntries(st, workspace, blocked) == before + mine;
    if j < |front| {
      assert front[j] == blocked[j];
      k := BlockedIsAnnounced(st, workspace, front, j);
    } else {
      k := |before|;
    }
  }

  /** The entries of an update: the issue itself, its activity, and the issues it blocks. */
  ghost function UpdateEntries(st: Store, st1: Store, i: Id, blocked: seq<Id>): seq<Entry>
    requires i in st.issues && i in st1.issues
  {
    var w := st.issues[i].workspace;
    [IssueEntry(st1, i, w, Update)] + ChangeEntries(StatusChanged(st.issues[i], st1.issues[i], i), w)
    + BlockedEntries(st1, w, blocked)
  }

  lemma InUpdateEntries(st: Store, st1: Store, i: Id, blocked: seq<Id>, k: nat)
    requires i in st.issues && i in st1.issues && k < |UpdateEntries(st, st1, i, blocked)|
    ensures var e := UpdateEntries(st, st1, i, blocked)[k];
            var w := st.issues[i].workspace;
            || (e.key.kind == ActivityKind && Effective(e))
            || e == IssueEntry(st1, i, w, Update)
            || exists j :: 0 <= j < |blocked| && blocked[j] in st1.issues && e == IssueEntry(st1, blocked[j], w, Update)
  {
    var w := st.issues[i].workspace;
    var activity := ChangeEntries(StatusChanged(st.issues[i], st1.issues[i], i), w);
    if k > |activity| { InBlockedEntries(st1, w, blocked, k - 1 - |activity|); }
  }

  lemma UpdateTruthful(st: Store, i: Id, u: Updates, blocked: seq<Id>, w: Id, user: Id)
    requires Allowed(st, UpdateIssue(i, u, blocked)) && i in st.issues && GoodUpdates(st, u)
    ensures var st' := UpdateIssueTx(st, i, u, blocked).0;
            Truthful(st', UpdateEntries(st, st', i, blocked), w, user, Resent(st, UpdateIssue(i, u, blocked), w))
  {
    var st' := UpdateIssueTx(st, i, u, blocked).0;
    var es := UpdateEntries(st, st', i, blocked);
    var but := Resent(st, UpdateIssue(i, u, blocked), w);
    forall k {:trigger es[k]} | 0 <= k < |es|
      ensures Effective(es[k])
      ensures Visible(es[k], w, user) && Cached(es[k].key.kind) && es[k].key !in but ==> EffectRow(es[k]) == ServerRow(st', w, user, es[k].key)
    {
      InUpdateEntries(st, st', i, blocked, k);
      if es[k].key.kind == IssueKind && es[k] != IssueEntry(st', i, st.issues[i].workspace, Update) {
        var j :| 0 <= j < |blocked| && blocked[j] in st'.issues && es[k] == IssueEntry(st', blocked[j], st.issues[i].workspace, Update);
        assert blocked[j] != i && blocked[j] in blocked;
        if w == st.issues[i].workspace && Archived(st, blocked[j]) { assert Key(IssueKind, blocked[j]) in but; }
      }
    }
  }

  lemma UpdateLog(st: Store, i: Id, u: Updates, blocked: seq<Id>)
    requires i in st.issues && GoodUpdates(st, u)
    ensures var st' := UpdateIssueTx(st, i, u, blocked).0;
            i in st'.issues && st'.log == st.log + UpdateEntries(st, st', i, blocked)
  {
    var y := Patched(st, st.issues[i], u);
    var st1 := st.(issues := st.issues[i := y], changes := st.changes + StatusChanged(st.issues[i], y, i));
    SameRowsSameEntries(st1, UpdateIssueTx(st, i, u, blocked).0, st.issues[i].workspace, blocked);
  }

  lemma UpdateComplete(st: Store, i: Id, u: Updates, blocked: seq<Id>, w: Id, user: Id)
    requires i in st.issues && GoodUpdates(st, u)
    ensures var st' := UpdateIssueTx(st, i, u, blocked).0;
            Complete(st, st', UpdateEntries(st, st', i, blocked), w, user)
  {
    var st' := UpdateIssueTx(st, i, u, blocked).0;
    var es := UpdateEntries(st, st', i, blocked);
    forall key {:trigger ServerRow(st', w, user, key)} | ServerRow(st', w, user, key) != ServerRow(st, w, user, key)
      ensures exists k: nat :: Touches(es, k, w, user, key)
    {
      assert key == Key(IssueKind, i);
      assert Touches(es, 0, w, user, key);
    }
  }

  lemma UpdateTells(st: Store, i: Id, u: Updates, blocked: seq<Id>, w: Id, user: Id)
    requires Allowed(st, UpdateIssue(i, u, blocked))
    ensures Tells(st, UpdateIssueTx(st, i, u, blocked).0, w, user, Resent(st, UpdateIssue(i, u, blocked), w))
  {
    var (st', outcome) := UpdateIssueTx(st, i, u, blocked);
    NothingTells(st, w, user);
    if outcome.Done? {
      UpdateTruthful(st, i, u, blocked, w, user);
      UpdateComplete(st, i, u, blocked, w, user);
      UpdateLog(st, i, u, blocked);
      assert Announced(st, st', UpdateEntries(st, st', i, blocked), w, user, Resent(st, UpdateIssue(i, u, blocked), w));
    }
  }

  // ---------------------------------------------------------------- deletion

  ghost function DeleteEntries(st: Store, step: Step): seq<Entry>
    requires step.DeleteIssue? && Allowed(st, step) && step.id in st.issues
  {
    ListedRows(st, step);
    var w := st.issues[step.id].workspace;
    [Gone(IssueKind, step.id, w, None)] + GoneEntries(CommentKind, step.comments, w)
    + GoneEntries(RelationKind, step.relations, w)
    + GoneNotifications(st, step.notifications, w) + GoneFavorites(st, step.favorites)
  }

  /** Each entry of a deletion says that a row is gone, and it is. */
  lemma DeletedIsGone(st: Store, step: Step, k: nat, w: Id, u: Id)
    requires step.DeleteIssue? && Allowed(st, step) && step.id in st.issues && k < |DeleteEntries(st, step)|
    ensures var e := DeleteEntries(st, step)[k];
            e.action.Delete? && (Cached(e.key.kind) ==> ServerRow(WithoutIssue(st, step.id), w, u, e.key) == None)
  {
    ListedRows(st, step);
    forall c | c in step.comments ensures c in CommentsOf(st, step.id) { Listed(step.comments, CommentsOf(st, step.id), c); }
    hide Lists;
  }

  lemma DeleteTruthful(st: Store, step: Step, w: Id, u: Id)
    requires step.DeleteIssue? && Allowed(st, step) && step.id in st.issues
    ensures Truthful(Apply(st, step), DeleteEntries(st, step), w, u, {})
  {
    var st', es := Apply(st, step), DeleteEntries(st, step);
    assert forall key :: ServerRow(st', w, u, key) == ServerRow(WithoutIssue(st, step.id), w, u, key);
    hide Apply, Allowed, WithoutIssue, ServerRow, DeleteEntries;
    forall k {:trigger es[k]} | 0 <= k < |es|
      ensures Effective(es[k]) && (Cached(es[k].key.kind) ==> EffectRow(es[k]) == ServerRow(st', w, u, es[k].key))
    {
      DeletedIsGone(st, step, k, w, u);
    }
  }

  /** Where in the batch the entry for a row that went with the issue stands. */
  lemma DeletedIsAnnounced(st: Store, step: Step, kind: Kind, ids: seq<Id>, j: nat) returns (k: nat)
    requires step.DeleteIssue? && Allowed(st, step) && step.id in st.issues && j < |ids|
    requires (kind == CommentKind && ids == step.comments) || (kind == NotificationKind && ids == step.notifications)
             || (kind == FavoriteKind && ids == step.favorites)
    ensures k < |DeleteEntries(st, step)|
    ensures var e := DeleteEntries(st, step)[k];
            && e.key == Key(kind, ids[j])
            && (kind == CommentKind ==> e.workspace == st.issues[step.id].workspace && e.audience.None?)
            && (kind == NotificationKind ==>
                  (ids[j] in st.notifications && e.workspace == st.issues[step.id].workspace
                   && e.audience == Some(st.notifications[ids[j]].user)))
            && (kind == FavoriteKind ==>
                  (ids[j] in st.favorites && e.workspace == st.favorites[ids[j]].workspace
                   && e.audience == Some(st.favorites[ids[j]].user)))
  {
    ListedRows(st, step);
    hide Allowed;
    var w := st.issues[step.id].workspace;
    var comments, relations := GoneEntries(CommentKind, step.comments, w), GoneEntries(RelationKind, step.relations, w);
    var notifications, favorites := GoneNotifications(st, step.notifications, w), GoneFavorites(st, step.favorites);
    match kind
    case CommentKind =>
      k := 1 + j;
      assert DeleteEntries(st, step)[k] == comments[j];
    case NotificationKind =>
      k := 1 + |comments| + |relations| + j;
      assert DeleteEntries(st, step)[k] == notifications[j];
    case FavoriteKind =>
      k := 1 + |comments| + |relations| + |notifications| + j;
      assert DeleteEntries(st, step)[k] == favorites[j];
  }

  /** What a deletion changes for clients is the issue and what went with it. */
  lemma DeleteChanges(st: Store, step: Step, w: Id, u: Id, key: Key)
    requires step.DeleteIssue? && Allowed(st, step) && step.id in st.issues
    requires ServerRow(Apply(st, step), w, u, key) != ServerRow(st, w, u, key)
    ensures match key.kind
            case IssueKind => key.id == step.id
            case CommentKind => key.id in CommentsOf(st, step.id)
            case NotificationKind => key.id in NotificationsOf(st, step.id)
            case FavoriteKind => key.id in FavoritesOf(st, step.id)
            case _ => false
    ensures ServerRow(st, w, u, key).Some?
  {
    var st' := WithoutIssue(st, step.id);
    assert ServerRow(Apply(st, step), w, u, key) == ServerRow(st', w, u, key);
  }

  lemma DeletedRowTouched(st: Store, step: Step, w: Id, u: Id, key: Key, ids: seq<Id>)
    requires Tables(st) && step.DeleteIssue? && Allowed(st, step) && step.id in st.issues && key.id in ids
    requires (key.kind == CommentKind && ids == step.comments) || (key.kind == NotificationKind && ids == step.notifications)
             || (key.kind == FavoriteKind && ids == step.favorites)
    requires ServerRow(st, w, u, key).Some?
    ensures exists k: nat :: Touches(DeleteEntries(st, step), k, w, u, key)
  {
    var j :| 0 <= j < |ids| && ids[j] == key.id;
    var k := DeletedIsAnnounced(st, step, key.kind, ids, j);
    ListedRows(st, step);
    if key.kind == CommentKind { Listed(ids, CommentsOf(st, step.id), key.id); }
    assert Touches(DeleteEntries(st, step), k, w, u, key);
  }

  lemma DeleteComplete(st: Store, step: Step, w: Id, u: Id)
    requires Tables(st) && step.DeleteIssue? && Allowed(st, step) && step.id in st.issues
    ensures Complete(st, Apply(st, step), DeleteEntries(st, step), w, u)
  {
    var st' := Apply(st, step);
    var es := DeleteEntries(st, step);
    forall key {:trigger ServerRow(st', w, u, key)} | ServerRow(st', w, u, key) != ServerRow(st, w, u, key)
      ensures exists k: nat :: Touches(es, k, w, u, key)
    {
      DeleteChanges(st, step, w, u, key);
      match key.kind
      case IssueKind => assert Touches(es, 0, w, u, key);
      case CommentKind =>
        Listed(step.comments, CommentsOf(st, step.id), key.id);
        DeletedRowTouched(st, step, w, u, key, step.comments);
      case NotificationKind =>
        Listed(step.notifications, NotificationsOf(st, step.id), key.id);
        DeletedRowTouched(st, step, w, u, key, step.notifications);
      case FavoriteKind =>
        Listed(step.favorites, FavoritesOf(st, step.id), key.id);
        DeletedRowTouched(st, step, w, u, key, step.favorites);
    }
  }

  lemma DeleteTells(st: Store, step: Step, w: Id, u: Id)
    requires Tables(st) && step.DeleteIssue? && Allowed(st, step)
    ensures Tells(st, Apply(st, step), w, u, {})
  {
    NothingTells(st, w, u);
    if step.id in st.issues {
      DeleteTruthful(st, step, w, u);
      DeleteComplete(st, step, w, u);
      assert Announced(st, Apply(st, step), DeleteEntries(st, step), w, u, {});
    }
  }

  // ---------------------------------------------------------------- every step

  /** Every step announces what it changes to everyone who can see it, truthfully except about the archived issues
      it sends. */
  lemma StepTells(st: Store, step: Step, w: Id, u: Id)
    requires Tables(st) && Allowed(st, step)
    ensures Tells(st, Apply(st, step), w, u, Resent(st, step, w))
  {
    hide Tells, CreateIssueTx, UpdateIssueTx, DeleteIssueTx, Rewritten, ArchiveTx, CreateCommentTx, EditCommentTx,
      DeleteCommentTx, NotifyTx, ChangeTx, AddFavoriteTx, RemoveFavoriteTx, UnrelateTx;
    match step
    case CreateIssue(i, workspace, team, content, labels) => CreateIssueTells(st, i, workspace, team, content, labels, w, u);
    case UpdateIssue(i, updates, blocked) => UpdateTells(st, i, updates, blocked, w, u);
    case DeleteIssue(_, _, _, _, _) => DeleteTells(st, step, w, u);
    case SetLabels(i, labels) =>
      NothingTells(st, w, u);
      if i in st.issues { RewrittenTells(st, i, st.issues[i].(labels := labels), w, u); }
    case SetSortOrder(i, rank) =>
      NothingTells(st, w, u);
      if i in st.issues {
        RewrittenTells(st, i, st.issues[i].(rank := rank, archivedAt := None, updatedAt := st.clock), w, u);
      }
    case Archive(i, _) => ArchiveTells(st, i, w, u);
    case CreateComment(c, i, author, body) => CreateCommentTells(st, c, i, author, body, w, u);
    case EditComment(c, user, body) => EditCommentTells(st, c, user, body, w, u);
    case DeleteComment(c, user) => DeleteCommentTells(st, c, user, w, u);
    case Notify(n, i, user) => NotifyTells(st, n, i, user, w, u);
    case MarkRead(n, user) =>
      NothingTells(st, w, u);
      if MarkReadTx(st, n, user).1.Done? { ChangeTells(st, user, Read, [n], w, u); }
    case ChangeNotifications(user, change, _, affected) =>
      ListedRows(st, step);
      ChangeTells(st, user, change, affected, w, u);
    case AddFavorite(f, user, workspace, target) => AddFavoriteTells(st, f, user, workspace, target, w, u);
    case RemoveFavorite(user, workspace, target) => RemoveFavoriteTells(st, user, workspace, target, w, u);
    case Relate(_, _) => RelationsTell(st, step, w, u);
    case Unrelate(_) => RelationsTell(st, step, w, u);
  }

  lemma ResentNothing(st: Store, step: Step, w: Id)
    requires !ResendsArchived(st, step)
    ensures Resent(st, step, w) == {}
  {
    if step.UpdateIssue? {
      forall x | x in step.blocked && x != step.id ensures !(step.id in st.issues && GoodUpdates(st, step.updates) && Archived(st, x)) {
        var k :| 0 <= k < |step.blocked| && step.blocked[k] == x;
      }
    }
  }

  lemma StepAgrees(st: Store, step: Step, w: Id, u: Id)
    requires Tables(st) && Agrees(st, w, u) && Allowed(st, step) && !ResendsArchived(st, step)
    ensures Agrees(Apply(st, step), w, u)
  {
    StepTells(st, step, w, u);
    ResentNothing(st, step, w);
    TellsAgrees(st, Apply(st, step), w, u);
  }

  lemma UpdateDisagrees(st: Store, i: Id, updates: Updates, blocked: seq<Id>, j: nat, u: Id)
    requires Allowed(st, UpdateIssue(i, updates, blocked)) && i in st.issues && GoodUpdates(st, updates)
    requires j < |blocked| && blocked[j] != i && Archived(st, blocked[j])
    ensures var st' := UpdateIssueTx(st, i, updates, blocked).0;
            !AgreesOn(st', st.issues[i].workspace, u, Key(IssueKind, blocked[j])) && Archived(st', blocked[j])
  {
    var st' := UpdateIssueTx(st, i, updates, blocked).0;
    var w := st.issues[i].workspace;
    var es := UpdateEntries(st, st', i, blocked);
    var key := Key(IssueKind, blocked[j]);
    UpdateLog(st, i, updates, blocked);
    var k := BlockedIsAnnounced(st', w, blocked, j);
    var before := 1 + |ChangeEntries(StatusChanged(st.issues[i], st'.issues[i], i), w)|;
    assert Touches(es, before + k, w, u, key);
    forall m {:trigger es[m]} | 0 <= m < |es| ensures Effective(es[m]) { InUpdateEntries(st, st', i, blocked, m); }
    forall m: nat | Touches(es, m, w, u, key) ensures EffectRow(es[m]) != ServerRow(st', w, u, key) {
      InUpdateEntries(st, st', i, blocked, m);
    }
    BatchDisagrees(st, st', es, w, u, key);
  }

  /** The other half: a step that re-sends an archived issue puts it back on every client of its workspace,
      whether or not they were right before. */
  lemma ResentDisagrees(st: Store, step: Step, key: Key, w: Id, u: Id)
    requires Allowed(st, step) && key in Resent(st, step, w)
    ensures !AgreesOn(Apply(st, step), w, u, key)
    ensures key.kind.IssueKind? && ArchivedIn(Apply(st, step), key.id, w)
  {
    match step
    case SetLabels(i, labels) =>
      var st' := Apply(st, step);
      var e := IssueEntry(st', i, w, Update);
      assert Touches([e], 0, w, u, e.key);
      BatchDisagrees(st, st', [e], w, u, e.key);
    case UpdateIssue(i, updates, blocked) =>
      var x :| x in blocked && x != i && Archived(st, x) && Key(IssueKind, x) == key;
      var j :| 0 <= j < |blocked| && blocked[j] == x;
      UpdateDisagrees(st, i, updates, blocked, j, u);
  }

  lemma ResendDisagrees(st: Store, step: Step, u: Id) returns (w: Id)
    requires Allowed(st, step) && ResendsArchived(st, step)
    ensures (step.SetLabels? || step.UpdateIssue?) && step.id in st.issues && w == st.issues[step.id].workspace
    ensures !Agrees(Apply(st, step), w, u)
  {
    w := st.issues[step.id].workspace;
    var key := Key(IssueKind, step.id);
    if step.UpdateIssue? {
      var k :| 0 <= k < |step.blocked| && step.blocked[k] != step.id && Archived(st, step.blocked[k]);
      key := Key(IssueKind, step.blocked[k]);
      assert step.blocked[k] in step.blocked;
    }
    assert key in Resent(st, step, w);
    ResentDisagrees(st, step, key, w, u);
  }

  /** Replay agreement is kept by a step exactly when the step does not re-send an archived issue. */
  lemma AgreementExactly(st: Store, step: Step)
    requires Tables(st) && (forall w, u :: Agrees(st, w, u)) && Allowed(st, step)
    ensures (forall w, u :: Agrees(Apply(st, step), w, u)) <==> !ResendsArchived(st, step)
  {
    if ResendsArchived(st, step) {
      var w := ResendDisagrees(st, step, "");
    } else {
      forall w, u ensures Agrees(Apply(st, step), w, u) { StepAgrees(st, step, w, u); }
    }
  }
}
