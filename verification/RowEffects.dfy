/** What each call leaves in the tables: which columns take which values, whose rows it may touch, and that everything else
    stays. */
module RowEffects {
  import opened Listing
  import opened Wire
  import opened IssueStore

  predicate Fixed(st: Store, st': Store) {
    st'.statuses == st.statuses && st'.teams == st.teams && st'.defaults == st.defaults && st'.clock == st.clock
  }

  /** The tables beside the issues are as they were. */
  predicate OthersStay(st: Store, st': Store) {
    && st'.comments == st.comments && st'.relations == st.relations && st'.notifications == st.notifications
    && st'.favorites == st.favorites && Fixed(st, st')
  }

  /** Exactly the row `k` is put or rewritten. */
  ghost predicate PutOnly<T>(before: map<Id, T>, after: map<Id, T>, k: Id) {
    after.Keys == before.Keys + {k} && forall j :: j in before && j != k ==> after[j] == before[j]
  }

  /** Exactly the rows that `goes` selects are gone. */
  ghost predicate Kept<T>(before: map<Id, T>, after: map<Id, T>, goes: set<Id>) {
    forall k :: (k in after <==> k in before && k !in goes) && (k in after ==> after[k] == before[k])
  }

  /** One entry is appended, with this action and for this row. */
  predicate Tells(st: Store, st': Store, action: Action, key: Key) {
    |st'.log| == |st.log| + 1 && st'.log[..|st.log|] == st.log && st'.log[|st.log|].action == action && st'.log[|st.log|].key == key
  }

  // ---------------------------------------------------------------- issues

  lemma CreateIssueEffect(st: Store, i: Id, w: Id, team: Id, content: Text, labels: set<Id>)
    requires i !in st.issues
    ensures var (st', outcome) := CreateIssueTx(st, i, w, team, content, labels);
            && (outcome == NotFound <==> w !in st.defaults)
            && (outcome == Rejected <==> w in st.defaults && team !in st.teams)
            && (outcome == Done <==> w in st.defaults && team in st.teams)
            && (outcome != Done ==> st' == st)
            && (outcome == Done ==>
                  && OthersStay(st, st') && PutOnly(st.issues, st'.issues, i) && Tells(st, st', Insert, Key(IssueKind, i))
                  && var x := st'.issues[i];
                     && x.workspace == w && x.team == team && x.content == content && x.labels == labels
                     && x.status == st.defaults[w] && x.updatedAt == st.clock
                     && x.startedAt.None? && x.completedAt.None? && x.archivedAt.None?
                     && (forall j :: j in st.issues && st.issues[j].team == team ==> st.issues[j].number < x.number)
                     && (x.number == 1 || exists j :: j in st.issues && st.issues[j].team == team && st.issues[j].number == x.number - 1))
  {
  }

  /** A column that an update may set. */
  predicate TakesGiven<T(==)>(given: Option<T>, was: T, now: T) {
    now == if given.Some? then given.value else was
  }

  /** The columns that were given, and nothing else but what every update or the new status or team calls for. */
  predicate UpdatedRow(u: Updates, x: Issue, y: Issue, now: Time) {
    && TakesGiven(u.content, x.content, y.content) && TakesGiven(u.rank, x.rank, y.rank)
    && TakesGiven(u.status, x.status, y.status) && TakesGiven(u.team, x.team, y.team)
    && y.workspace == x.workspace && y.labels == x.labels && y.archivedAt.None? && y.updatedAt == now
    && (u.team.None? ==> y.number == x.number)
    && (u.status.None? ==> y.startedAt == x.startedAt && y.completedAt == x.completedAt)
  }

  lemma UpdateIssueEffect(st: Store, i: Id, u: Updates, blocked: seq<Id>, st': Store, outcome: Outcome)
    requires (st', outcome) == UpdateIssueTx(st, i, u, blocked)
    ensures && (outcome == NotFound <==> i !in st.issues)
            && (outcome == Done <==> i in st.issues && (u.status.Some? ==> u.status.value in st.statuses)
                                     && (u.team.Some? ==> u.team.value in st.teams))
            && (outcome != Done ==> st' == st)
            && (outcome == Done ==>
                  && OthersStay(st, st') && st'.born == st.born && PutOnly(st.issues, st'.issues, i)
                  && i in st.issues && UpdatedRow(u, st.issues[i], st'.issues[i], st.clock))
  {
    hide BlockedEntries, IsBlocked;
  }

  lemma {:induction false} BlockedAreIssues(st: Store, w: Id, blocked: seq<Id>)
    ensures forall e :: e in BlockedEntries(st, w, blocked) ==> e.key.kind == IssueKind && e.action == Update
  {
    if blocked != [] { BlockedAreIssues(st, w, blocked[..|blocked| - 1]); }
  }

  /** An update announces the issue first. A change of status, and nothing else, is put in the activity record, at once. */
  lemma UpdateIssueTells(st: Store, i: Id, u: Updates, blocked: seq<Id>, st': Store)
    requires (st', Done) == UpdateIssueTx(st, i, u, blocked)
    ensures |st'.log| > |st.log| && st'.log[..|st.log|] == st.log && i in st.issues && i in st'.issues
    ensures st'.log[|st.log|].key == Key(IssueKind, i) && st'.log[|st.log|].action == Update
    ensures forall k :: |st.log| <= k < |st'.log| ==>
              (st'.log[k].key.kind == ActivityKind <==> k == |st.log| + 1 && st.issues[i].status != st'.issues[i].status)
    ensures st.issues[i].status != st'.issues[i].status ==>
              && |st'.log| > |st.log| + 1 && st'.log[|st.log| + 1].key == Key(ActivityKind, i) && st'.log[|st.log| + 1].action == Insert
              && st'.changes == st.changes + [StatusChange(i, st.issues[i].status, st'.issues[i].status)]
    ensures st.issues[i].status == st'.issues[i].status ==> st'.changes == st.changes
  {
    var x, y := st.issues[i], st'.issues[i];
    var st1 := st.(issues := st.issues[i := y], changes := st.changes + StatusChanged(x, y, i));
    BlockedAreIssues(st1, x.workspace, blocked);
    var rest := BlockedEntries(st1, x.workspace, blocked);
    var front := [IssueEntry(st1, i, x.workspace, Update)] + ChangeEntries(StatusChanged(x, y, i), x.workspace);
    assert st'.log == st.log + (front + rest);
    forall k | |st.log| + |front| <= k < |st'.log| ensures st'.log[k] in rest { assert st'.log[k] == rest[k - |st.log| - |front|]; }
    hide BlockedEntries, IsBlocked, UpdateIssueTx, Patched;
  }

  lemma SetLabelsEffect(st: Store, i: Id, labels: set<Id>)
    ensures var (st', outcome) := SetLabelsTx(st, i, labels);
            && (outcome == Done <==> i in st.issues) && (outcome != Done ==> outcome == NotFound && st' == st)
            && (outcome == Done ==>
                  && OthersStay(st, st') && PutOnly(st.issues, st'.issues, i) && Tells(st, st', Update, Key(IssueKind, i))
                  && st'.issues[i].labels == labels && st'.issues[i].(labels := st.issues[i].labels) == st.issues[i])
  {
    hide IsBlocked;
  }

  lemma SetSortOrderEffect(st: Store, i: Id, rank: real)
    ensures var (st', outcome) := SetSortOrderTx(st, i, rank);
            && (outcome == Done <==> i in st.issues) && (outcome != Done ==> outcome == NotFound && st' == st)
            && (outcome == Done ==>
                  && OthersStay(st, st') && PutOnly(st.issues, st'.issues, i) && Tells(st, st', Update, Key(IssueKind, i))
                  && var (x, y) := (st.issues[i], st'.issues[i]);
                     && y.rank == rank && y.archivedAt.None? && y.updatedAt == st.clock
                     && y.(rank := x.rank, archivedAt := x.archivedAt, updatedAt := x.updatedAt) == x)
  {
    hide IsBlocked;
  }

  /** With an issue go exactly the rows that refer to it. */
  lemma DeleteIssueEffect(st: Store, step: Step)
    requires step.DeleteIssue? && Allowed(st, step) && step.id in st.issues
    ensures var (st', i) := (Apply(st, step), step.id);
            && Fixed(st, st') && st'.born == st.born && st'.changes == st.changes && Kept(st.issues, st'.issues, {i})
            && Kept(st.comments, st'.comments, set c | c in st.comments && st.comments[c].issue == i)
            && Kept(st.relations, st'.relations, set r | r in st.relations && i in {st.relations[r].source, st.relations[r].target})
            && Kept(st.notifications, st'.notifications, set n | n in st.notifications && st.notifications[n].issue == i)
            && Kept(st.favorites, st'.favorites, set f | f in st.favorites && st.favorites[f].target == IssueTarget(i))
  {
    ListedRows(st, step);
    hide Allowed, Lists, GoneEntries, GoneNotifications, GoneFavorites;
  }

  /** The derived flag: an issue is blocked by every blocking issue that is neither completed nor cancelled. */
  lemma BlockedExactly(st: Store, i: Id)
    ensures IsBlocked(st, i) <==>
              exists r ::
                && r in st.relations && st.relations[r].kind == Blocks && st.relations[r].target == i && st.relations[r].source in st.issues
                && var status := st.issues[st.relations[r].source].status;
                   status in st.statuses ==> st.statuses[status] in {Category.Backlog, Category.Unstarted, Category.Started}
  {
    if r :| r in st.relations && st.relations[r].kind == Blocks && st.relations[r].target == i && st.relations[r].source in st.issues
            && (st.issues[st.relations[r].source].status in st.statuses ==>
                  st.statuses[st.issues[st.relations[r].source].status] in {Category.Backlog, Category.Unstarted, Category.Started}) {
      assert OpenBlocker(st, st.relations[r], i);
    }
  }

  /** An issue is archived by a sweep exactly if it is closed, still unarchived, and its last update is more than `age`
      ago; all it gets is the stamp. */
  lemma ArchiveEffect(st: Store, i: Id, age: nat)
    ensures Allowed(st, Archive(i, age)) <==>
              && i in st.issues && st.issues[i].archivedAt == None && st.issues[i].updatedAt + age < st.clock
              && st.issues[i].status in st.statuses && st.statuses[st.issues[i].status] in {Completed, Cancelled}
    ensures Allowed(st, Archive(i, age)) ==>
              var st' := Apply(st, Archive(i, age));
              && OthersStay(st, st') && PutOnly(st.issues, st'.issues, i) && Tells(st, st', Delete, Key(IssueKind, i))
              && st'.issues[i] == st.issues[i].(archivedAt := Some(st.clock))
  {
  }

  // ---------------------------------------------------------------- comments

  lemma CreateCommentEffect(st: Store, c: Id, i: Id, author: Id, body: Text)
    requires c !in st.comments
    ensures var (st', outcome) := CreateCommentTx(st, c, i, author, body);
            && (outcome == Done <==> i in st.issues) && (outcome != Done ==> outcome == NotFound && st' == st)
            && (outcome == Done ==>
                  && st'.issues == st.issues && OthersStay(st, st'.(comments := st.comments))
                  && PutOnly(st.comments, st'.comments, c) && Tells(st, st', Insert, Key(CommentKind, c))
                  && st'.comments[c].issue == i && st'.comments[c].author == author && st'.comments[c].body == body)
  {
  }

  /** Only the author edits a comment, and only its text. */
  lemma EditCommentEffect(st: Store, c: Id, user: Id, body: Text)
    requires c in st.comments ==> st.comments[c].issue in st.issues
    ensures var (st', outcome) := EditCommentTx(st, c, user, body);
            && (outcome == NotFound <==> c !in st.comments)
            && (outcome == Done <==> c in st.comments && st.comments[c].author == user)
            && (outcome == Done || outcome == NotFound || outcome == Forbidden) && (outcome != Done ==> st' == st)
            && (outcome == Done ==>
                  && st'.issues == st.issues && OthersStay(st, st'.(comments := st.comments))
                  && PutOnly(st.comments, st'.comments, c) && Tells(st, st', Update, Key(CommentKind, c))
                  && st'.comments[c].body == body && st'.comments[c].author == user && st'.comments[c].issue == st.comments[c].issue)
  {
  }

  /** Only the author deletes a comment. */
  lemma DeleteCommentEffect(st: Store, c: Id, user: Id)
    requires c in st.comments ==> st.comments[c].issue in st.issues
    ensures var (st', outcome) := DeleteCommentTx(st, c, user);
            && (outcome == NotFound <==> c !in st.comments)
            && (outcome == Done <==> c in st.comments && st.comments[c].author == user)
            && (outcome == Done || outcome == NotFound || outcome == Forbidden) && (outcome != Done ==> st' == st)
            && (outcome == Done ==>
                  && st'.issues == st.issues && OthersStay(st, st'.(comments := st.comments))
                  && Kept(st.comments, st'.comments, {c}) && Tells(st, st', Delete, Key(CommentKind, c)))
  {
  }

  // ---------------------------------------------------------------- private rows

  lemma NotifyEffect(st: Store, n: Id, i: Id, user: Id)
    requires n !in st.notifications
    ensures var (st', outcome) := NotifyTx(st, n, i, user);
            && (outcome == Done <==> i in st.issues) && (outcome != Done ==> outcome == Rejected && st' == st)
            && (outcome == Done ==>
                  && st'.issues == st.issues && OthersStay(st, st'.(notifications := st.notifications))
                  && PutOnly(st.notifications, st'.notifications, n) && Tells(st, st', Insert, Key(NotificationKind, n))
                  && st'.log[|st.log|].audience == Some(user)
                  && var x := st'.notifications[n];
                     && x.user == user && x.issue == i && x.workspace == st.issues[i].workspace && !x.read && x.deletedAt.None?)
  {
  }

  /** Afterwards the target is pinned, by one row; all other rows stay. */
  lemma AddFavoriteEffect(st: Store, f: Id, user: Id, w: Id, target: Target)
    requires UniqueFavorites(st.favorites) && f !in st.favorites
    ensures var st' := AddFavoriteTx(st, f, user, w, target);
            && st'.issues == st.issues && OthersStay(st, st'.(favorites := st.favorites)) && UniqueFavorites(st'.favorites)
            && (forall g :: g in st.favorites ==> g in st'.favorites && st'.favorites[g] == st.favorites[g])
            && (exists g :: g in st'.favorites && st'.favorites[g] == Favorite(user, w, target)
                            && st'.favorites.Keys == st.favorites.Keys + {g} && Tells(st, st', Insert, Key(FavoriteKind, g)))
  {
    var st' := AddFavoriteTx(st, f, user, w, target);
    var found := FindFavorite(st, user, w, target);
    var g := if found.Some? then found.value else f;
    assert g in st'.favorites && st'.favorites[g] == Favorite(user, w, target) && st'.favorites.Keys == st.favorites.Keys + {g};
  }

  /** Afterwards the target is not pinned; all other rows stay. */
  lemma RemoveFavoriteEffect(st: Store, user: Id, w: Id, target: Target)
    requires UniqueFavorites(st.favorites)
    ensures var st' := RemoveFavoriteTx(st, user, w, target);
            && st'.issues == st.issues && OthersStay(st, st'.(favorites := st.favorites))
            && Kept(st.favorites, st'.favorites, set f | f in st.favorites && st.favorites[f] == Favorite(user, w, target))
            && (st'.favorites == st.favorites ==> st' == st)
  {
    var found := FindFavorite(st, user, w, target);
    if found.Some? {
      assert found.value in st.favorites && found.value !in RemoveFavoriteTx(st, user, w, target).favorites;
    }
  }

  // ---------------------------------------------------------------- relations

  lemma RelateEffect(st: Store, r: Id, relation: Relation)
    requires Allowed(st, Relate(r, relation))
    ensures var st' := Apply(st, Relate(r, relation));
            && st'.issues == st.issues && OthersStay(st, st'.(relations := st.relations))
            && PutOnly(st.relations, st'.relations, r) && st'.relations[r] == relation && Tells(st, st', Insert, Key(RelationKind, r))
  {
  }

  lemma UnrelateEffect(st: Store, r: Id, st': Store)
    requires st' == UnrelateTx(st, r)
    ensures if r in st.relations && st.relations[r].source in st.issues
            then
              && st'.issues == st.issues && OthersStay(st, st'.(relations := st.relations))
              && Kept(st.relations, st'.relations, {r}) && Tells(st, st', Delete, Key(RelationKind, r))
            else st' == st
  {
    if r in st.relations && st.relations[r].source in st.issues {
      var e := Gone(RelationKind, r, st.issues[st.relations[r].source].workspace, None);
      assert st' == st.(relations := st.relations - {r}, log := st.log + [e]);
      hide UnrelateTx, Gone;
    }
  }
}
