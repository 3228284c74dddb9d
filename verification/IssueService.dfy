/** The services as an object: each method is one transaction that updates the tables in place and appends to
    the log, and is proved to take the store through exactly one step of `IssueStore`. The list of issues an
    update unblocks, which is read before its transaction, is an argument. */
module IssueService {
  import opened Listing
  import opened Wire
  import opened IssueStore
  import opened NotificationEffects

  /** What the settings of an issue's team select. */
  predicate Due(st: Store, i: Id, ages: map<Id, nat>) {
    i in st.issues && st.issues[i].team in ages && Selected(st, i, ages[st.issues[i].team])
  }

  ghost predicate SweptSoFar(st: Store, teams: seq<Id>, ages: map<Id, nat>, archived: seq<Id>) {
    && Distinct(archived) && (forall i :: i in archived ==> i in st.issues)
    && forall i :: i in archived <==> Due(st, i, ages) && st.issues[i].team in teams
  }

  lemma {:induction false} ArchiveAllTwice(st: Store, a: seq<Id>, b: seq<Id>)
    requires forall i :: i in a + b ==> i in st.issues
    ensures forall i :: i in a ==> i in st.issues
    ensures forall i :: i in b ==> i in ArchiveAll(st, a).issues
    ensures ArchiveAll(ArchiveAll(st, a), b) == ArchiveAll(st, a + b)
  {
    assert forall i :: i in a || i in b <==> i in a + b;
    if b == [] {
      assert a + b == a;
    } else {
      assert (a + b)[..|a + b| - 1] == a + b[..|b| - 1];
      ArchiveAllTwice(st, a, b[..|b| - 1]);
    }
  }

  /** Sweeping one team does not change what is due in another. */
  lemma SweptOfTeam(st: Store, team: Id, teams: seq<Id>, ages: map<Id, nat>, archived: seq<Id>, i: Id)
    requires SweptSoFar(st, teams, ages, archived) && team !in teams && team in ages
    ensures Selected(ArchiveAll(st, archived), i, ages[team]) && ArchiveAll(st, archived).issues[i].team == team
            <==> Due(st, i, ages) && st.issues[i].team == team
  {
    ArchiveAllRows(st, archived);
    if i in st.issues && st.issues[i].team == team { assert i !in archived; }
  }

  lemma SweptTogether(st: Store, order: seq<Id>, k: nat, ages: map<Id, nat>, archived: seq<Id>, swept: seq<Id>)
    requires k < |order| && SweptSoFar(st, order[..k], ages, archived)
    requires forall i :: i in swept <==> Due(st, i, ages) && st.issues[i].team == order[k]
    requires Distinct(archived + swept)
    ensures SweptSoFar(st, order[..k + 1], ages, archived + swept)
    ensures forall i :: i in archived + swept ==> i in st.issues
  {
    hide Selected;
    assert order[..k + 1] == order[..k] + [order[k]];
    forall i ensures i in archived + swept <==> Due(st, i, ages) && st.issues[i].team in order[..k + 1] {
      assert i in archived + swept <==> i in archived || i in swept;
    }
  }

  lemma DistinctTogether(a: seq<Id>, b: seq<Id>)
    requires Distinct(a) && Distinct(b) && forall x :: x in a ==> x !in b
    ensures Distinct(a + b)
  {
    forall i, j | 0 <= i < j < |a + b| ensures (a + b)[i] != (a + b)[j] {
      if i < |a| <= j { assert a[i] in a && b[j - |a|] in b; }
    }
  }

  lemma SweptNext(st: Store, order: seq<Id>, k: nat, ages: map<Id, nat>, archived: seq<Id>, swept: seq<Id>)
    requires k < |order| && Distinct(order) && order[k] in ages && SweptSoFar(st, order[..k], ages, archived)
    requires Distinct(swept) && forall i :: i in swept <==>
               Selected(ArchiveAll(st, archived), i, ages[order[k]]) && ArchiveAll(st, archived).issues[i].team == order[k]
    ensures SweptSoFar(st, order[..k + 1], ages, archived + swept)
    ensures forall i :: i in swept ==> i in st.issues
    ensures ArchiveAll(ArchiveAll(st, archived), swept) == ArchiveAll(st, archived + swept)
  {
    assert order[k] !in order[..k];
    forall i ensures i in swept <==> Due(st, i, ages) && st.issues[i].team == order[k] {
      SweptOfTeam(st, order[k], order[..k], ages, archived, i);
    }
    hide Due, Selected;
    forall i | i in archived ensures i !in swept { assert st.issues[i].team in order[..k]; }
    DistinctTogether(archived, swept);
    SweptTogether(st, order, k, ages, archived, swept);
    hide SweptSoFar;
    ArchiveAllTwice(st, archived, swept);
  }

  lemma SweptSkips(st: Store, order: seq<Id>, k: nat, ages: map<Id, nat>, archived: seq<Id>)
    requires k < |order| && order[k] !in ages && SweptSoFar(st, order[..k], ages, archived)
    ensures SweptSoFar(st, order[..k + 1], ages, archived)
  {
    assert order[..k + 1] == order[..k] + [order[k]];
  }

  lemma SweptAll(st: Store, order: seq<Id>, ages: map<Id, nat>, archived: seq<Id>)
    requires Lists(order, st.teams.Keys) && TeamsRight(st.issues, st.teams) && SweptSoFar(st, order[..|order|], ages, archived)
    ensures forall i :: i in archived <==> Due(st, i, ages)
    ensures forall i :: !Due(ArchiveAll(st, archived), i, ages)
  {
    assert order[..|order|] == order;
    forall i ensures i in archived <==> Due(st, i, ages) {
      if i in st.issues { Listed(order, st.teams.Keys, st.issues[i].team); }
    }
    ArchiveAllRows(st, archived);
  }

  lemma NoneAsked(st: Store, user: Id, change: Change)
    ensures Affected(st, user, change, Some({})) == {}
  {
  }

  lemma NothingListed()
    ensures Lists<Id>([], {})
  {
  }

  lemma OwnersTell(st: Store, ids: seq<Id>, owners: map<Id, Id>, w: Id)
    requires forall n :: n in ids ==> n in st.notifications && n in owners && owners[n] == st.notifications[n].user
    ensures seq(|ids|, k requires 0 <= k < |ids| => Gone(NotificationKind, ids[k], w, Some(owners[ids[k]])))
            == GoneNotifications(st, ids, w)
  {
  }

  /** The state the deletion leaves, with its log put together piece by piece. */
  lemma Erased(st: Store, i: Id, comments: seq<Id>, relations: seq<Id>, notifications: seq<Id>, favorites: seq<Id>, after: Store)
    requires i in st.issues && (forall n :: n in notifications ==> n in st.notifications) && forall f :: f in favorites ==> f in st.favorites
    requires (set f <- favorites) == FavoritesOf(st, i)
    requires var w := st.issues[i].workspace;
             after == WithoutIssue(st, i).(favorites := st.favorites - (set f <- favorites),
               log := st.log + ([Gone(IssueKind, i, w, None)] + GoneEntries(CommentKind, comments, w)
                                + GoneEntries(RelationKind, relations, w) + GoneNotifications(st, notifications, w))
                      + GoneFavorites(st, favorites))
    ensures after == DeleteIssueTx(st, i, comments, relations, notifications, favorites).0
  {
    hide GoneEntries, GoneNotifications, GoneFavorites;
  }

  lemma SameFavoritesGone(st: Store, st': Store, ids: seq<Id>)
    requires st.favorites == st'.favorites && forall f :: f in ids ==> f in st.favorites
    ensures GoneFavorites(st, ids) == GoneFavorites(st', ids)
  {
  }

  lemma WithoutRows(st: Store, i: Id, comments: map<Id, Comment>, relations: map<Id, Relation>, notifications: map<Id, Notification>)
    requires comments == map c | c in st.comments && st.comments[c].issue != i :: st.comments[c]
    requires relations == map r | r in st.relations && st.relations[r].source != i && st.relations[r].target != i :: st.relations[r]
    requires notifications == map n | n in st.notifications && st.notifications[n].issue != i :: st.notifications[n]
    ensures comments == st.comments - CommentsOf(st, i) && relations == st.relations - RelationsOf(st, i)
    ensures notifications == st.notifications - NotificationsOf(st, i)
  {
  }

  lemma ListsDistinct(xs: seq<Id>, all: set<Id>)
    requires Lists(xs, all)
    ensures Distinct(xs) && (set x <- xs) == all
  {
  }

  lemma OneListed(xs: seq<Id>, x: Id)
    requires xs != [] && Distinct(xs) && forall y :: y in xs ==> y == x
    ensures xs == [x]
  {
    assert xs[0] in xs && xs[|xs| - 1] in xs;
  }

  lemma NothingToChange(st: Store, user: Id, change: Change)
    ensures ChangeTx(st, user, change, []) == st
  {
    assert st.log + [] == st.log;
  }

  class Service {
    var issues: map<Id, Issue>
    var comments: map<Id, Comment>
    var relations: map<Id, Relation>
    var notifications: map<Id, Notification>
    var favorites: map<Id, Favorite>
    var statuses: map<Id, Category>
    var teams: map<Id, Id>
    var defaults: map<Id, Id>
    var log: seq<Entry>
    var changes: seq<StatusChange>
    ghost var born: map<Id, Id>
    var clock: Time

    ghost function State(): Store
      reads this
    {
      Store(issues, comments, relations, notifications, favorites, statuses, teams, defaults, log, changes, born, clock)
    }

    constructor (statuses: map<Id, Category>, teams: map<Id, Id>, defaults: map<Id, Id>)
      requires forall w :: w in defaults ==> defaults[w] in statuses && statuses[defaults[w]] == Backlog
      ensures Empty(State()) && State().statuses == statuses && State().teams == teams && State().defaults == defaults
    {
      issues, comments, relations, notifications, favorites := map[], map[], map[], map[], map[];
      this.statuses, this.teams, this.defaults := statuses, teams, defaults;
      log, changes, born, clock := [], [], map[], 0;
    }

    method Write(e: Entry)
      modifies this`log
      ensures log == old(log) + [e]
    {
      log := log + [e];
    }

    // -------------------------------------------------------------- issues

    method HighestNumber(team: Id) returns (n: int)
      ensures n == Highest(issues, issues.Keys, team)
    {
      n := 0;
      var rest := issues.Keys;
      while rest != {}
        invariant rest <= issues.Keys && n >= 0
        invariant forall i :: i in issues && i !in rest && issues[i].team == team ==> issues[i].number <= n
        invariant n == 0 || exists i :: i in issues && issues[i].team == team && issues[i].number == n
        decreases |rest|
      {
        var i :| i in rest;
        if issues[i].team == team && issues[i].number > n { n := issues[i].number; }
        rest := rest - {i};
      }
    }

    method Payload(i: Id) returns (p: Payload)
      requires i in issues
      ensures p == IssuePayload(State(), i)
    {
      var blocked := false;
      var rest := relations.Keys;
      while rest != {}
        invariant rest <= relations.Keys
        invariant blocked <==> exists r :: r in relations && r !in rest && OpenBlocker(State(), relations[r], i)
        decreases |rest|
      {
        var r :| r in rest;
        var x := relations[r];
        if x.kind == Blocks && x.target == i && x.source in issues
           && !(issues[x.source].status in statuses && statuses[issues[x.source].status].Closed())
        {
          blocked := true;
        }
        rest := rest - {r};
      }
      p := IssueData(issues[i], blocked);
    }

    method CreateIssue(i: Id, workspace: Id, team: Id, content: Text, labels: set<Id>) returns (outcome: Outcome)
      modifies this
      ensures (State(), outcome) == CreateIssueTx(old(State()), i, workspace, team, content, labels)
    {
      if workspace !in defaults { return NotFound; }
      if team !in teams { return Rejected; }
      var status := defaults[workspace];
      var highest := HighestNumber(team);
      issues := issues[i := Issue(workspace, team, highest + 1, status, content, labels, 0.0, None, None, None, clock)];
      born := born[i := status];
      var payload := Payload(i);
      Write(Entry(Key(IssueKind, i), workspace, None, Insert, Some(payload)));
      return Done;
    }

    /** The row an update leaves: only the columns asked for, the timestamps its new status calls for, and
        always out of the archive. */
    method Patch(x: Issue, u: Updates) returns (y: Issue)
      requires GoodUpdates(State(), u)
      ensures y == Patched(State(), x, u)
    {
      y := x.(archivedAt := None);
      if u.content.Some? { y := y.(content := u.content.value); }
      if u.status.Some? {
        var category := statuses[u.status.value];
        y := y.(status := u.status.value);
        if category.Completed? || category.Cancelled? {
          if x.completedAt.None? { y := y.(completedAt := Some(clock)); }
        } else {
          y := y.(completedAt := None);
        }
        if category.Started? {
          if x.startedAt.None? { y := y.(startedAt := Some(clock)); }
        } else if category.Backlog? || category.Unstarted? {
          y := y.(startedAt := None);
        }
      }
      if u.rank.Some? { y := y.(rank := u.rank.value); }
      if u.team.Some? {
        var highest := HighestNumber(u.team.value);
        y := y.(team := u.team.value, number := highest + 1);
      }
      y := y.(updatedAt := clock);
    }

    /** The issues to announce along with a status change, read before the update's transaction begins. */
    method ReadBlocked(i: Id, u: Updates) returns (blocked: seq<Id>)
      ensures ReadAt(State(), Step.UpdateIssue(i, u, blocked))
    {
      blocked := [];
      if u.status.Some? {
        blocked := Enumerate(set r | r in relations && relations[r].kind == Blocks && relations[r].source == i :: relations[r].target);
      }
    }

    method Announce(i: Id, workspace: Id)
      requires i in issues
      modifies this`log
      ensures log == old(log) + [IssueEntry(old(State()), i, workspace, Update)]
    {
      var payload := Payload(i);
      Write(Entry(Key(IssueKind, i), workspace, None, Update, Some(payload)));
    }

    method WriteStatusChange(i: Id, x: Issue, y: Issue)
      modifies this`changes, this`log
      ensures changes == old(changes) + StatusChanged(x, y, i)
      ensures log == old(log) + ChangeEntries(StatusChanged(x, y, i), x.workspace)
    {
      if x.status != y.status {
        changes := changes + [StatusChange(i, x.status, y.status)];
        Write(Entry(Key(ActivityKind, i), x.workspace, None, Insert, Some(ActivityData)));
      }
    }

    method WriteBlocked(workspace: Id, blocked: seq<Id>)
      modifies this`log
      ensures State() == Record(old(State()), BlockedEntries(old(State()), workspace, blocked))
    {
      for k := 0 to |blocked|
        invariant State() == Record(old(State()), BlockedEntries(old(State()), workspace, blocked[..k]))
      {
        assert blocked[..k + 1][..k] == blocked[..k];
        if blocked[k] in issues {
          var payload := Payload(blocked[k]);
          Write(Entry(Key(IssueKind, blocked[k]), workspace, None, Update, Some(payload)));
        }
      }
      assert blocked[..|blocked|] == blocked;
    }

    method ReplaceAndRecord(i: Id, u: Updates, blocked: seq<Id>)
      requires i in issues && GoodUpdates(State(), u)
      modifies this
      ensures State() == UpdateIssueTx(old(State()), i, u, blocked).0
    {
      var x := issues[i];
      var y := Patch(x, u);
      hide Patched, BlockedEntries, IsBlocked;
      issues := issues[i := y];
      ghost var st1 := old(State()).(issues := issues, changes := changes + StatusChanged(x, y, i));
      SameRowsSameEntries(State(), st1, x.workspace, blocked);
      Announce(i, x.workspace);
      WriteStatusChange(i, x, y);
      SameRowsSameEntries(State(), st1, x.workspace, blocked);
      WriteBlocked(x.workspace, blocked);
      assert log == old(log) + ([IssueEntry(st1, i, x.workspace, Update)] + ChangeEntries(StatusChanged(x, y, i), x.workspace)
                                + BlockedEntries(st1, x.workspace, blocked));
    }

    /** The transaction, with the list as it was read; by now it may be out of date. */
    method UpdateIssue(i: Id, u: Updates, blocked: seq<Id>) returns (outcome: Outcome)
      modifies this
      ensures (State(), outcome) == UpdateIssueTx(old(State()), i, u, blocked)
    {
      if i !in issues { return NotFound; }
      if !((u.status.Some? ==> u.status.value in statuses) && (u.team.Some? ==> u.team.value in teams)) { return Rejected; }
      ReplaceAndRecord(i, u, blocked);
      outcome := Done;
    }

    // -------------------------------------------------------------- deletion

    method WriteGone(kind: Kind, ids: seq<Id>, workspace: Id)
      modifies this`log
      ensures log == old(log) + GoneEntries(kind, ids, workspace)
    {
      for k := 0 to |ids|
        invariant log == old(log) + GoneEntries(kind, ids, workspace)[..k]
      {
        Write(Entry(Key(kind, ids[k]), workspace, None, Delete, None));
      }
    }

    /** Each entry is addressed to the member whose inbox held the row; `owners` was read before the rows went. */
    method WriteGoneNotifications(ids: seq<Id>, owners: map<Id, Id>, workspace: Id)
      requires forall n :: n in ids ==> n in owners
      modifies this`log
      ensures log == old(log) + seq(|ids|, k requires 0 <= k < |ids| => Gone(NotificationKind, ids[k], workspace, Some(owners[ids[k]])))
    {
      ghost var entries := seq(|ids|, k requires 0 <= k < |ids| => Gone(NotificationKind, ids[k], workspace, Some(owners[ids[k]])));
      for k := 0 to |ids|
        invariant log == old(log) + entries[..k]
      {
        Write(Entry(Key(NotificationKind, ids[k]), workspace, Some(owners[ids[k]]), Delete, None));
      }
    }

    /** The favorites of a target go one by one, each with its entry. */
    method DeleteFavorites(ids: seq<Id>)
      requires forall f :: f in ids ==> f in favorites
      requires Distinct(ids)
      modifies this`favorites, this`log
      ensures log == old(log) + GoneFavorites(old(State()), ids)
      ensures favorites == old(favorites) - (set f <- ids)
    {
      for k := 0 to |ids|
        invariant log == old(log) + GoneFavorites(old(State()), ids)[..k]
        invariant forall f :: f in favorites <==> f in old(favorites) && f !in ids[..k]
        invariant forall f :: f in favorites ==> favorites[f] == old(favorites)[f]
      {
        var f := ids[k];
        assert f in ids && f !in ids[..k];
        Write(Entry(Key(FavoriteKind, f), favorites[f].workspace, Some(favorites[f].user), Delete, None));
        favorites := favorites - {f};
      }
      assert ids[..|ids|] == ids;
    }

    /** The rows of an issue and everything that hangs on it, except favorites, which no foreign key takes. */
    method CascadeIssue(i: Id)
      modifies this
      ensures State() == WithoutIssue(old(State()), i).(favorites := old(favorites))
    {
      hide CommentsOf, RelationsOf, NotificationsOf;
      issues := issues - {i};
      comments := map c | c in comments && comments[c].issue != i :: comments[c];
      relations := map r | r in relations && relations[r].source != i && relations[r].target != i :: relations[r];
      notifications := map n | n in notifications && notifications[n].issue != i :: notifications[n];
      WithoutRows(old(State()), i, comments, relations, notifications);
    }

    method EraseIssue(i: Id, doomedComments: seq<Id>, doomedRelations: seq<Id>, doomedNotifications: seq<Id>, doomedFavorites: seq<Id>)
      requires i in issues && Lists(doomedFavorites, FavoritesOf(State(), i))
      requires forall n :: n in doomedNotifications ==> n in notifications
      requires forall f :: f in doomedFavorites ==> f in favorites
      modifies this
      ensures State()
              == DeleteIssueTx(old(State()), i, doomedComments, doomedRelations, doomedNotifications, doomedFavorites).0
    {
      hide Lists, CommentsOf, RelationsOf, NotificationsOf, FavoritesOf, GoneEntries, GoneNotifications, GoneFavorites;
      var w := issues[i].workspace;
      var owners := map n | n in notifications :: notifications[n].user;
      CascadeIssue(i);
      Write(Entry(Key(IssueKind, i), w, None, Delete, None));
      WriteGone(CommentKind, doomedComments, w);
      WriteGone(RelationKind, doomedRelations, w);
      WriteGoneNotifications(doomedNotifications, owners, w);
      OwnersTell(old(State()), doomedNotifications, owners, w);
      assert log == old(log) + ([Gone(IssueKind, i, w, None)] + GoneEntries(CommentKind, doomedComments, w)
                                + GoneEntries(RelationKind, doomedRelations, w)
                                + GoneNotifications(old(State()), doomedNotifications, w));
      ListsDistinct(doomedFavorites, FavoritesOf(old(State()), i));
      SameFavoritesGone(old(State()), State(), doomedFavorites);
      DeleteFavorites(doomedFavorites);
      hide WithoutIssue, DeleteIssueTx, Gone;
      Erased(old(State()), i, doomedComments, doomedRelations, doomedNotifications, doomedFavorites, State());
    }

    method DeleteIssue(i: Id)
      returns (outcome: Outcome, doomedComments: seq<Id>, doomedRelations: seq<Id>, doomedNotifications: seq<Id>, doomedFavorites: seq<Id>)
      modifies this
      ensures Lists(doomedComments, CommentsOf(old(State()), i)) && Lists(doomedRelations, RelationsOf(old(State()), i))
      ensures Lists(doomedNotifications, NotificationsOf(old(State()), i)) && Lists(doomedFavorites, FavoritesOf(old(State()), i))
      ensures forall n :: n in doomedNotifications ==> n in old(notifications)
      ensures forall f :: f in doomedFavorites ==> f in old(favorites)
      ensures (State(), outcome)
              == DeleteIssueTx(old(State()), i, doomedComments, doomedRelations, doomedNotifications, doomedFavorites)
    {
      doomedComments := Enumerate(set c | c in comments && comments[c].issue == i);
      doomedRelations := Enumerate(set r | r in relations && (relations[r].source == i || relations[r].target == i));
      doomedNotifications := Enumerate(set n | n in notifications && notifications[n].issue == i);
      doomedFavorites := Enumerate(set f | f in favorites && favorites[f].target == IssueTarget(i));
      ListedRows(State(), IssueStore.DeleteIssue(i, doomedComments, doomedRelations, doomedNotifications, doomedFavorites));
      if i !in issues { outcome := NotFound; return; }
      EraseIssue(i, doomedComments, doomedRelations, doomedNotifications, doomedFavorites);
      outcome := Done;
    }

    // -------------------------------------------------------------- one row at a time

    method SetLabels(i: Id, labels: set<Id>) returns (outcome: Outcome)
      modifies this
      ensures (State(), outcome) == SetLabelsTx(old(State()), i, labels)
    {
      if i !in issues { return NotFound; }
      issues := issues[i := issues[i].(labels := labels)];
      Announce(i, issues[i].workspace);
      return Done;
    }

    method SetSortOrder(i: Id, rank: real) returns (outcome: Outcome)
      modifies this
      ensures (State(), outcome) == SetSortOrderTx(old(State()), i, rank)
    {
      if i !in issues { return NotFound; }
      issues := issues[i := issues[i].(rank := rank, archivedAt := None, updatedAt := clock)];
      Announce(i, issues[i].workspace);
      return Done;
    }

    method CreateComment(c: Id, i: Id, author: Id, body: Text) returns (outcome: Outcome)
      modifies this
      ensures (State(), outcome) == CreateCommentTx(old(State()), c, i, author, body)
    {
      if i !in issues { return NotFound; }
      comments := comments[c := Comment(i, author, body)];
      Write(Entry(Key(CommentKind, c), issues[i].workspace, None, Insert, Some(CommentData(comments[c]))));
      return Done;
    }

    method EditComment(c: Id, user: Id, body: Text) returns (outcome: Outcome)
      modifies this
      ensures (State(), outcome) == EditCommentTx(old(State()), c, user, body)
    {
      if c !in comments { return NotFound; }
      if comments[c].author != user { return Forbidden; }
      if comments[c].issue !in issues { return NotFound; }
      comments := comments[c := comments[c].(body := body)];
      Write(Entry(Key(CommentKind, c), issues[comments[c].issue].workspace, None, Update, Some(CommentData(comments[c]))));
      return Done;
    }

    method DeleteComment(c: Id, user: Id) returns (outcome: Outcome)
      modifies this
      ensures (State(), outcome) == DeleteCommentTx(old(State()), c, user)
    {
      if c !in comments { return NotFound; }
      if comments[c].author != user { return Forbidden; }
      if comments[c].issue !in issues { return NotFound; }
      Write(Entry(Key(CommentKind, c), issues[comments[c].issue].workspace, None, Delete, None));
      comments := comments - {c};
      return Done;
    }

    // -------------------------------------------------------------- notifications

    method Notify(n: Id, i: Id, user: Id) returns (outcome: Outcome)
      modifies this
      ensures (State(), outcome) == NotifyTx(old(State()), n, i, user)
    {
      if i !in issues { return Rejected; }
      notifications := notifications[n := Notification(issues[i].workspace, user, i, false, None)];
      Write(Entry(Key(NotificationKind, n), issues[i].workspace, Some(user), Insert, Some(NotificationData(notifications[n]))));
      return Done;
    }

    /** Apply the change to exactly `ids`, then record one entry per row in its new state. */
    method UpdateAndRecord(user: Id, change: Change, ids: seq<Id>)
      requires forall n :: n in ids ==> n in notifications
      modifies this
      ensures State() == ChangeTx(old(State()), user, change, ids)
    {
      notifications :=
        map n | n in notifications :: if n in ids then Changed(change, notifications[n], clock) else notifications[n];
      ghost var st1 := State();
      ghost var entries := NotificationEntries(st1, user, ids);
      for k := 0 to |ids|
        invariant State() == st1.(log := old(log) + entries[..k])
      {
        var n := ids[k];
        assert n in ids;
        Write(Entry(Key(NotificationKind, n), notifications[n].workspace, Some(user), Update, Some(NotificationData(notifications[n]))));
      }
      assert entries[..|ids|] == entries;
    }

    method MarkAsRead(n: Id, user: Id) returns (outcome: Outcome)
      modifies this
      ensures (State(), outcome) == MarkReadTx(old(State()), n, user)
      ensures outcome == NotFound <==> n !in old(notifications)
      ensures outcome == Done <==>
                n in old(notifications) && old(notifications)[n].user == user && old(notifications)[n].deletedAt.None?
      ensures outcome == Done ==> n in notifications && notifications[n].read
      ensures Moved(old(notifications), notifications, Read, if outcome == Done then {n} else {}, clock)
    {
      var selected := set x | x in notifications && notifications[x].user == user && notifications[x].deletedAt.None? && x == n;
      var affected := Enumerate(selected);
      Listed(affected, selected, n);
      if affected == [] {
        if n !in notifications { return NotFound; } else { return Forbidden; }
      }
      forall y | y in affected ensures y == n { Listed(affected, selected, y); }
      OneListed(affected, n);
      ChangeMoves(State(), user, Read, affected);
      assert AsSet(affected) == {n};
      UpdateAndRecord(user, Read, affected);
      return Done;
    }

    method AffectedIds(user: Id, change: Change, only: Option<set<Id>>) returns (affected: seq<Id>)
      ensures Lists(affected, Affected(State(), user, change, only))
    {
      affected := Enumerate(set n | n in notifications && notifications[n].user == user && Selects(change, notifications[n])
                                    && (only.Some? ==> n in only.value));
    }

    /** The bulk changes: an explicitly empty request does nothing, and neither does one that affects no row. */
    method ChangeNotifications(user: Id, change: Change, only: Option<set<Id>>) returns (affected: seq<Id>)
      modifies this
      ensures Lists(affected, Affected(old(State()), user, change, only))
      ensures forall n :: n in affected ==> n in old(notifications)
      ensures State() == ChangeTx(old(State()), user, change, affected)
      ensures Moved(old(notifications), notifications, change, Affected(old(State()), user, change, only), clock)
      ensures Affected(State(), user, change, only) == {}
    {
      hide ChangeTx, Moved, Affected, Lists, Selects;
      NothingToChange(State(), user, change);
      NoneAsked(State(), user, change);
      affected := [];
      if only != Some({}) { affected := AffectedIds(user, change, only); } else { NothingListed(); }
      ChangeEffect(State(), user, change, only, affected);
      if affected != [] { UpdateAndRecord(user, change, affected); }
    }

    // -------------------------------------------------------------- favorites

    method Find(user: Id, workspace: Id, target: Target) returns (found: Option<Id>)
      requires UniqueFavorites(favorites)
      ensures found == FindFavorite(State(), user, workspace, target)
    {
      var wanted := Favorite(user, workspace, target);
      var rest := favorites.Keys;
      while rest != {}
        invariant rest <= favorites.Keys
        invariant forall f :: f in favorites && f !in rest ==> favorites[f] != wanted
        decreases |rest|
      {
        var f :| f in rest;
        if favorites[f] == wanted {
          FindsTheFavorite(State(), f);
          return Some(f);
        }
        rest := rest - {f};
      }
      return None;
    }

    method AddFavorite(id: Id, user: Id, workspace: Id, target: Target) returns (f: Id)
      requires UniqueFavorites(favorites)
      modifies this
      ensures State() == AddFavoriteTx(old(State()), id, user, workspace, target)
      ensures f in favorites && favorites[f] == Favorite(user, workspace, target)
    {
      var found := Find(user, workspace, target);
      f := id;
      if found.Some? { f := found.value; } else { favorites := favorites[id := Favorite(user, workspace, target)]; }
      Write(Entry(Key(FavoriteKind, f), workspace, Some(user), Insert, Some(FavoriteData(favorites[f]))));
    }

    method RemoveFavorite(user: Id, workspace: Id, target: Target)
      requires UniqueFavorites(favorites)
      modifies this
      ensures State() == RemoveFavoriteTx(old(State()), user, workspace, target)
    {
      var found := Find(user, workspace, target);
      if found.None? { return; }
      favorites := favorites - {found.value};
      Write(Entry(Key(FavoriteKind, found.value), workspace, Some(user), Delete, None));
    }

    // -------------------------------------------------------------- the archive sweep

    /** One issue, one transaction: the stamp and the entry that reports it, under the team's workspace. */
    method ArchiveOne(i: Id, workspace: Id)
      requires i in issues && issues[i].workspace == workspace
      modifies this`issues, this`log
      ensures State() == ArchiveTx(old(State()), i)
    {
      issues := issues[i := issues[i].(archivedAt := Some(clock))];
      Write(Entry(Key(IssueKind, i), workspace, None, Delete, None));
    }

    method SweepTeam(team: Id, age: nat) returns (swept: seq<Id>)
      requires team in teams && forall i :: i in issues && issues[i].team == team ==> issues[i].workspace == teams[team]
      modifies this`issues, this`log
      ensures forall i :: i in swept <==> Selected(old(State()), i, age) && old(issues)[i].team == team
      ensures Distinct(swept) && (forall i :: i in swept ==> i in old(issues))
      ensures State() == ArchiveAll(old(State()), swept)
    {
      var selected := set i | i in issues && issues[i].team == team && issues[i].archivedAt.None?
                              && issues[i].status in statuses && statuses[issues[i].status].Closed()
                              && issues[i].updatedAt + age < clock;
      swept := Enumerate(selected);
      forall i ensures i in swept <==> i in selected { Listed(swept, selected, i); }
      for k := 0 to |swept|
        invariant forall i :: i in swept[..k] ==> i in old(issues)
        invariant State() == ArchiveAll(old(State()), swept[..k])
      {
        ArchiveAllRows(old(State()), swept[..k]);
        assert swept[k] in swept && swept[..k + 1][..k] == swept[..k];
        ArchiveOne(swept[k], teams[team]);
      }
      assert swept[..|swept|] == swept;
    }

    /** Every team in turn. Whatever an interrupted sweep has not reached is found by the next one, because a
        sweep leaves nothing that is due. */
    method ArchiveSweep(order: seq<Id>, ages: map<Id, nat>) returns (total: nat, archived: seq<Id>)
      requires Lists(order, teams.Keys) && TeamsRight(issues, teams)
      modifies this`issues, this`log
      ensures total == |archived| && Distinct(archived)
      ensures forall i :: i in archived <==> Due(old(State()), i, ages)
      ensures (forall i :: i in archived ==> i in old(issues)) && State() == ArchiveAll(old(State()), archived)
      ensures forall i :: !Due(State(), i, ages)
    {
      total, archived := 0, [];
      ghost var st0 := State();
      for k := 0 to |order|
        invariant SweptSoFar(st0, order[..k], ages, archived) && total == |archived|
        invariant State() == ArchiveAll(st0, archived)
      {
        var team := order[k];
        Listed(order, teams.Keys, team);
        if team in ages {
          ArchiveAllRows(st0, archived);
          var swept := SweepTeam(team, ages[team]);
          SweptNext(st0, order, k, ages, archived, swept);
          archived := archived + swept;
          total := total + |swept|;
        } else {
          SweptSkips(st0, order, k, ages, archived);
        }
      }
      SweptAll(st0, order, ages, archived);
    }
  }
}
