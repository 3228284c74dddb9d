/** The issue tables and the sync log: every mutation is one transaction that changes rows and appends the log
    entries that announce the change. Rows are maps, the log a sequence, and a failed operation is a
    transaction rolled back. Rows read back in no particular order come as listings. */
module IssueStore {
  import opened Listing
  import opened Wire

  type Id = Text

  type Time = nat

  datatype Category = Backlog | Unstarted | Started | Completed | Cancelled {
    predicate Closed() {
      Completed? || Cancelled?
    }
  }

  /** `content` stands for the columns no rule below looks at: title, description, priority, assignee and so on. */
  datatype Issue = Issue(
    workspace: Id, team: Id, number: int, status: Id, content: Text, labels: set<Id>, rank: real,
    startedAt: Option<Time>, completedAt: Option<Time>, archivedAt: Option<Time>, updatedAt: Time)

  datatype Comment = Comment(issue: Id, author: Id, body: Text)

  datatype RelationKind = Blocks | Parent | Other

  datatype Relation = Relation(source: Id, target: Id, kind: RelationKind)

  datatype Notification = Notification(workspace: Id, user: Id, issue: Id, read: bool, deletedAt: Option<Time>)

  datatype Target = IssueTarget(id: Id) | OtherTarget(kind: Text, id: Id)

  datatype Favorite = Favorite(user: Id, workspace: Id, target: Target)

  datatype StatusChange = StatusChange(issue: Id, before: Id, after: Id)

  datatype Kind = IssueKind | CommentKind | RelationKind | NotificationKind | FavoriteKind | ActivityKind

  datatype Key = Key(kind: Kind, id: Id)

  datatype Payload =
    | IssueData(issue: Issue, isBlocked: bool)
    | CommentData(comment: Comment)
    | RelationData(relation: Relation)
    | NotificationData(notification: Notification)
    | FavoriteData(favorite: Favorite)
    | ActivityData

  datatype Action = Insert | Update | Delete

  /** `audience` is a user for a private row, and nobody in particular for one the whole workspace sees. */
  datatype Entry = Entry(key: Key, workspace: Id, audience: Option<Id>, action: Action, data: Option<Payload>)

  /** `statuses`, `teams` and `defaults` are what the neighbouring services answer: the category of a status,
      the workspace of a team and the first backlog status of a workspace. `born` remembers the status an
      issue was created with. */
  datatype Store = Store(
    issues: map<Id, Issue>, comments: map<Id, Comment>, relations: map<Id, Relation>,
    notifications: map<Id, Notification>, favorites: map<Id, Favorite>,
    statuses: map<Id, Category>, teams: map<Id, Id>, defaults: map<Id, Id>,
    log: seq<Entry>, changes: seq<StatusChange>, born: map<Id, Id>, clock: Time)

  datatype Outcome = Done | NotFound | Forbidden | Rejected

  datatype Updates = Updates(status: Option<Id>, team: Option<Id>, content: Option<Text>, rank: Option<real>)

  datatype Change = Read | Unread | SoftDelete | Restore

  datatype Step =
    | CreateIssue(id: Id, workspace: Id, team: Id, content: Text, labels: set<Id>)
    | UpdateIssue(id: Id, updates: Updates, blocked: seq<Id>)
    | DeleteIssue(id: Id, comments: seq<Id>, relations: seq<Id>, notifications: seq<Id>, favorites: seq<Id>)
    | SetLabels(id: Id, labels: set<Id>)
    | SetSortOrder(id: Id, rank: real)
    | Archive(id: Id, age: nat)
    | CreateComment(id: Id, issue: Id, author: Id, body: Text)
    | EditComment(id: Id, user: Id, body: Text)
    | DeleteComment(id: Id, user: Id)
    | Notify(id: Id, issue: Id, user: Id)
    | MarkRead(id: Id, user: Id)
    | ChangeNotifications(user: Id, change: Change, only: Option<set<Id>>, affected: seq<Id>)
    | AddFavorite(id: Id, user: Id, workspace: Id, target: Target)
    | RemoveFavorite(user: Id, workspace: Id, target: Target)
    | Relate(id: Id, relation: Relation)
    | Unrelate(id: Id)

  // ---------------------------------------------------------------- reading rows

  predicate ClosedStatus(st: Store, status: Id) {
    status in st.statuses && st.statuses[status].Closed()
  }

  predicate OpenBlocker(st: Store, r: Relation, i: Id) {
    r.kind == Blocks && r.target == i && r.source in st.issues && !ClosedStatus(st, st.issues[r.source].status)
  }

  /** The derived flag clients are shown: some open issue blocks this one. */
  predicate IsBlocked(st: Store, i: Id) {
    exists r :: r in st.relations && OpenBlocker(st, st.relations[r], i)
  }

  function BlockedBy(st: Store, i: Id): set<Id> {
    set r | r in st.relations && st.relations[r].kind == Blocks && st.relations[r].source == i :: st.relations[r].target
  }

  /** The highest number in use in a team, or 0. */
  ghost function Highest(issues: map<Id, Issue>, ids: set<Id>, team: Id): (n: int)
    requires ids <= issues.Keys
    ensures n >= 0 && forall i :: i in ids && issues[i].team == team ==> issues[i].number <= n
    ensures n == 0 || exists i :: i in ids && issues[i].team == team && issues[i].number == n
  {
    if ids == {} then 0
    else
      var i :| i in ids;
      var n := Highest(issues, ids - {i}, team);
      if issues[i].team == team && issues[i].number > n then issues[i].number else n
  }

  ghost function NextNumber(st: Store, team: Id): int {
    Highest(st.issues, st.issues.Keys, team) + 1
  }

  function IssuePayload(st: Store, i: Id): Payload
    requires i in st.issues
  {
    IssueData(st.issues[i], IsBlocked(st, i))
  }

  function IssueEntry(st: Store, i: Id, workspace: Id, action: Action): Entry
    requires i in st.issues
  {
    Entry(Key(IssueKind, i), workspace, None, action, Some(IssuePayload(st, i)))
  }

  function Gone(kind: Kind, id: Id, workspace: Id, audience: Option<Id>): Entry {
    Entry(Key(kind, id), workspace, audience, Delete, None)
  }

  function Record(st: Store, entries: seq<Entry>): Store {
    st.(log := st.log + entries)
  }

  /** Every issue is in a team of its own workspace. */
  predicate TeamsRight(issues: map<Id, Issue>, teams: map<Id, Id>) {
    forall i {:trigger issues[i]} :: i in issues ==> issues[i].team in teams && teams[issues[i].team] == issues[i].workspace
  }

  // ---------------------------------------------------------------- issues

  ghost function CreateIssueTx(st: Store, id: Id, workspace: Id, team: Id, content: Text, labels: set<Id>): (Store, Outcome) {
    if workspace !in st.defaults then (st, NotFound)
    else if team !in st.teams then (st, Rejected)
    else
      var status := st.defaults[workspace];
      var x := Issue(workspace, team, NextNumber(st, team), status, content, labels, 0.0, None, None, None, st.clock);
      var st1 := st.(issues := st.issues[id := x], born := st.born[id := status]);
      (Record(st1, [IssueEntry(st1, id, workspace, Insert)]), Done)
  }

  /** When an issue is completed: set on entering a closed status, kept between closed ones, cleared on leaving. */
  function CompletedAt(x: Issue, category: Category, now: Time): Option<Time> {
    if category.Closed() then (if x.completedAt.None? then Some(now) else x.completedAt) else None
  }

  function StartedAt(x: Issue, category: Category, now: Time): Option<Time> {
    match category
    case Started => if x.startedAt.None? then Some(now) else x.startedAt
    case Backlog => None
    case Unstarted => None
    case _ => x.startedAt
  }

  ghost function Patched(st: Store, x: Issue, u: Updates): Issue
    requires u.status.Some? ==> u.status.value in st.statuses
  {
    Issue(
      x.workspace,
      if u.team.Some? then u.team.value else x.team,
      if u.team.Some? then NextNumber(st, u.team.value) else x.number,
      if u.status.Some? then u.status.value else x.status,
      if u.content.Some? then u.content.value else x.content,
      x.labels,
      if u.rank.Some? then u.rank.value else x.rank,
      if u.status.Some? then StartedAt(x, st.statuses[u.status.value], st.clock) else x.startedAt,
      if u.status.Some? then CompletedAt(x, st.statuses[u.status.value], st.clock) else x.completedAt,
      None,
      st.clock)
  }

  /** Update entries for the issues in `blocked` that still exist. */
  function BlockedEntries(st: Store, workspace: Id, blocked: seq<Id>): seq<Entry> {
    if blocked == [] then []
    else
      BlockedEntries(st, workspace, blocked[..|blocked| - 1])
      + (if blocked[|blocked| - 1] in st.issues then [IssueEntry(st, blocked[|blocked| - 1], workspace, Update)] else [])
  }

  /** Payloads look at rows, not at the log. */
  lemma {:induction false} SameRowsSameEntries(st: Store, st': Store, workspace: Id, blocked: seq<Id>)
    requires st.issues == st'.issues && st.relations == st'.relations && st.statuses == st'.statuses
    ensures BlockedEntries(st, workspace, blocked) == BlockedEntries(st', workspace, blocked)
    ensures forall i :: IsBlocked(st, i) == IsBlocked(st', i)
  {
    forall i ensures IsBlocked(st, i) == IsBlocked(st', i) {
      assert forall r :: r in st.relations ==> OpenBlocker(st, st.relations[r], i) == OpenBlocker(st', st'.relations[r], i);
    }
    if blocked != [] { SameRowsSameEntries(st, st', workspace, blocked[..|blocked| - 1]); }
  }

  function StatusChanged(x: Issue, y: Issue, i: Id): seq<StatusChange> {
    if x.status != y.status then [StatusChange(i, x.status, y.status)] else []
  }

  function ChangeEntries(changes: seq<StatusChange>, workspace: Id): seq<Entry> {
    seq(|changes|, k requires 0 <= k < |changes| => Entry(Key(ActivityKind, changes[k].issue), workspace, None, Insert, Some(ActivityData)))
  }

  predicate GoodUpdates(st: Store, u: Updates) {
    && (u.status.Some? ==> u.status.value in st.statuses)
    && (u.team.Some? ==> u.team.value in st.teams)
  }

  ghost function UpdateIssueTx(st: Store, i: Id, u: Updates, blocked: seq<Id>): (Store, Outcome) {
    if i !in st.issues then (st, NotFound)
    else if !GoodUpdates(st, u) then (st, Rejected)
    else
      var x := st.issues[i];
      var y := Patched(st, x, u);
      var changed := StatusChanged(x, y, i);
      var st1 := st.(issues := st.issues[i := y], changes := st.changes + changed);
      (Record(st1, [IssueEntry(st1, i, x.workspace, Update)] + ChangeEntries(changed, x.workspace)
                   + BlockedEntries(st1, x.workspace, blocked)), Done)
  }

  /** What disappears with an issue, by the database's own cascades and by hand for favorites. */
  function CommentsOf(st: Store, i: Id): set<Id> {
    set c | c in st.comments && st.comments[c].issue == i
  }

  function RelationsOf(st: Store, i: Id): set<Id> {
    set r | r in st.relations && (st.relations[r].source == i || st.relations[r].target == i)
  }

  function NotificationsOf(st: Store, i: Id): set<Id> {
    set n | n in st.notifications && st.notifications[n].issue == i
  }

  function FavoritesOf(st: Store, i: Id): set<Id> {
    set f | f in st.favorites && st.favorites[f].target == IssueTarget(i)
  }

  function GoneEntries(kind: Kind, ids: seq<Id>, workspace: Id): seq<Entry> {
    seq(|ids|, k requires 0 <= k < |ids| => Gone(kind, ids[k], workspace, None))
  }

  /** Each private row's entry goes to the one member who held it. */
  function GoneNotifications(st: Store, ids: seq<Id>, workspace: Id): seq<Entry>
    requires forall n :: n in ids ==> n in st.notifications
  {
    seq(|ids|, k requires 0 <= k < |ids| => Gone(NotificationKind, ids[k], workspace, Some(st.notifications[ids[k]].user)))
  }

  /** A favorite is filed under its own workspace, which need not be that of the issue. */
  function GoneFavorites(st: Store, ids: seq<Id>): seq<Entry>
    requires forall f :: f in ids ==> f in st.favorites
  {
    seq(|ids|, k requires 0 <= k < |ids| =>
      Gone(FavoriteKind, ids[k], st.favorites[ids[k]].workspace, Some(st.favorites[ids[k]].user)))
  }

  function WithoutIssue(st: Store, i: Id): Store {
    st.(issues := st.issues - {i}, comments := st.comments - CommentsOf(st, i), relations := st.relations - RelationsOf(st, i),
        notifications := st.notifications - NotificationsOf(st, i), favorites := st.favorites - FavoritesOf(st, i))
  }

  function DeleteIssueTx(st: Store, i: Id, comments: seq<Id>, relations: seq<Id>, notifications: seq<Id>, favorites: seq<Id>)
    : (Store, Outcome)
    requires forall n :: n in notifications ==> n in st.notifications
    requires forall f :: f in favorites ==> f in st.favorites
  {
    if i !in st.issues then (st, NotFound)
    else
      var w := st.issues[i].workspace;
      (Record(WithoutIssue(st, i),
              [Gone(IssueKind, i, w, None)] + GoneEntries(CommentKind, comments, w) + GoneEntries(RelationKind, relations, w)
              + GoneNotifications(st, notifications, w) + GoneFavorites(st, favorites)), Done)
  }

  /** One issue rewritten and announced. */
  function Rewritten(st: Store, i: Id, x: Issue): Store {
    var st1 := st.(issues := st.issues[i := x]);
    Record(st1, [IssueEntry(st1, i, x.workspace, Update)])
  }

  /** Relabelling leaves `archived_at` alone, and sends the issue all the same. */
  function SetLabelsTx(st: Store, i: Id, labels: set<Id>): (Store, Outcome) {
    if i !in st.issues then (st, NotFound) else (Rewritten(st, i, st.issues[i].(labels := labels)), Done)
  }

  function SetSortOrderTx(st: Store, i: Id, rank: real): (Store, Outcome) {
    if i !in st.issues then (st, NotFound)
    else (Rewritten(st, i, st.issues[i].(rank := rank, archivedAt := None, updatedAt := st.clock)), Done)
  }

  /** Whether the sweep of a team that archives after `age` selects an issue: closed, and last updated longer ago. */
  predicate Selected(st: Store, i: Id, age: nat) {
    && i in st.issues && st.issues[i].archivedAt.None? && ClosedStatus(st, st.issues[i].status)
    && st.issues[i].updatedAt + age < st.clock
  }

  /** One issue of a sweep: the stamp and the entry that takes it off every client. */
  function ArchiveTx(st: Store, i: Id): Store
    requires i in st.issues
  {
    var x := st.issues[i];
    Record(st.(issues := st.issues[i := x.(archivedAt := Some(st.clock))]), [Gone(IssueKind, i, x.workspace, None)])
  }

  function ArchiveAll(st: Store, ids: seq<Id>): (after: Store)
    requires forall i :: i in ids ==> i in st.issues
    ensures after.issues.Keys == st.issues.Keys
  {
    if ids == [] then st else ArchiveTx(ArchiveAll(st, ids[..|ids| - 1]), ids[|ids| - 1])
  }

  /** What a sweep does to the rows: each issue it names gets the stamp, and that is all. */
  lemma {:induction false} ArchiveAllRows(st: Store, ids: seq<Id>)
    requires forall i :: i in ids ==> i in st.issues
    ensures var after := ArchiveAll(st, ids);
            && after == st.(issues := after.issues, log := after.log)
            && forall i {:trigger after.issues[i]} :: i in st.issues ==>
                 after.issues[i] == if i in ids then st.issues[i].(archivedAt := Some(st.clock)) else st.issues[i]
  {
    if ids != [] { ArchiveAllRows(st, ids[..|ids| - 1]); }
  }

  // ---------------------------------------------------------------- comments

  function CommentEntry(st: Store, c: Id, workspace: Id, action: Action): Entry
    requires c in st.comments
  {
    Entry(Key(CommentKind, c), workspace, None, action, Some(CommentData(st.comments[c])))
  }

  function CreateCommentTx(st: Store, c: Id, i: Id, author: Id, body: Text): (Store, Outcome) {
    if i !in st.issues then (st, NotFound)
    else
      var st1 := st.(comments := st.comments[c := Comment(i, author, body)]);
      (Record(st1, [CommentEntry(st1, c, st.issues[i].workspace, Insert)]), Done)
  }

  function EditCommentTx(st: Store, c: Id, user: Id, body: Text): (Store, Outcome) {
    if c !in st.comments then (st, NotFound)
    else if st.comments[c].author != user then (st, Forbidden)
    else if st.comments[c].issue !in st.issues then (st, NotFound)
    else
      var st1 := st.(comments := st.comments[c := st.comments[c].(body := body)]);
      (Record(st1, [CommentEntry(st1, c, st.issues[st.comments[c].issue].workspace, Update)]), Done)
  }

  function DeleteCommentTx(st: Store, c: Id, user: Id): (Store, Outcome) {
    if c !in st.comments then (st, NotFound)
    else if st.comments[c].author != user then (st, Forbidden)
    else if st.comments[c].issue !in st.issues then (st, NotFound)
    else
      (Record(st.(comments := st.comments - {c}),
              [Gone(CommentKind, c, st.issues[st.comments[c].issue].workspace, None)]), Done)
  }

  // ---------------------------------------------------------------- notifications

  function NotificationEntry(st: Store, n: Id, user: Id, action: Action): Entry
    requires n in st.notifications
  {
    Entry(Key(NotificationKind, n), st.notifications[n].workspace, Some(user), action, Some(NotificationData(st.notifications[n])))
  }

  /** Every caller notifies under the workspace of the issue. */
  function NotifyTx(st: Store, n: Id, i: Id, user: Id): (Store, Outcome) {
    if i !in st.issues then (st, Rejected)
    else
      var st1 := st.(notifications := st.notifications[n := Notification(st.issues[i].workspace, user, i, false, None)]);
      (Record(st1, [NotificationEntry(st1, n, user, Insert)]), Done)
  }

  predicate Selects(change: Change, n: Notification) {
    match change
    case Read => !n.read && n.deletedAt.None?
    case Unread => n.read && n.deletedAt.None?
    case SoftDelete => n.deletedAt.None?
    case Restore => n.deletedAt.Some?
  }

  function Changed(change: Change, n: Notification, now: Time): Notification {
    match change
    case Read => n.(read := true)
    case Unread => n.(read := false)
    case SoftDelete => n.(deletedAt := Some(now))
    case Restore => n.(deletedAt := None)
  }

  /** The rows a change is about to touch: the user's own, in the state the change moves, among those asked for. */
  function Affected(st: Store, user: Id, change: Change, only: Option<set<Id>>): set<Id> {
    set n | n in st.notifications && st.notifications[n].user == user && Selects(change, st.notifications[n])
            && (only.Some? ==> n in only.value)
  }

  function NotificationEntries(st: Store, user: Id, ids: seq<Id>): seq<Entry>
    requires forall n :: n in ids ==> n in st.notifications
  {
    seq(|ids|, k requires 0 <= k < |ids| => NotificationEntry(st, ids[k], user, Update))
  }

  /** Apply the change to exactly `ids` and announce each row in its new state. */
  function ChangeTx(st: Store, user: Id, change: Change, ids: seq<Id>): Store
    requires forall n :: n in ids ==> n in st.notifications
  {
    var st1 := st.(notifications :=
      map n | n in st.notifications :: if n in ids then Changed(change, st.notifications[n], st.clock) else st.notifications[n]);
    Record(st1, NotificationEntries(st1, user, ids))
  }

  /** Marking one notification read asks only that it is not deleted, so marking it again is announced again.
      A deleted one is reported as somebody else's. */
  function MarkReadTx(st: Store, n: Id, user: Id): (Store, Outcome) {
    if n !in st.notifications then (st, NotFound)
    else if st.notifications[n].user != user || st.notifications[n].deletedAt.Some? then (st, Forbidden)
    else (ChangeTx(st, user, Read, [n]), Done)
  }

  // ---------------------------------------------------------------- favorites

  /** The unique index on favorites. */
  ghost predicate UniqueFavorites(favorites: map<Id, Favorite>) {
    forall f, g {:trigger favorites[f], favorites[g]} ::
      f in favorites && g in favorites && favorites[f] == favorites[g] ==> f == g
  }

  ghost function FindFavorite(st: Store, user: Id, workspace: Id, target: Target): (f: Option<Id>)
    ensures f.Some? ==> f.value in st.favorites && st.favorites[f.value] == Favorite(user, workspace, target)
    ensures f.None? ==> forall g :: g in st.favorites ==> st.favorites[g] != Favorite(user, workspace, target)
  {
    if g :| g in st.favorites && st.favorites[g] == Favorite(user, workspace, target) then Some(g) else None
  }

  lemma FindsTheFavorite(st: Store, f: Id)
    requires UniqueFavorites(st.favorites) && f in st.favorites
    ensures var x := st.favorites[f]; FindFavorite(st, x.user, x.workspace, x.target) == Some(f)
  {
  }

  function FavoriteEntry(st: Store, f: Id, action: Action): Entry
    requires f in st.favorites
  {
    Entry(Key(FavoriteKind, f), st.favorites[f].workspace, Some(st.favorites[f].user), action, Some(FavoriteData(st.favorites[f])))
  }

  /** Pinning what is pinned already inserts nothing and announces the existing row. */
  ghost function AddFavoriteTx(st: Store, id: Id, user: Id, workspace: Id, target: Target): Store {
    var found := FindFavorite(st, user, workspace, target);
    if found.Some? then Record(st, [FavoriteEntry(st, found.value, Insert)])
    else
      var st1 := st.(favorites := st.favorites[id := Favorite(user, workspace, target)]);
      Record(st1, [FavoriteEntry(st1, id, Insert)])
  }

  ghost function RemoveFavoriteTx(st: Store, user: Id, workspace: Id, target: Target): Store {
    var found := FindFavorite(st, user, workspace, target);
    if found.None? then st
    else Record(st.(favorites := st.favorites - {found.value}), [Gone(FavoriteKind, found.value, workspace, Some(user))])
  }

  // ---------------------------------------------------------------- steps

  predicate Unused(st: Store, key: Key) {
    && (forall k :: 0 <= k < |st.log| ==> st.log[k].key != key)
    && match key.kind
       case IssueKind => key.id !in st.issues && key.id !in st.born
       case CommentKind => key.id !in st.comments
       case RelationKind => key.id !in st.relations
       case NotificationKind => key.id !in st.notifications
       case FavoriteKind => key.id !in st.favorites
       case ActivityKind => true
  }

  /** Issues in the list are in the workspace of `i`, as far as they still exist. */
  predicate ListedTogether(st: Store, i: Id, blocked: seq<Id>)
    requires i in st.issues
  {
    forall x :: x in blocked && x in st.issues ==> st.issues[x].workspace == st.issues[i].workspace
  }

  /** New rows get fresh ids, listings made inside a transaction list what is there, teams and relations stay within
      a workspace, no issue is related to itself, and the archive sweep stamps what it has just selected. */
  predicate Allowed(st: Store, step: Step) {
    match step
    case CreateIssue(i, w, team, _, _) => Unused(st, Key(IssueKind, i)) && (team in st.teams ==> st.teams[team] == w)
    case UpdateIssue(i, u, blocked) =>
      i in st.issues ==>
        && ListedTogether(st, i, blocked)
        && (u.team.Some? && u.team.value in st.teams ==> st.teams[u.team.value] == st.issues[i].workspace)
    case DeleteIssue(i, comments, relations, notifications, favorites) =>
      && Lists(comments, CommentsOf(st, i)) && Lists(relations, RelationsOf(st, i))
      && Lists(notifications, NotificationsOf(st, i)) && Lists(favorites, FavoritesOf(st, i))
    case Archive(i, age) => Selected(st, i, age)
    case CreateComment(c, _, _, _) => Unused(st, Key(CommentKind, c))
    case Notify(n, _, _) => Unused(st, Key(NotificationKind, n))
    case ChangeNotifications(user, change, only, affected) => Lists(affected, Affected(st, user, change, only))
    case AddFavorite(f, _, _, _) => Unused(st, Key(FavoriteKind, f))
    case Relate(r, relation) =>
      && Unused(st, Key(RelationKind, r))
      && relation.source in st.issues && relation.target in st.issues && relation.source != relation.target
      && st.issues[relation.source].workspace == st.issues[relation.target].workspace
    case _ => true
  }

  function UnrelateTx(st: Store, r: Id): Store {
    if r !in st.relations || st.relations[r].source !in st.issues then st
    else
      Record(st.(relations := st.relations - {r}),
             [Gone(RelationKind, r, st.issues[st.relations[r].source].workspace, None)])
  }

  lemma ListedRows(st: Store, step: Step)
    requires Allowed(st, step)
    ensures step.DeleteIssue? ==> forall n :: n in step.notifications ==> n in NotificationsOf(st, step.id)
    ensures step.DeleteIssue? ==> forall f :: f in step.favorites ==> f in FavoritesOf(st, step.id)
    ensures step.ChangeNotifications? ==>
              forall n :: n in step.affected ==> n in Affected(st, step.user, step.change, step.only)
  {
    if step.DeleteIssue? {
      forall n | n in step.notifications ensures n in NotificationsOf(st, step.id) {
        Listed(step.notifications, NotificationsOf(st, step.id), n);
      }
      forall f | f in step.favorites ensures f in FavoritesOf(st, step.id) { Listed(step.favorites, FavoritesOf(st, step.id), f); }
    }
    if step.ChangeNotifications? {
      forall n | n in step.affected ensures n in Affected(st, step.user, step.change, step.only) {
        Listed(step.affected, Affected(st, step.user, step.change, step.only), n);
      }
    }
  }

  ghost function Apply(st: Store, step: Step): Store
    requires Allowed(st, step)
  {
    match step
    case CreateIssue(i, w, team, content, labels) => CreateIssueTx(st, i, w, team, content, labels).0
    case UpdateIssue(i, u, blocked) => UpdateIssueTx(st, i, u, blocked).0
    case DeleteIssue(i, comments, relations, notifications, favorites) =>
      ListedRows(st, step);
      DeleteIssueTx(st, i, comments, relations, notifications, favorites).0
    case SetLabels(i, labels) => SetLabelsTx(st, i, labels).0
    case SetSortOrder(i, rank) => SetSortOrderTx(st, i, rank).0
    case Archive(i, _) => ArchiveTx(st, i)
    case CreateComment(c, i, author, body) => CreateCommentTx(st, c, i, author, body).0
    case EditComment(c, user, body) => EditCommentTx(st, c, user, body).0
    case DeleteComment(c, user) => DeleteCommentTx(st, c, user).0
    case Notify(n, i, user) => NotifyTx(st, n, i, user).0
    case MarkRead(n, user) => MarkReadTx(st, n, user).0
    case ChangeNotifications(user, change, _, affected) =>
      ListedRows(st, step);
      ChangeTx(st, user, change, affected)
    case AddFavorite(f, user, w, target) => AddFavoriteTx(st, f, user, w, target)
    case RemoveFavorite(user, w, target) => RemoveFavoriteTx(st, user, w, target)
    case Relate(r, relation) =>
      Record(st.(relations := st.relations[r := relation]),
             [Entry(Key(RelationKind, r), st.issues[relation.source].workspace, None, Insert, Some(RelationData(relation)))])
    case Unrelate(r) => UnrelateTx(st, r)
  }

  /** Time passes between transactions and never runs back. */
  ghost predicate Stepped(st: Store, step: Step, now: Time, st': Store) {
    now >= st.clock && Allowed(st.(clock := now), step) && st' == Apply(st.(clock := now), step)
  }

  predicate Empty(st: Store) {
    && st.issues == map[] && st.comments == map[] && st.relations == map[] && st.notifications == map[]
    && st.favorites == map[] && st.log == [] && st.changes == [] && st.born == map[]
    && (forall w :: w in st.defaults ==> st.defaults[w] in st.statuses && st.statuses[st.defaults[w]] == Backlog)
  }

  predicate ReadAt(st: Store, step: Step)
    requires step.UpdateIssue?
  {
    Lists(step.blocked, if step.updates.status.Some? then BlockedBy(st, step.id) else {})
  }

  /** An update lists the issues it blocks before its transaction begins, in some earlier state. */
  ghost predicate ReadBefore(states: seq<Store>, k: nat, step: Step)
    requires k < |states|
  {
    step.UpdateIssue? ==> exists j: nat {:trigger ReadAt(states[j], step)} :: j <= k && ReadAt(states[j], step)
  }

  ghost predicate IsRun(states: seq<Store>, steps: seq<Step>, times: seq<Time>) {
    && |states| == |steps| + 1 == |times| + 1
    && Empty(states[0])
    && forall k {:trigger steps[k]} :: 0 <= k < |steps| ==>
         Stepped(states[k], steps[k], times[k], states[k + 1]) && ReadBefore(states, k, steps[k])
  }
}
