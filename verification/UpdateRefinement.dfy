/** The row an update leaves in the issue table is the row its statement computes. */
module UpdateRefinement {
  import opened Wire
  import S = IssueStore
  import U = UpdateCompiler

  function CategoryName(c: S.Category): string {
    match c
    case Backlog => "backlog"
    case Unstarted => "unstarted"
    case Started => "started"
    case Completed => "completed"
    case Cancelled => "cancelled"
  }

  function TimeOrNull(t: Option<S.Time>): U.Value {
    match t
    case None => U.Null
    case Some(t) => U.Time(t)
  }

  /** An issue as a row; `content` stands for the title, and `rank` writes a sort order as a value. */
  function RowOf(x: S.Issue, rank: real -> U.Value): U.Row {
    map[U.Title := U.Str(x.content), U.StatusId := U.Str(x.status), U.SortOrder := rank(x.rank), U.TeamId := U.Str(x.team),
        U.Number := U.Num(x.number), U.StartedAt := TimeOrNull(x.startedAt), U.CompletedAt := TimeOrNull(x.completedAt),
        U.ArchivedAt := TimeOrNull(x.archivedAt), U.UpdatedAt := U.Time(x.updatedAt)]
  }

  function Given(t: Option<Text>): Option<U.Value> {
    if t.Some? then Some(U.Str(t.value)) else None
  }

  function Fields(u: S.Updates, rank: real -> U.Value): U.Updates {
    U.Updates(Given(u.content), None, Given(u.status), None, None, None, None, None, None,
              if u.rank.Some? then Some(rank(u.rank.value)) else None, Given(u.team))
  }

  /** The database the statement runs on is the store. */
  ghost predicate Describes(db: U.Database, st: S.Store) {
    && db.now == st.clock
    && (forall s :: s in st.statuses ==> U.CategoryOf(db, U.Str(s)) == CategoryName(st.statuses[s]))
    && forall t :: U.HighestIn(db, U.Str(t)) == S.Highest(st.issues, st.issues.Keys, t)
  }

  lemma StatusTimes(st: S.Store, x: S.Issue, status: S.Id, db: U.Database)
    requires Describes(db, st) && status in st.statuses
    ensures var category := U.CategoryOf(db, U.Str(status));
            && TimeOrNull(S.StartedAt(x, st.statuses[status], st.clock)) == U.Started(TimeOrNull(x.startedAt), category, db.now)
            && TimeOrNull(S.CompletedAt(x, st.statuses[status], st.clock)) == U.Completed(TimeOrNull(x.completedAt), category, db.now)
  {
  }

  predicate StoreColumn(c: U.Column) {
    c in {U.Title, U.StatusId, U.SortOrder, U.TeamId, U.Number, U.StartedAt, U.CompletedAt, U.ArchivedAt, U.UpdatedAt}
  }

  /** No other columns are given. */
  predicate StoreFields(u: U.Updates) {
    && u.description.None? && u.priority.None? && u.assignee.None? && u.dueDate.None? && u.project.None?
    && u.milestone.None? && u.estimate.None?
  }

  function Or(given: Option<U.Value>, was: U.Value): U.Value {
    if given.Some? then given.value else was
  }

  /** What one column is to be. */
  function ColumnAfter(row: U.Row, u: U.Updates, db: U.Database, c: U.Column): U.Value
    requires c in row
  {
    match c
    case Title => Or(u.title, row[c])
    case StatusId => Or(u.status, row[c])
    case SortOrder => Or(u.sortOrder, row[c])
    case TeamId => Or(u.team, row[c])
    case Number => if u.team.Some? then U.Num(U.HighestIn(db, u.team.value) + 1) else row[c]
    case StartedAt => if u.status.Some? then U.Started(row[c], U.CategoryOf(db, u.status.value), db.now) else row[c]
    case CompletedAt => if u.status.Some? then U.Completed(row[c], U.CategoryOf(db, u.status.value), db.now) else row[c]
    case ArchivedAt => U.Null
    case UpdatedAt => U.Time(db.now)
    case _ => row[c]
  }

  lemma UpdatedKeys(row: U.Row, u: U.Updates, db: U.Database)
    requires StoreFields(u) && forall d :: StoreColumn(d) <==> d in row
    ensures U.Updated(row, u, db).Keys == row.Keys
  {
    hide U.Started, U.Completed, U.CategoryOf, U.HighestIn;
  }

  lemma UpdatedTexts(row: U.Row, u: U.Updates, db: U.Database)
    requires StoreFields(u) && forall d :: StoreColumn(d) <==> d in row
    ensures var after := U.Updated(row, u, db);
            forall c :: c in row && c in {U.Title, U.StatusId, U.SortOrder} ==> c in after && after[c] == ColumnAfter(row, u, db, c)
  {
    hide U.Started, U.Completed, U.CategoryOf, U.HighestIn;
  }

  lemma UpdatedTeam(row: U.Row, u: U.Updates, db: U.Database)
    requires StoreFields(u) && forall d :: StoreColumn(d) <==> d in row
    ensures var after := U.Updated(row, u, db);
            forall c :: c in row && c in {U.TeamId, U.Number} ==> c in after && after[c] == ColumnAfter(row, u, db, c)
  {
    hide U.Started, U.Completed, U.CategoryOf, U.HighestIn;
  }

  lemma UpdatedTimes(row: U.Row, u: U.Updates, db: U.Database)
    requires StoreFields(u) && forall d :: StoreColumn(d) <==> d in row
    ensures var after := U.Updated(row, u, db);
            forall c :: c in row && c in {U.StartedAt, U.CompletedAt} ==> c in after && after[c] == ColumnAfter(row, u, db, c)
  {
    hide U.Started, U.Completed, U.CategoryOf, U.HighestIn;
  }

  lemma UpdatedStamps(row: U.Row, u: U.Updates, db: U.Database)
    requires StoreFields(u) && forall d :: StoreColumn(d) <==> d in row
    ensures var after := U.Updated(row, u, db);
            forall c :: c in row && c in {U.ArchivedAt, U.UpdatedAt} ==> c in after && after[c] == ColumnAfter(row, u, db, c)
  {
    hide U.Started, U.Completed, U.CategoryOf, U.HighestIn;
  }

  lemma UpdatedColumn(row: U.Row, u: U.Updates, db: U.Database, c: U.Column)
    requires StoreFields(u) && forall d :: StoreColumn(d) <==> d in row
    ensures var after := U.Updated(row, u, db);
            (c in after <==> StoreColumn(c)) && (c in after ==> after[c] == ColumnAfter(row, u, db, c))
  {
    UpdatedKeys(row, u, db);
    UpdatedTexts(row, u, db);
    UpdatedTeam(row, u, db);
    UpdatedTimes(row, u, db);
    UpdatedStamps(row, u, db);
    hide U.Updated, ColumnAfter;
  }

  lemma RowColumns(x: S.Issue, rank: real -> U.Value)
    ensures var row := RowOf(x, rank);
            && (forall c :: c in row <==> StoreColumn(c))
            && row[U.Title] == U.Str(x.content) && row[U.StatusId] == U.Str(x.status) && row[U.SortOrder] == rank(x.rank)
            && row[U.TeamId] == U.Str(x.team) && row[U.Number] == U.Num(x.number) && row[U.StartedAt] == TimeOrNull(x.startedAt)
            && row[U.CompletedAt] == TimeOrNull(x.completedAt) && row[U.ArchivedAt] == TimeOrNull(x.archivedAt)
            && row[U.UpdatedAt] == U.Time(x.updatedAt)
  {
  }

  /** `y` is `x` with these updates. */
  ghost predicate Applies(x: S.Issue, y: S.Issue, u: S.Updates, db: U.Database) {
    && y.content == (if u.content.Some? then u.content.value else x.content)
    && y.status == (if u.status.Some? then u.status.value else x.status)
    && y.rank == (if u.rank.Some? then u.rank.value else x.rank)
    && y.team == (if u.team.Some? then u.team.value else x.team)
    && y.number == (if u.team.Some? then U.HighestIn(db, U.Str(u.team.value)) + 1 else x.number)
    && TimeOrNull(y.startedAt)
       == (if u.status.Some? then U.Started(TimeOrNull(x.startedAt), U.CategoryOf(db, U.Str(u.status.value)), db.now)
           else TimeOrNull(x.startedAt))
    && TimeOrNull(y.completedAt)
       == (if u.status.Some? then U.Completed(TimeOrNull(x.completedAt), U.CategoryOf(db, U.Str(u.status.value)), db.now)
           else TimeOrNull(x.completedAt))
    && TimeOrNull(y.archivedAt) == U.Null && y.updatedAt == db.now
  }

  lemma PatchedApplies(st: S.Store, x: S.Issue, u: S.Updates, db: U.Database)
    requires Describes(db, st) && S.GoodUpdates(st, u)
    ensures Applies(x, S.Patched(st, x, u), u, db)
  {
    if u.status.Some? { StatusTimes(st, x, u.status.value, db); }
    hide S.StartedAt, S.CompletedAt, U.Started, U.Completed, U.CategoryOf, U.HighestIn;
  }

  lemma AppliedColumn(x: S.Issue, y: S.Issue, u: S.Updates, db: U.Database, rank: real -> U.Value, c: U.Column)
    requires Applies(x, y, u, db) && StoreColumn(c) && c in RowOf(x, rank) && c in RowOf(y, rank)
    ensures RowOf(y, rank)[c] == ColumnAfter(RowOf(x, rank), Fields(u, rank), db, c)
  {
    hide RowOf, TimeOrNull, U.Started, U.Completed, U.CategoryOf, U.HighestIn;
    RowColumns(x, rank);
    RowColumns(y, rank);
  }

  /** Column by column, for every update the store allows. */
  lemma PatchedIsUpdated(st: S.Store, x: S.Issue, u: S.Updates, db: U.Database, rank: real -> U.Value)
    requires Describes(db, st) && S.GoodUpdates(st, u)
    ensures RowOf(S.Patched(st, x, u), rank) == U.Updated(RowOf(x, rank), Fields(u, rank), db)
  {
    var y := S.Patched(st, x, u);
    PatchedApplies(st, x, u, db);
    RowColumns(x, rank);
    RowColumns(y, rank);
    assert StoreFields(Fields(u, rank));
    hide U.Updated, RowOf, S.Patched, ColumnAfter, Applies, StoreColumn, StoreFields, Fields, TimeOrNull;
    forall c ensures c in U.Updated(RowOf(x, rank), Fields(u, rank), db) <==> c in RowOf(y, rank)
      ensures c in RowOf(y, rank) ==> U.Updated(RowOf(x, rank), Fields(u, rank), db)[c] == RowOf(y, rank)[c]
    {
      UpdatedColumn(RowOf(x, rank), Fields(u, rank), db, c);
      if StoreColumn(c) { AppliedColumn(x, y, u, db, rank, c); }
    }
  }
}
