/** The UPDATE statement of an issue: a SET clause built from optional fields, in which one bound value can be
    used several times, and the values bound to it. */
module UpdateCompiler {
  import opened Wire

  datatype Value = Null | Str(s: string) | Num(n: int) | Time(t: nat)

  datatype Column =
    | Title | Description | StatusId | Priority | AssigneeId | DueDate | ProjectId | MilestoneId | Estimate | SortOrder
    | TeamId | Number | StartedAt | CompletedAt | ArchivedAt | UpdatedAt

  /** The right-hand sides that occur. A slot is a placeholder's number. */
  datatype Expr =
    | NullLiteral
    | Now
    | Slot(p: nat)
    | CompletedCase(p: nat)
    | StartedCase(p: nat)
    | NextNumberIn(p: nat)

  datatype Assignment = Assignment(column: Column, expr: Expr)

  type Row = map<Column, Value>

  /** What the statement finds in the database: the clock, the category of each status and the highest number of
      each team. */
  datatype Database = Database(now: nat, category: map<Value, string>, highest: map<Value, int>)

  function CategoryOf(db: Database, status: Value): string {
    if status in db.category then db.category[status] else ""
  }

  function HighestIn(db: Database, team: Value): int {
    if team in db.highest then db.highest[team] else 0
  }

  /** Fields a caller may set; clearing a field is setting it to NULL. */
  datatype Updates = Updates(
    title: Option<Value>, description: Option<Value>, status: Option<Value>, priority: Option<Value>,
    assignee: Option<Value>, dueDate: Option<Value>, project: Option<Value>, milestone: Option<Value>,
    estimate: Option<Value>, sortOrder: Option<Value>, team: Option<Value>)

  function Bound(binds: seq<Value>, p: nat): Value {
    if 1 <= p <= |binds| then binds[p - 1] else Null
  }

  function Old(row: Row, c: Column): Value {
    if c in row then row[c] else Null
  }

  predicate Closed(category: string) {
    category == "completed" || category == "cancelled"
  }

  function Completed(current: Value, category: string, now: nat): Value {
    if Closed(category) && current.Null? then Time(now) else if !Closed(category) then Null else current
  }

  function Started(current: Value, category: string, now: nat): Value {
    if category == "started" && current.Null? then Time(now)
    else if category == "backlog" || category == "unstarted" then Null
    else current
  }

  /** Right-hand sides see the row as it was. */
  function Eval(e: Expr, row: Row, binds: seq<Value>, db: Database): Value {
    match e
    case NullLiteral => Null
    case Now => Time(db.now)
    case Slot(p) => Bound(binds, p)
    case CompletedCase(p) => Completed(Old(row, CompletedAt), CategoryOf(db, Bound(binds, p)), db.now)
    case StartedCase(p) => Started(Old(row, StartedAt), CategoryOf(db, Bound(binds, p)), db.now)
    case NextNumberIn(p) => Num(HighestIn(db, Bound(binds, p)) + 1)
  }

  function Execute(clause: seq<Assignment>, row: Row, binds: seq<Value>, db: Database): Row {
    if clause == [] then row
    else
      var last := clause[|clause| - 1];
      Execute(clause[..|clause| - 1], row, binds, db)[last.column := Eval(last.expr, row, binds, db)]
  }

  // ---------------------------------------------------------------- what the caller asked for

  function Set(row: Row, c: Column, v: Option<Value>): Row {
    if v.Some? then row[c := v.value] else row
  }

  /** The row after the update: out of the archive, the fields that were given, the timestamps of the new status,
      and the next free number of a new team. */
  function Updated(row: Row, u: Updates, db: Database): Row {
    var r := row[ArchivedAt := Null];
    var r := Set(r, Title, u.title);
    var r := Set(r, Description, u.description);
    var r := if u.status.None? then r
             else r[StatusId := u.status.value]
                   [CompletedAt := Completed(Old(row, CompletedAt), CategoryOf(db, u.status.value), db.now)]
                   [StartedAt := Started(Old(row, StartedAt), CategoryOf(db, u.status.value), db.now)];
    var r := Set(r, Priority, u.priority);
    var r := Set(r, AssigneeId, u.assignee);
    var r := Set(r, DueDate, u.dueDate);
    var r := Set(r, ProjectId, u.project);
    var r := Set(r, MilestoneId, u.milestone);
    var r := Set(r, Estimate, u.estimate);
    var r := Set(r, SortOrder, u.sortOrder);
    var r := if u.team.None? then r else r[TeamId := u.team.value][Number := Num(HighestIn(db, u.team.value) + 1)];
    r[UpdatedAt := Time(db.now)]
  }

  // ---------------------------------------------------------------- the parts of a statement

  /** How a part's value is used in one column. */
  datatype Use = Plain | ToNull | ToNow | CompletedOf | StartedOf | NextNumberOf

  /** A bound value, or none, and the columns set from it. */
  datatype Part = Part(value: Option<Value>, uses: seq<(Column, Use)>)

  function Meaning(use: Use, v: Value, row: Row, db: Database): Value {
    match use
    case Plain => v
    case ToNull => Null
    case ToNow => Time(db.now)
    case CompletedOf => Completed(Old(row, CompletedAt), CategoryOf(db, v), db.now)
    case StartedOf => Started(Old(row, StartedAt), CategoryOf(db, v), db.now)
    case NextNumberOf => Num(HighestIn(db, v) + 1)
  }

  function ExprOf(use: Use, slot: nat): Expr {
    match use
    case Plain => Slot(slot)
    case ToNull => NullLiteral
    case ToNow => Now
    case CompletedOf => CompletedCase(slot)
    case StartedOf => StartedCase(slot)
    case NextNumberOf => NextNumberIn(slot)
  }

  /** Literals need no value; everything else does. */
  predicate WellFormed(p: Part) {
    p.value.None? ==> forall k :: 0 <= k < |p.uses| ==> p.uses[k].1.ToNull? || p.uses[k].1.ToNow?
  }

  function ValueOf(p: Part): Value {
    if p.value.Some? then p.value.value else Null
  }

  function ApplyUses(r: Row, uses: seq<(Column, Use)>, v: Value, row: Row, db: Database): Row {
    if uses == [] then r
    else
      var last := uses[|uses| - 1];
      ApplyUses(r, uses[..|uses| - 1], v, row, db)[last.0 := Meaning(last.1, v, row, db)]
  }

  /** What the parts mean, without any numbering. */
  function ApplyAll(r: Row, parts: seq<Part>, row: Row, db: Database): Row {
    if parts == [] then r
    else
      var last := parts[|parts| - 1];
      ApplyUses(ApplyAll(r, parts[..|parts| - 1], row, db), last.uses, ValueOf(last), row, db)
  }

  function Given(v: Option<Value>): seq<Value> {
    if v.Some? then [v.value] else []
  }

  function Values(parts: seq<Part>): seq<Value> {
    if parts == [] then [] else Values(parts[..|parts| - 1]) + Given(parts[|parts| - 1].value)
  }

  function Assign(uses: seq<(Column, Use)>, slot: nat): seq<Assignment> {
    seq(|uses|, k requires 0 <= k < |uses| => Assignment(uses[k].0, ExprOf(uses[k].1, slot)))
  }

  function Numbered(parts: seq<Part>): seq<Assignment> {
    if parts == [] then []
    else
      var front := parts[..|parts| - 1];
      Numbered(front) + Assign(parts[|parts| - 1].uses, |Values(front)| + 1)
  }

  lemma ExecuteAppend(clause: seq<Assignment>, a: Assignment, row: Row, binds: seq<Value>, db: Database)
    ensures Execute(clause + [a], row, binds, db) == Execute(clause, row, binds, db)[a.column := Eval(a.expr, row, binds, db)]
  {
    assert (clause + [a])[..|clause|] == clause;
  }

  lemma UseMeans(p: Part, slot: nat, k: nat, row: Row, binds: seq<Value>, db: Database)
    requires WellFormed(p) && k < |p.uses| && (p.value.Some? ==> Bound(binds, slot) == p.value.value)
    ensures Eval(ExprOf(p.uses[k].1, slot), row, binds, db) == Meaning(p.uses[k].1, ValueOf(p), row, db)
  {
  }

  lemma AssignNext(clause: seq<Assignment>, uses: seq<(Column, Use)>, slot: nat, n: nat)
    requires 0 < n <= |uses|
    ensures clause + Assign(uses, slot)[..n]
            == clause + Assign(uses, slot)[..n - 1] + [Assignment(uses[n - 1].0, ExprOf(uses[n - 1].1, slot))]
  {
  }

  lemma ExecuteUse(clause: seq<Assignment>, p: Part, slot: nat, n: nat, row: Row, binds: seq<Value>, db: Database)
    requires WellFormed(p) && 0 < n <= |p.uses| && (p.value.Some? ==> Bound(binds, slot) == p.value.value)
    requires Execute(clause + Assign(p.uses, slot)[..n - 1], row, binds, db)
             == ApplyUses(Execute(clause, row, binds, db), p.uses[..n - 1], ValueOf(p), row, db)
    ensures Execute(clause + Assign(p.uses, slot)[..n], row, binds, db)
            == ApplyUses(Execute(clause, row, binds, db), p.uses[..n], ValueOf(p), row, db)
  {
    var use := p.uses[n - 1];
    var a := Assignment(use.0, ExprOf(use.1, slot));
    UseMeans(p, slot, n - 1, row, binds, db);
    AssignNext(clause, p.uses, slot, n);
    hide Execute, Assign, Eval, Meaning, ExprOf, WellFormed, Bound;
    ExecuteAppend(clause + Assign(p.uses, slot)[..n - 1], a, row, binds, db);
    assert p.uses[..n][..n - 1] == p.uses[..n - 1];
  }

  lemma {:induction false} ExecuteAssign(clause: seq<Assignment>, p: Part, slot: nat, n: nat, row: Row, binds: seq<Value>, db: Database)
    requires WellFormed(p) && n <= |p.uses| && (p.value.Some? ==> Bound(binds, slot) == p.value.value)
    ensures Execute(clause + Assign(p.uses, slot)[..n], row, binds, db)
            == ApplyUses(Execute(clause, row, binds, db), p.uses[..n], ValueOf(p), row, db)
  {
    if n == 0 {
      assert clause + Assign(p.uses, slot)[..0] == clause;
    } else {
      ExecuteAssign(clause, p, slot, n - 1, row, binds, db);
      ExecuteUse(clause, p, slot, n, row, binds, db);
    }
  }

  predicate AllWellFormed(parts: seq<Part>) {
    forall k {:trigger parts[k]} :: 0 <= k < |parts| ==> WellFormed(parts[k])
  }

  lemma Associates(a: seq<Value>, b: seq<Value>, c: seq<Value>)
    ensures a + b + c == a + (b + c)
  {
  }

  lemma ExecutePart(clause: seq<Assignment>, p: Part, before: seq<Value>, more: seq<Value>, row: Row, db: Database)
    requires WellFormed(p)
    ensures var binds := before + (Given(p.value) + more);
            Execute(clause + Assign(p.uses, |before| + 1), row, binds, db)
            == ApplyUses(Execute(clause, row, binds, db), p.uses, ValueOf(p), row, db)
  {
    ExecuteAssign(clause, p, |before| + 1, |p.uses|, row, before + (Given(p.value) + more), db);
    assert Assign(p.uses, |before| + 1)[..|p.uses|] == Assign(p.uses, |before| + 1);
    assert p.uses[..|p.uses|] == p.uses;
  }

  /** Each placeholder stands for the value of its part, however many columns use it. */
  lemma {:induction false} NumberedMeansParts(parts: seq<Part>, more: seq<Value>, row: Row, db: Database)
    requires AllWellFormed(parts)
    ensures Execute(Numbered(parts), row, Values(parts) + more, db) == ApplyAll(row, parts, row, db)
  {
    if parts != [] {
      var front, last := parts[..|parts| - 1], parts[|parts| - 1];
      hide Execute, ApplyUses, Assign, Bound, Given, WellFormed;
      NumberedMeansParts(front, Given(last.value) + more, row, db);
      Associates(Values(front), Given(last.value), more);
      ExecutePart(Numbered(front), last, Values(front), more, row, db);
    }
  }

  function Field(c: Column, v: Option<Value>): seq<Part> {
    if v.Some? then [Part(v, [(c, Plain)])] else []
  }

  function StatusField(v: Option<Value>): seq<Part> {
    if v.Some? then [Part(v, [(StatusId, Plain), (CompletedAt, CompletedOf), (StartedAt, StartedOf)])] else []
  }

  function TeamField(v: Option<Value>): seq<Part> {
    if v.Some? then [Part(v, [(TeamId, Plain), (Number, NextNumberOf)])] else []
  }

  function Parts(u: Updates): seq<Part> {
    [Part(None, [(ArchivedAt, ToNull)])] + Field(Title, u.title) + Field(Description, u.description) + StatusField(u.status)
    + Field(Priority, u.priority) + Field(AssigneeId, u.assignee) + Field(DueDate, u.dueDate) + Field(ProjectId, u.project)
    + Field(MilestoneId, u.milestone) + Field(Estimate, u.estimate) + Field(SortOrder, u.sortOrder) + TeamField(u.team)
    + [Part(None, [(UpdatedAt, ToNow)])]
  }

  lemma {:induction false} ApplyTogether(r: Row, a: seq<Part>, b: seq<Part>, row: Row, db: Database)
    ensures ApplyAll(r, a + b, row, db) == ApplyAll(ApplyAll(r, a, row, db), b, row, db)
  {
    if b == [] {
      assert a + b == a;
    } else {
      assert (a + b)[..|a + b| - 1] == a + b[..|b| - 1];
      ApplyTogether(r, a, b[..|b| - 1], row, db);
    }
  }

  lemma ApplyOne(r: Row, p: Part, row: Row, db: Database)
    ensures ApplyAll(r, [p], row, db) == ApplyUses(r, p.uses, ValueOf(p), row, db)
    ensures ApplyAll(r, [], row, db) == r
  {
    assert [p][..0] == [];
  }

  lemma ApplyField(r: Row, c: Column, v: Option<Value>, row: Row, db: Database)
    ensures ApplyAll(r, Field(c, v), row, db) == Set(r, c, v)
  {
    if v.Some? {
      ApplyOne(r, Part(v, [(c, Plain)]), row, db);
      assert [(c, Plain)][..0] == [];
    }
  }

  lemma ApplyStatus(r: Row, v: Option<Value>, row: Row, db: Database)
    ensures ApplyAll(r, StatusField(v), row, db)
            == if v.None? then r
               else r[StatusId := v.value][CompletedAt := Completed(Old(row, CompletedAt), CategoryOf(db, v.value), db.now)]
                     [StartedAt := Started(Old(row, StartedAt), CategoryOf(db, v.value), db.now)]
  {
    if v.Some? {
      var uses := [(StatusId, Plain), (CompletedAt, CompletedOf), (StartedAt, StartedOf)];
      ApplyOne(r, Part(v, uses), row, db);
      assert uses[..2] == [(StatusId, Plain), (CompletedAt, CompletedOf)] && uses[..2][..1] == [(StatusId, Plain)];
      assert uses[..2][..1][..0] == [];
      assert ApplyUses(r, uses[..2][..1], v.value, row, db) == r[StatusId := v.value];
    }
  }

  lemma ApplyTeam(r: Row, v: Option<Value>, row: Row, db: Database)
    ensures ApplyAll(r, TeamField(v), row, db)
            == if v.None? then r else r[TeamId := v.value][Number := Num(HighestIn(db, v.value) + 1)]
  {
    if v.Some? {
      var uses := [(TeamId, Plain), (Number, NextNumberOf)];
      ApplyOne(r, Part(v, uses), row, db);
      assert uses[..1] == [(TeamId, Plain)] && uses[..1][..0] == [];
      assert ApplyUses(r, uses[..1], v.value, row, db) == r[TeamId := v.value];
    }
  }

  lemma ApplyLiteral(r: Row, c: Column, use: Use, row: Row, db: Database)
    requires use.ToNull? || use.ToNow?
    ensures ApplyAll(r, [Part(None, [(c, use)])], row, db) == r[c := Meaning(use, Null, row, db)]
  {
    ApplyOne(r, Part(None, [(c, use)]), row, db);
    assert [(c, use)][..0] == [];
  }

  lemma NextField(row: Row, before: seq<Part>, c: Column, v: Option<Value>, db: Database)
    ensures ApplyAll(row, before + Field(c, v), row, db) == Set(ApplyAll(row, before, row, db), c, v)
  {
    ApplyTogether(row, before, Field(c, v), row, db);
    ApplyField(ApplyAll(row, before, row, db), c, v, row, db);
  }

  /** The parts ask for the row the update asks for. */
  lemma PartsMeanUpdate(row: Row, u: Updates, db: Database)
    ensures ApplyAll(row, Parts(u), row, db) == Updated(row, u, db)
  {
    hide Field, StatusField, TeamField, ApplyAll, Set;
    var p0 := [Part(None, [(ArchivedAt, ToNull)])];
    var p1 := p0 + Field(Title, u.title);
    var p2 := p1 + Field(Description, u.description);
    var p3 := p2 + StatusField(u.status);
    var p4 := p3 + Field(Priority, u.priority);
    var p5 := p4 + Field(AssigneeId, u.assignee);
    var p6 := p5 + Field(DueDate, u.dueDate);
    var p7 := p6 + Field(ProjectId, u.project);
    var p8 := p7 + Field(MilestoneId, u.milestone);
    var p9 := p8 + Field(Estimate, u.estimate);
    var p10 := p9 + Field(SortOrder, u.sortOrder);
    var p11 := p10 + TeamField(u.team);
    var now := [Part(None, [(UpdatedAt, ToNow)])];
    ApplyLiteral(row, ArchivedAt, ToNull, row, db);
    NextField(row, p0, Title, u.title, db);
    NextField(row, p1, Description, u.description, db);
    ApplyTogether(row, p2, StatusField(u.status), row, db);
    ApplyStatus(ApplyAll(row, p2, row, db), u.status, row, db);
    NextField(row, p3, Priority, u.priority, db);
    NextField(row, p4, AssigneeId, u.assignee, db);
    NextField(row, p5, DueDate, u.dueDate, db);
    NextField(row, p6, ProjectId, u.project, db);
    NextField(row, p7, MilestoneId, u.milestone, db);
    NextField(row, p8, Estimate, u.estimate, db);
    NextField(row, p9, SortOrder, u.sortOrder, db);
    ApplyTogether(row, p10, TeamField(u.team), row, db);
    ApplyTeam(ApplyAll(row, p10, row, db), u.team, row, db);
    ApplyTogether(row, p11, now, row, db);
    ApplyLiteral(ApplyAll(row, p11, row, db), UpdatedAt, ToNow, row, db);
  }

  lemma PartsWellFormed(u: Updates)
    ensures AllWellFormed(Parts(u))
  {
    var parts := Parts(u);
    forall k {:trigger parts[k]} | 0 <= k < |parts| ensures WellFormed(parts[k]) {
      assert parts[k] in parts;
      assert parts[k].value.Some? || parts[k] == Part(None, [(ArchivedAt, ToNull)]) || parts[k] == Part(None, [(UpdatedAt, ToNow)]);
    }
  }

  // ---------------------------------------------------------------- the builder

  class Builder {
    var clause: seq<Assignment>
    var paramIdx: nat
    ghost var parts: seq<Part>

    ghost predicate Valid()
      reads this
    {
      clause == Numbered(parts) && paramIdx == |Values(parts)| + 1
    }

    constructor ()
      ensures Valid() && parts == []
    {
      clause, paramIdx, parts := [], 1, [];
    }

    /** A literal right-hand side leaves the numbering alone. */
    method PushLiteral(c: Column, use: Use)
      requires Valid() && (use.ToNull? || use.ToNow?)
      modifies this
      ensures Valid() && parts == old(parts) + [Part(None, [(c, use)])]
    {
      clause := clause + [Assignment(c, if use.ToNull? then NullLiteral else Now)];
      parts := parts + [Part(None, [(c, use)])];
      assert parts[..|parts| - 1] == old(parts);
    }

    /** An optional field takes the next placeholder. */
    method PushField(c: Column, v: Option<Value>)
      requires Valid()
      modifies this
      ensures Valid() && parts == old(parts) + Field(c, v)
    {
      if v.Some? {
        clause := clause + [Assignment(c, Slot(paramIdx))];
        paramIdx := paramIdx + 1;
        parts := parts + [Part(v, [(c, Plain)])];
        assert parts[..|parts| - 1] == old(parts);
      } else {
        assert parts + [] == parts;
      }
    }

    /** The new status sets three columns from one placeholder. */
    method PushStatus(v: Option<Value>)
      requires Valid()
      modifies this
      ensures Valid() && parts == old(parts) + StatusField(v)
    {
      if v.Some? {
        clause := clause + [Assignment(StatusId, Slot(paramIdx))];
        clause := clause + [Assignment(CompletedAt, CompletedCase(paramIdx))];
        clause := clause + [Assignment(StartedAt, StartedCase(paramIdx))];
        parts := parts + StatusField(v);
        assert parts[..|parts| - 1] == old(parts);
        assert clause == old(clause) + Assign(parts[|parts| - 1].uses, paramIdx);
        paramIdx := paramIdx + 1;
      } else {
        assert parts + [] == parts;
      }
    }

    /** The new team numbers the issue by the placeholder just taken. */
    method PushTeam(v: Option<Value>)
      requires Valid()
      modifies this
      ensures Valid() && parts == old(parts) + TeamField(v)
    {
      if v.Some? {
        clause := clause + [Assignment(TeamId, Slot(paramIdx))];
        paramIdx := paramIdx + 1;
        clause := clause + [Assignment(Number, NextNumberIn(paramIdx - 1))];
        parts := parts + TeamField(v);
        assert parts[..|parts| - 1] == old(parts);
        assert clause == old(clause) + Assign(parts[|parts| - 1].uses, paramIdx - 1);
      } else {
        assert parts + [] == parts;
      }
    }
  }

  method BuildFirst(b: Builder, u: Updates)
    requires b.Valid()
    modifies b
    ensures b.Valid()
    ensures b.parts == old(b.parts) + Field(Title, u.title) + Field(Description, u.description) + StatusField(u.status)
                       + Field(Priority, u.priority) + Field(AssigneeId, u.assignee) + Field(DueDate, u.dueDate)
  {
    hide Numbered, Values, Field, StatusField;
    b.PushField(Title, u.title);
    b.PushField(Description, u.description);
    b.PushStatus(u.status);
    b.PushField(Priority, u.priority);
    b.PushField(AssigneeId, u.assignee);
    b.PushField(DueDate, u.dueDate);
  }

  method BuildRest(b: Builder, u: Updates)
    requires b.Valid()
    modifies b
    ensures b.Valid()
    ensures b.parts == old(b.parts) + Field(ProjectId, u.project) + Field(MilestoneId, u.milestone)
                       + Field(Estimate, u.estimate) + Field(SortOrder, u.sortOrder) + TeamField(u.team)
                       + [Part(None, [(UpdatedAt, ToNow)])]
  {
    hide Numbered, Values, Field, TeamField;
    b.PushField(ProjectId, u.project);
    b.PushField(MilestoneId, u.milestone);
    b.PushField(Estimate, u.estimate);
    b.PushField(SortOrder, u.sortOrder);
    b.PushTeam(u.team);
    b.PushLiteral(UpdatedAt, ToNow);
  }

  method BuildClause(u: Updates) returns (clause: seq<Assignment>, next: nat)
    ensures clause == Numbered(Parts(u)) && next == |Values(Parts(u))| + 1
  {
    hide Numbered, Values, Field, StatusField, TeamField;
    var b := new Builder();
    b.PushLiteral(ArchivedAt, ToNull);
    assert b.parts == [Part(None, [(ArchivedAt, ToNull)])];
    BuildFirst(b, u);
    BuildRest(b, u);
    assert b.parts == Parts(u);
    clause, next := b.clause, b.paramIdx;
  }

  /** The values in the order the second pass binds them. */
  function Bindings(u: Updates): seq<Value> {
    Given(u.title) + Given(u.description) + Given(u.status) + Given(u.priority) + Given(u.assignee) + Given(u.dueDate)
    + Given(u.project) + Given(u.milestone) + Given(u.estimate) + Given(u.sortOrder) + Given(u.team)
  }

  lemma {:induction false} ValuesTogether(a: seq<Part>, b: seq<Part>)
    ensures Values(a + b) == Values(a) + Values(b)
  {
    if b == [] {
      assert a + b == a;
    } else {
      assert (a + b)[..|a + b| - 1] == a + b[..|b| - 1];
      ValuesTogether(a, b[..|b| - 1]);
    }
  }

  lemma NextValue(before: seq<Part>, field: seq<Part>, v: Option<Value>, values: seq<Value>)
    requires Values(before) == values && (field == [] ==> v.None?)
    requires field != [] ==> |field| == 1 && field[0].value == v
    ensures Values(before + field) == values + Given(v)
  {
    ValuesTogether(before, field);
    if field != [] { assert field[..0] == []; }
  }

  lemma NoValueYet()
    ensures Values([Part(None, [(ArchivedAt, ToNull)])]) == []
  {
    assert [Part(None, [(ArchivedAt, ToNull)])][..0] == [];
  }

  lemma BindingsAreValues(u: Updates)
    ensures Values(Parts(u)) == Bindings(u)
  {
    hide Values;
    var p0 := [Part(None, [(ArchivedAt, ToNull)])];
    var p1, v1 := p0 + Field(Title, u.title), Given(u.title);
    var p2, v2 := p1 + Field(Description, u.description), v1 + Given(u.description);
    var p3, v3 := p2 + StatusField(u.status), v2 + Given(u.status);
    var p4, v4 := p3 + Field(Priority, u.priority), v3 + Given(u.priority);
    var p5, v5 := p4 + Field(AssigneeId, u.assignee), v4 + Given(u.assignee);
    var p6, v6 := p5 + Field(DueDate, u.dueDate), v5 + Given(u.dueDate);
    var p7, v7 := p6 + Field(ProjectId, u.project), v6 + Given(u.project);
    var p8, v8 := p7 + Field(MilestoneId, u.milestone), v7 + Given(u.milestone);
    var p9, v9 := p8 + Field(Estimate, u.estimate), v8 + Given(u.estimate);
    var p10, v10 := p9 + Field(SortOrder, u.sortOrder), v9 + Given(u.sortOrder);
    var p11, v11 := p10 + TeamField(u.team), v10 + Given(u.team);
    NoValueYet();
    NextValue(p0, Field(Title, u.title), u.title, []);
    assert [] + Given(u.title) == v1;
    NextValue(p1, Field(Description, u.description), u.description, v1);
    NextValue(p2, StatusField(u.status), u.status, v2);
    NextValue(p3, Field(Priority, u.priority), u.priority, v3);
    NextValue(p4, Field(AssigneeId, u.assignee), u.assignee, v4);
    NextValue(p5, Field(DueDate, u.dueDate), u.dueDate, v5);
    NextValue(p6, Field(ProjectId, u.project), u.project, v6);
    NextValue(p7, Field(MilestoneId, u.milestone), u.milestone, v7);
    NextValue(p8, Field(Estimate, u.estimate), u.estimate, v8);
    NextValue(p9, Field(SortOrder, u.sortOrder), u.sortOrder, v9);
    NextValue(p10, TeamField(u.team), u.team, v10);
    NextValue(p11, [Part(None, [(UpdatedAt, ToNow)])], None, v11);
    assert v11 + Given(None) == v11;
  }

  method Bind(before: seq<Value>, v: Option<Value>) returns (binds: seq<Value>)
    ensures binds == before + Given(v)
  {
    binds := before;
    if v.Some? { binds := binds + [v.value]; } else { assert before + [] == before; }
  }

  /** The second pass. */
  method BindAll(u: Updates, id: Value) returns (binds: seq<Value>)
    ensures binds == Bindings(u) + [id]
  {
    hide Given;
    binds := Bind([], u.title);
    assert binds == Given(u.title);
    binds := Bind(binds, u.description);
    binds := Bind(binds, u.status);
    binds := Bind(binds, u.priority);
    binds := Bind(binds, u.assignee);
    binds := Bind(binds, u.dueDate);
    binds := Bind(binds, u.project);
    binds := Bind(binds, u.milestone);
    binds := Bind(binds, u.estimate);
    binds := Bind(binds, u.sortOrder);
    binds := Bind(binds, u.team);
    binds := binds + [id];
  }

  /** For every combination of fields the statement, with the values bound in their own pass, does to a row what
      the update asks for, and its last placeholder is the issue's id. */
  method UpdateStatement(u: Updates, id: Value) returns (clause: seq<Assignment>, idSlot: nat, binds: seq<Value>)
    ensures forall row, db :: Execute(clause, row, binds, db) == Updated(row, u, db)
    ensures idSlot == |binds| && Bound(binds, idSlot) == id
  {
    clause, idSlot := BuildClause(u);
    binds := BindAll(u, id);
    BindingsAreValues(u);
    PartsWellFormed(u);
    forall row, db ensures Execute(clause, row, binds, db) == Updated(row, u, db) {
      NumberedMeansParts(Parts(u), [id], row, db);
      PartsMeanUpdate(row, u, db);
    }
  }
}
