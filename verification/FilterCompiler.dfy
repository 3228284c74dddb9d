/** Listing issues by optional filters: the conditions with numbered placeholders and, in a second pass, the
    values bound to them. */
module FilterCompiler {
  import opened Wire
  import opened LikeEscape

  datatype Value = Str(s: string) | Num(n: int)

  /** The columns the conditions read. */
  datatype Row = Row(
    workspace: string, archived: bool, team: string, status: string, category: string, priority: int,
    assignee: Option<string>, creator: string, labels: set<string>, title: string)

  datatype Filters = Filters(
    onlyArchived: Option<bool>, includeArchived: Option<bool>, status: Option<string>, categories: Option<seq<string>>,
    excludedCategories: Option<seq<string>>, priority: Option<int>, assignee: Option<string>, creator: Option<string>,
    labels: Option<seq<string>>, search: Option<string>, limit: Option<int>, offset: Option<int>)

  datatype Test =
    | WorkspaceIs | IsArchived | NotArchived | TeamIs | StatusIs | CategoryIn | CategoryNotIn | PriorityIs | AssigneeIs
    | CreatorIs | AnyLabelIn | TitleLike

  /** A condition and the numbers of its placeholders, `$1` being the first. */
  datatype Condition = Condition(test: Test, slots: seq<nat>)

  // ---------------------------------------------------------------- what a condition means

  /** What the test says of a row, given the values in its places. A null column equals nothing. */
  predicate Holds(test: Test, values: seq<Value>, row: Row, fold: Folding) {
    match test
    case IsArchived => row.archived
    case NotArchived => !row.archived
    case CategoryIn => Str(row.category) in values
    case CategoryNotIn => Str(row.category) !in values
    case AnyLabelIn => exists l :: l in row.labels && Str(l) in values
    case WorkspaceIs => values == [Str(row.workspace)]
    case TeamIs => values == [Str(row.team)]
    case StatusIs => values == [Str(row.status)]
    case PriorityIs => values == [Num(row.priority)]
    case AssigneeIs => row.assignee.Some? && values == [Str(row.assignee.value)]
    case CreatorIs => values == [Str(row.creator)]
    case TitleLike => |values| == 1 && values[0].Str? && Like(row.title, values[0].s, fold)
  }

  predicate InRange(slots: seq<nat>, binds: seq<Value>) {
    forall k :: 0 <= k < |slots| ==> 1 <= slots[k] <= |binds|
  }

  function At(slots: seq<nat>, binds: seq<Value>): (values: seq<Value>)
    requires InRange(slots, binds)
    ensures |values| == |slots|
  {
    seq(|slots|, k requires 0 <= k < |slots| => binds[slots[k] - 1])
  }

  /** The WHERE clause: every condition, with each placeholder standing for the value bound at its number. */
  predicate Where(conditions: seq<Condition>, binds: seq<Value>, row: Row, fold: Folding) {
    forall c :: c in conditions ==> InRange(c.slots, binds) && Holds(c.test, At(c.slots, binds), row, fold)
  }

  // ---------------------------------------------------------------- what the filters ask for

  predicate Lacks<T(==)>(list: Option<seq<T>>) {
    list.None? || list.value == []
  }

  /** The rows a caller of the listing wants: those that pass every filter that is set; an empty list filters
      nothing. */
  predicate Wanted(row: Row, workspace: string, team: Option<string>, f: Filters, fold: Folding) {
    && row.workspace == workspace
    && (if f.onlyArchived == Some(true) then row.archived else f.includeArchived == Some(true) || !row.archived)
    && (team.Some? ==> row.team == team.value)
    && (f.status.Some? ==> row.status == f.status.value)
    && (!Lacks(f.categories) ==> row.category in f.categories.value)
    && (!Lacks(f.excludedCategories) ==> row.category !in f.excludedCategories.value)
    && (f.priority.Some? ==> row.priority == f.priority.value)
    && (f.assignee.Some? ==> row.assignee == f.assignee)
    && (f.creator.Some? ==> row.creator == f.creator.value)
    && (!Lacks(f.labels) ==> exists l :: l in row.labels && l in f.labels.value)
    && (f.search.Some? ==> Contains(row.title, f.search.value, fold))
  }

  // ---------------------------------------------------------------- the parts of a query

  /** A test together with the values it is meant to be about. */
  datatype Part = Part(test: Test, values: seq<Value>)

  function Values(parts: seq<Part>): seq<Value> {
    if parts == [] then [] else Values(parts[..|parts| - 1]) + parts[|parts| - 1].values
  }

  function Run(start: nat, count: nat): seq<nat> {
    seq(count, k => start + k)
  }

  /** The parts with their placeholders numbered from 1 in order. */
  function Numbered(parts: seq<Part>): seq<Condition> {
    if parts == [] then []
    else
      var front := parts[..|parts| - 1];
      var last := parts[|parts| - 1];
      Numbered(front) + [Condition(last.test, Run(|Values(front)| + 1, |last.values|))]
  }

  function Strs(list: seq<string>): seq<Value> {
    seq(|list|, k requires 0 <= k < |list| => Str(list[k]))
  }

  function ListPart(test: Test, list: Option<seq<string>>): seq<Part> {
    if Lacks(list) then [] else [Part(test, Strs(list.value))]
  }

  function TextPart(test: Test, text: Option<string>): seq<Part> {
    if text.Some? then [Part(test, [Str(text.value)])] else []
  }

  function NumPart(test: Test, n: Option<int>): seq<Part> {
    if n.Some? then [Part(test, [Num(n.value)])] else []
  }

  function ArchivePart(f: Filters): seq<Part> {
    if f.onlyArchived == Some(true) then [Part(IsArchived, [])]
    else if f.includeArchived == Some(true) then []
    else [Part(NotArchived, [])]
  }

  function SearchPart(search: Option<string>): seq<Part> {
    if search.Some? then [Part(TitleLike, [Str(Pattern(search.value))])] else []
  }

  function Parts(workspace: string, team: Option<string>, f: Filters): seq<Part> {
    [Part(WorkspaceIs, [Str(workspace)])] + ArchivePart(f) + TextPart(TeamIs, team) + TextPart(StatusIs, f.status)
    + ListPart(CategoryIn, f.categories) + ListPart(CategoryNotIn, f.excludedCategories) + NumPart(PriorityIs, f.priority)
    + TextPart(AssigneeIs, f.assignee) + TextPart(CreatorIs, f.creator) + ListPart(AnyLabelIn, f.labels)
    + SearchPart(f.search)
  }

  predicate AllHold(parts: seq<Part>, row: Row, fold: Folding) {
    forall p :: p in parts ==> Holds(p.test, p.values, row, fold)
  }

  lemma StrsContain(list: seq<string>, s: string)
    ensures Str(s) in Strs(list) <==> s in list
  {
    if s in list {
      var k :| 0 <= k < |list| && list[k] == s;
      assert Strs(list)[k] == Str(s);
    }
  }

  lemma AllHoldTogether(a: seq<Part>, b: seq<Part>, row: Row, fold: Folding)
    ensures AllHold(a + b, row, fold) <==> AllHold(a, row, fold) && AllHold(b, row, fold)
  {
    hide Holds;
    assert forall p :: p in a + b <==> p in a || p in b;
  }

  lemma AllHoldOne(p: Part, row: Row, fold: Folding)
    ensures AllHold([p], row, fold) <==> Holds(p.test, p.values, row, fold)
    ensures AllHold([], row, fold)
  {
    hide Holds;
    assert p in [p];
  }

  lemma ListPartMeans(test: Test, list: Option<seq<string>>, row: Row, fold: Folding)
    ensures AllHold(ListPart(test, list), row, fold) <==> Lacks(list) || Holds(test, Strs(list.value), row, fold)
  {
    hide Holds;
    if !Lacks(list) { AllHoldOne(Part(test, Strs(list.value)), row, fold); }
  }

  lemma TextPartMeans(test: Test, text: Option<string>, row: Row, fold: Folding)
    ensures AllHold(TextPart(test, text), row, fold) <==> (text.Some? ==> Holds(test, [Str(text.value)], row, fold))
  {
    hide Holds;
    if text.Some? { AllHoldOne(Part(test, [Str(text.value)]), row, fold); }
  }

  lemma ArchivePartMeans(f: Filters, row: Row, fold: Folding)
    ensures AllHold(ArchivePart(f), row, fold)
            <==> if f.onlyArchived == Some(true) then row.archived else f.includeArchived == Some(true) || !row.archived
  {
    AllHoldOne(Part(IsArchived, []), row, fold);
    AllHoldOne(Part(NotArchived, []), row, fold);
  }

  lemma SearchPartMeans(search: Option<string>, row: Row, fold: Folding)
    ensures AllHold(SearchPart(search), row, fold) <==> (search.Some? ==> Contains(row.title, search.value, fold))
  {
    if search.Some? {
      AllHoldOne(Part(TitleLike, [Str(Pattern(search.value))]), row, fold);
      SearchIsExact(row.title, search.value, fold);
    }
  }

  lemma PartsTogether(row: Row, workspace: string, team: Option<string>, f: Filters, fold: Folding)
    ensures AllHold(Parts(workspace, team, f), row, fold) <==>
              && AllHold([Part(WorkspaceIs, [Str(workspace)])], row, fold) && AllHold(ArchivePart(f), row, fold)
              && AllHold(TextPart(TeamIs, team), row, fold) && AllHold(TextPart(StatusIs, f.status), row, fold)
              && AllHold(ListPart(CategoryIn, f.categories), row, fold)
              && AllHold(ListPart(CategoryNotIn, f.excludedCategories), row, fold)
              && AllHold(NumPart(PriorityIs, f.priority), row, fold) && AllHold(TextPart(AssigneeIs, f.assignee), row, fold)
              && AllHold(TextPart(CreatorIs, f.creator), row, fold) && AllHold(ListPart(AnyLabelIn, f.labels), row, fold)
              && AllHold(SearchPart(f.search), row, fold)
  {
    hide AllHold, ArchivePart, TextPart, ListPart, NumPart, SearchPart;
    var p0 := [Part(WorkspaceIs, [Str(workspace)])];
    var p1 := p0 + ArchivePart(f);
    var p2 := p1 + TextPart(TeamIs, team);
    var p3 := p2 + TextPart(StatusIs, f.status);
    var p4 := p3 + ListPart(CategoryIn, f.categories);
    var p5 := p4 + ListPart(CategoryNotIn, f.excludedCategories);
    var p6 := p5 + NumPart(PriorityIs, f.priority);
    var p7 := p6 + TextPart(AssigneeIs, f.assignee);
    var p8 := p7 + TextPart(CreatorIs, f.creator);
    var p9 := p8 + ListPart(AnyLabelIn, f.labels);
    AllHoldTogether(p0, ArchivePart(f), row, fold);
    AllHoldTogether(p1, TextPart(TeamIs, team), row, fold);
    AllHoldTogether(p2, TextPart(StatusIs, f.status), row, fold);
    AllHoldTogether(p3, ListPart(CategoryIn, f.categories), row, fold);
    AllHoldTogether(p4, ListPart(CategoryNotIn, f.excludedCategories), row, fold);
    AllHoldTogether(p5, NumPart(PriorityIs, f.priority), row, fold);
    AllHoldTogether(p6, TextPart(AssigneeIs, f.assignee), row, fold);
    AllHoldTogether(p7, TextPart(CreatorIs, f.creator), row, fold);
    AllHoldTogether(p8, ListPart(AnyLabelIn, f.labels), row, fold);
    AllHoldTogether(p9, SearchPart(f.search), row, fold);
  }

  lemma CategoriesMean(f: Filters, row: Row, fold: Folding)
    ensures AllHold(ListPart(CategoryIn, f.categories), row, fold)
            <==> (!Lacks(f.categories) ==> row.category in f.categories.value)
    ensures AllHold(ListPart(CategoryNotIn, f.excludedCategories), row, fold)
            <==> (!Lacks(f.excludedCategories) ==> row.category !in f.excludedCategories.value)
  {
    ListPartMeans(CategoryIn, f.categories, row, fold);
    ListPartMeans(CategoryNotIn, f.excludedCategories, row, fold);
    hide AllHold, ListPart;
    if !Lacks(f.categories) { StrsContain(f.categories.value, row.category); }
    if !Lacks(f.excludedCategories) { StrsContain(f.excludedCategories.value, row.category); }
  }

  lemma LabelsMean(f: Filters, row: Row, fold: Folding)
    ensures AllHold(ListPart(AnyLabelIn, f.labels), row, fold)
            <==> (!Lacks(f.labels) ==> exists l :: l in row.labels && l in f.labels.value)
  {
    ListPartMeans(AnyLabelIn, f.labels, row, fold);
    hide AllHold, ListPart;
    if !Lacks(f.labels) {
      forall l ensures Str(l) in Strs(f.labels.value) <==> l in f.labels.value { StrsContain(f.labels.value, l); }
    }
  }

  lemma SingleValuesMean(row: Row, workspace: string, team: Option<string>, f: Filters, fold: Folding)
    ensures AllHold([Part(WorkspaceIs, [Str(workspace)])], row, fold) <==> row.workspace == workspace
    ensures AllHold(TextPart(TeamIs, team), row, fold) <==> (team.Some? ==> row.team == team.value)
    ensures AllHold(TextPart(StatusIs, f.status), row, fold) <==> (f.status.Some? ==> row.status == f.status.value)
    ensures AllHold(TextPart(AssigneeIs, f.assignee), row, fold) <==> (f.assignee.Some? ==> row.assignee == f.assignee)
    ensures AllHold(TextPart(CreatorIs, f.creator), row, fold) <==> (f.creator.Some? ==> row.creator == f.creator.value)
    ensures AllHold(NumPart(PriorityIs, f.priority), row, fold) <==> (f.priority.Some? ==> row.priority == f.priority.value)
  {
    AllHoldOne(Part(WorkspaceIs, [Str(workspace)]), row, fold);
    TextPartMeans(TeamIs, team, row, fold);
    TextPartMeans(StatusIs, f.status, row, fold);
    TextPartMeans(AssigneeIs, f.assignee, row, fold);
    TextPartMeans(CreatorIs, f.creator, row, fold);
    if f.priority.Some? { AllHoldOne(Part(PriorityIs, [Num(f.priority.value)]), row, fold); }
    hide AllHold, TextPart;
  }

  /** Asking for the parts is asking for the rows. */
  lemma PartsMeanFilters(row: Row, workspace: string, team: Option<string>, f: Filters, fold: Folding)
    ensures AllHold(Parts(workspace, team, f), row, fold) <==> Wanted(row, workspace, team, f, fold)
  {
    PartsTogether(row, workspace, team, f, fold);
    SingleValuesMean(row, workspace, team, f, fold);
    ArchivePartMeans(f, row, fold);
    CategoriesMean(f, row, fold);
    LabelsMean(f, row, fold);
    SearchPartMeans(f.search, row, fold);
    hide AllHold, ArchivePart, TextPart, NumPart, ListPart, SearchPart, Parts, Contains;
  }

  // ---------------------------------------------------------------- numbering keeps the meaning

  /** The slots numbered last are those of the values that come after the others. */
  lemma LastSlots(before: seq<Value>, values: seq<Value>, more: seq<Value>)
    ensures InRange(Run(|before| + 1, |values|), before + values + more)
    ensures At(Run(|before| + 1, |values|), before + values + more) == values
  {
  }

  lemma {:induction false} NumberedLength(parts: seq<Part>)
    ensures |Numbered(parts)| == |parts|
  {
    if parts != [] { NumberedLength(parts[..|parts| - 1]); }
  }

  lemma {:induction false} SlotsInRange(parts: seq<Part>, more: seq<Value>, k: nat)
    requires k < |Numbered(parts)|
    ensures |Numbered(parts)| == |parts|
    ensures Numbered(parts)[k].test == parts[k].test
    ensures InRange(Numbered(parts)[k].slots, Values(parts) + more)
    ensures At(Numbered(parts)[k].slots, Values(parts) + more) == parts[k].values
  {
    NumberedLength(parts);
    var front, last := parts[..|parts| - 1], parts[|parts| - 1];
    if k < |front| {
      NumberedLength(front);
      SlotsInRange(front, last.values + more, k);
      assert Values(front) + (last.values + more) == Values(parts) + more;
      hide InRange, At;
    } else {
      LastSlots(Values(front), last.values, more);
    }
  }

  /** Each placeholder stands for the value it was made for, so the numbered clause means what the parts mean. */
  lemma NumberedMeansParts(parts: seq<Part>, row: Row, fold: Folding)
    ensures Where(Numbered(parts), Values(parts), row, fold) <==> AllHold(parts, row, fold)
  {
    NumberedLength(parts);
    assert Values(parts) + [] == Values(parts);
    forall k | 0 <= k < |parts|
      ensures Numbered(parts)[k].test == parts[k].test && InRange(Numbered(parts)[k].slots, Values(parts))
      ensures At(Numbered(parts)[k].slots, Values(parts)) == parts[k].values
    {
      SlotsInRange(parts, [], k);
    }
    if AllHold(parts, row, fold) {
      forall c | c in Numbered(parts) ensures InRange(c.slots, Values(parts)) && Holds(c.test, At(c.slots, Values(parts)), row, fold) {
        var k :| 0 <= k < |parts| && Numbered(parts)[k] == c;
        assert parts[k] in parts;
      }
    }
    if Where(Numbered(parts), Values(parts), row, fold) {
      forall p | p in parts ensures Holds(p.test, p.values, row, fold) {
        var k :| 0 <= k < |parts| && parts[k] == p;
        assert Numbered(parts)[k] in Numbered(parts);
      }
    }
  }

  /** All placeholders of a clause, in order. */
  function Slots(conditions: seq<Condition>): seq<nat> {
    if conditions == [] then [] else Slots(conditions[..|conditions| - 1]) + conditions[|conditions| - 1].slots
  }

  lemma RunsJoin(a: nat, b: nat)
    ensures Run(1, a) + Run(a + 1, b) == Run(1, a + b)
  {
  }

  /** They are the numbers from 1 to the number of binds, each once: the highest index is the bind count. */
  lemma {:induction false} SlotsAreAllBinds(parts: seq<Part>)
    ensures Slots(Numbered(parts)) == Run(1, |Values(parts)|)
  {
    if parts != [] {
      var front, last := parts[..|parts| - 1], parts[|parts| - 1];
      SlotsAreAllBinds(front);
      assert Numbered(parts)[..|Numbered(parts)| - 1] == Numbered(front);
      RunsJoin(|Values(front)|, |last.values|);
    }
  }

  // ---------------------------------------------------------------- the builder

  /** `($n, $n+1, ...)` and the next free index. */
  method InClausePlaceholders(count: nat, start: nat) returns (slots: seq<nat>, next: nat)
    ensures slots == Run(start, count) && next == start + count
  {
    slots := [];
    for i := 0 to count
      invariant slots == Run(start, i)
    {
      slots := slots + [start + i];
    }
    next := start + count;
  }

  lemma StrsNext(list: seq<string>, k: nat)
    requires k < |list|
    ensures Strs(list)[..k + 1] == Strs(list)[..k] + [Str(list[k])]
  {
  }

  lemma ListBinds(test: Test, list: Option<seq<string>>, before: seq<Part>)
    ensures Values(before + ListPart(test, list)) == Values(before) + if list.Some? then Strs(list.value) else []
  {
    if Lacks(list) {
      assert before + ListPart(test, list) == before;
    } else {
      assert (before + ListPart(test, list))[..|before|] == before;
    }
  }

  lemma ArchiveBindsNothing(f: Filters, before: seq<Part>)
    ensures Values(before + ArchivePart(f)) == Values(before)
  {
    if ArchivePart(f) == [] {
      assert before + ArchivePart(f) == before;
    } else {
      assert (before + ArchivePart(f))[..|before|] == before;
    }
  }

  class Builder {
    var conditions: seq<Condition>
    var paramIdx: nat
    var binds: seq<Value>
    ghost var parts: seq<Part>
    ghost var bound: seq<Part>

    ghost predicate Valid()
      reads this
    {
      conditions == Numbered(parts) && paramIdx == |Values(parts)| + 1 && binds == Values(bound)
    }

    constructor ()
      ensures Valid() && parts == [] && bound == []
    {
      conditions, paramIdx, binds, parts, bound := [], 1, [], [], [];
    }

    /** First pass: a condition with as many placeholders as it will have values. */
    method Push(test: Test, count: nat, ghost part: Part)
      requires Valid() && part.test == test && |part.values| == count
      modifies this`conditions, this`paramIdx, this`parts
      ensures Valid() && parts == old(parts) + [part]
    {
      var slots, next := InClausePlaceholders(count, paramIdx);
      conditions := conditions + [Condition(test, slots)];
      paramIdx := next;
      parts := parts + [part];
      assert parts[..|parts| - 1] == old(parts);
    }

    method PushText(test: Test, text: Option<string>)
      requires Valid()
      modifies this`conditions, this`paramIdx, this`parts
      ensures Valid() && parts == old(parts) + TextPart(test, text)
    {
      if text.Some? { Push(test, 1, Part(test, [Str(text.value)])); } else { assert parts + [] == parts; }
    }

    method PushNum(test: Test, n: Option<int>)
      requires Valid()
      modifies this`conditions, this`paramIdx, this`parts
      ensures Valid() && parts == old(parts) + NumPart(test, n)
    {
      if n.Some? { Push(test, 1, Part(test, [Num(n.value)])); } else { assert parts + [] == parts; }
    }

    method PushList(test: Test, list: Option<seq<string>>)
      requires Valid()
      modifies this`conditions, this`paramIdx, this`parts
      ensures Valid() && parts == old(parts) + ListPart(test, list)
    {
      if list.Some? && list.value != [] {
        Push(test, |list.value|, Part(test, Strs(list.value)));
      } else {
        assert parts + [] == parts;
      }
    }

    /** Second pass: values in the order of their slots. An empty list binds nothing. */
    method Bind(v: Value, ghost part: Part)
      requires Valid() && part.values == [v]
      modifies this`binds, this`bound
      ensures Valid() && bound == old(bound) + [part]
    {
      binds := binds + [v];
      bound := bound + [part];
      assert bound[..|bound| - 1] == old(bound);
    }

    method BindText(test: Test, text: Option<string>)
      requires Valid()
      modifies this`binds, this`bound
      ensures Valid() && bound == old(bound) + TextPart(test, text)
    {
      if text.Some? { Bind(Str(text.value), Part(test, [Str(text.value)])); } else { assert bound + [] == bound; }
    }

    method BindList(test: Test, list: Option<seq<string>>)
      requires Valid()
      modifies this`binds, this`bound
      ensures Valid() && bound == old(bound) + ListPart(test, list)
    {
      hide Values, ListPart;
      if list.Some? {
        for k := 0 to |list.value|
          invariant binds == old(binds) + Strs(list.value)[..k] && bound == old(bound)
        {
          binds := binds + [Str(list.value[k])];
          StrsNext(list.value, k);
        }
        assert Strs(list.value)[..|list.value|] == Strs(list.value);
      }
      ListBinds(test, list, bound);
      bound := bound + ListPart(test, list);
    }

    method BindNum(test: Test, n: Option<int>)
      requires Valid()
      modifies this`binds, this`bound
      ensures Valid() && bound == old(bound) + NumPart(test, n)
    {
      if n.Some? { Bind(Num(n.value), Part(test, [Num(n.value)])); } else { assert bound + [] == bound; }
    }

    method PushArchive(f: Filters)
      requires Valid()
      modifies this`conditions, this`paramIdx, this`parts
      ensures Valid() && parts == old(parts) + ArchivePart(f)
    {
      if f.onlyArchived == Some(true) {
        Push(IsArchived, 0, Part(IsArchived, []));
      } else if f.includeArchived != Some(true) {
        Push(NotArchived, 0, Part(NotArchived, []));
      } else {
        assert parts + [] == parts;
      }
    }

    method PushSearch(search: Option<string>)
      requires Valid()
      modifies this`conditions, this`paramIdx, this`parts
      ensures Valid() && parts == old(parts) + SearchPart(search)
    {
      if search.Some? { Push(TitleLike, 1, Part(TitleLike, [Str(Pattern(search.value))])); } else { assert parts + [] == parts; }
    }

    method BindSearch(search: Option<string>)
      requires Valid()
      modifies this`binds, this`bound
      ensures Valid() && bound == old(bound) + SearchPart(search)
    {
      if search.Some? {
        Bind(Str(Pattern(search.value)), Part(TitleLike, [Str(Pattern(search.value))]));
      } else {
        assert bound + [] == bound;
      }
    }

    method BuildConditions(team: Option<string>, f: Filters, ghost workspace: string)
      requires Valid() && parts == []
      modifies this`conditions, this`paramIdx, this`parts
      ensures Valid() && parts == Parts(workspace, team, f)
    {
      hide Numbered, Values, ArchivePart, TextPart, ListPart, NumPart, SearchPart;
      Push(WorkspaceIs, 1, Part(WorkspaceIs, [Str(workspace)]));
      assert parts == [Part(WorkspaceIs, [Str(workspace)])];
      PushArchive(f);
      PushText(TeamIs, team);
      PushText(StatusIs, f.status);
      PushList(CategoryIn, f.categories);
      PushList(CategoryNotIn, f.excludedCategories);
      PushNum(PriorityIs, f.priority);
      PushText(AssigneeIs, f.assignee);
      PushText(CreatorIs, f.creator);
      PushList(AnyLabelIn, f.labels);
      PushSearch(f.search);
    }

    /** The archive condition has no placeholder and binds nothing. */
    method SkipArchive(f: Filters)
      requires Valid()
      modifies this`bound
      ensures Valid() && bound == old(bound) + ArchivePart(f)
    {
      ArchiveBindsNothing(f, bound);
      bound := bound + ArchivePart(f);
    }

    method BindValues(workspace: string, team: Option<string>, f: Filters)
      requires Valid() && bound == []
      modifies this`binds, this`bound
      ensures Valid() && bound == Parts(workspace, team, f)
    {
      hide Valid, Numbered, Values, ArchivePart, TextPart, ListPart, NumPart, SearchPart;
      Bind(Str(workspace), Part(WorkspaceIs, [Str(workspace)]));
      assert bound == [Part(WorkspaceIs, [Str(workspace)])];
      SkipArchive(f);
      BindText(TeamIs, team);
      BindText(StatusIs, f.status);
      BindList(CategoryIn, f.categories);
      BindList(CategoryNotIn, f.excludedCategories);
      BindNum(PriorityIs, f.priority);
      BindText(AssigneeIs, f.assignee);
      BindText(CreatorIs, f.creator);
      BindList(AnyLabelIn, f.labels);
      BindSearch(f.search);
    }
  }

  /** For every combination of filters and every list length: the bind count is the highest index, every index
      occurs once and in order, and the clause with the values bound selects exactly the rows asked for. */
  method ListIssues(workspace: string, team: Option<string>, f: Filters, fold: Folding)
    returns (conditions: seq<Condition>, binds: seq<Value>)
    ensures Slots(conditions) == Run(1, |binds|)
    ensures forall row :: Where(conditions, binds, row, fold) <==> Wanted(row, workspace, team, f, fold)
  {
    var b := new Builder();
    b.BuildConditions(team, f, workspace);
    b.BindValues(workspace, team, f);
    conditions, binds := b.conditions, b.binds;
    var parts := Parts(workspace, team, f);
    SlotsAreAllBinds(parts);
    forall row ensures Where(conditions, binds, row, fold) <==> Wanted(row, workspace, team, f, fold) {
      NumberedMeansParts(parts, row, fold);
      PartsMeanFilters(row, workspace, team, f, fold);
    }
  }
}
