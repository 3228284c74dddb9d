/** Activity records: the labels an update took off and put on, and descriptions saved over and over. */
module ActivityLog {
  import opened Wire

  type Id = Text

  type Time = nat

  datatype Label = Label(id: Id, name: Text)

  datatype LabelEvent = Removed(it: Label) | Added(it: Label)

  function Ids(labels: seq<Label>): set<Id> {
    set l <- labels :: l.id
  }

  function Apply(labels: set<Id>, e: LabelEvent): set<Id> {
    if e.Removed? then labels - {e.it.id} else labels + {e.it.id}
  }

  function Replay(labels: set<Id>, events: seq<LabelEvent>): set<Id> {
    if events == [] then labels else Apply(Replay(labels, events[..|events| - 1]), events[|events| - 1])
  }

  lemma ReplayOne(labels: set<Id>, events: seq<LabelEvent>, e: LabelEvent)
    ensures Replay(labels, events + [e]) == Apply(Replay(labels, events), e)
  {
    assert (events + [e])[..|events|] == events;
  }

  method Has(labels: seq<Label>, id: Id) returns (found: bool)
    ensures found <==> id in Ids(labels)
  {
    found := false;
    for k := 0 to |labels|
      invariant found <==> exists j :: 0 <= j < k && labels[j].id == id
    {
      found := found || labels[k].id == id;
    }
    if found {
      var j :| 0 <= j < |labels| && labels[j].id == id;
      assert labels[j] in labels;
    }
  }

  /** Every event is about a label on one side only. */
  predicate Needed(e: LabelEvent, before: seq<Label>, after: seq<Label>) {
    match e
    case Removed(l) => l in before && l.id !in Ids(after)
    case Added(l) => l in after && l.id !in Ids(before)
  }

  lemma IdsNext(labels: seq<Label>, k: nat)
    requires k < |labels|
    ensures Ids(labels[..k + 1]) == Ids(labels[..k]) + {labels[k].id}
  {
    assert labels[..k + 1] == labels[..k] + [labels[k]];
  }

  /** First what is gone, then what is new: replaying the events on the labels before gives the labels after. */
  method DiffLabels(before: seq<Label>, after: seq<Label>) returns (events: seq<LabelEvent>)
    ensures Replay(Ids(before), events) == Ids(after)
    ensures forall e :: e in events ==> Needed(e, before, after)
  {
    events := [];
    for k := 0 to |before|
      invariant Replay(Ids(before), events) == Ids(before) - (Ids(before[..k]) - Ids(after))
      invariant forall e :: e in events ==> Needed(e, before, after)
    {
      var kept := Has(after, before[k].id);
      IdsNext(before, k);
      if !kept {
        ReplayOne(Ids(before), events, Removed(before[k]));
        events := events + [Removed(before[k])];
      }
    }
    assert before[..|before|] == before && after[..0] == [];
    for k := 0 to |after|
      invariant Replay(Ids(before), events) == (Ids(before) * Ids(after)) + Ids(after[..k])
      invariant forall e :: e in events ==> Needed(e, before, after)
    {
      var had := Has(before, after[k].id);
      IdsNext(after, k);
      assert after[k] in after;
      if !had {
        ReplayOne(Ids(before), events, Added(after[k]));
        events := events + [Added(after[k])];
      }
    }
    assert after[..|after|] == after;
  }

  // ---------------------------------------------------------------- coalescing

  const WINDOW: nat := 60

  /** The times of the stored `description_changed` rows of one issue by one known actor, oldest first. */
  predicate Spread(rows: seq<Time>) {
    forall i, j :: 0 <= i < j < |rows| ==> rows[i] + WINDOW <= rows[j]
  }

  /** A save at `now`: the newest row inside the window moves to now; without one, a row is added. */
  function Saved(rows: seq<Time>, now: Time): seq<Time> {
    if rows != [] && rows[|rows| - 1] + WINDOW > now then rows[|rows| - 1 := now] else rows + [now]
  }

  class DescriptionLog {
    var rows: seq<Time>

    ghost predicate Valid(now: Time)
      reads this
    {
      Spread(rows) && forall i :: 0 <= i < |rows| ==> rows[i] <= now
    }

    constructor ()
      ensures rows == [] && Valid(0)
    {
      rows := [];
    }

    /** The lookup goes from the newest row back; whatever row inside the window it meets moves to now. */
    method Save(ghost last: Time, now: Time)
      requires Valid(last) && last <= now
      modifies this
      ensures rows == Saved(old(rows), now) && Valid(now)
    {
      var k := |rows|;
      while k > 0 && rows[k - 1] + WINDOW <= now
        invariant 0 <= k <= |rows|
        invariant forall j :: k <= j < |rows| ==> rows[j] + WINDOW <= now
      {
        k := k - 1;
      }
      if k > 0 {
        assert k == |rows|;
        rows := rows[k - 1 := now];
      } else {
        rows := rows + [now];
      }
    }
  }

  predicate Monotone(saves: seq<Time>) {
    forall i, j :: 0 <= i < j < |saves| ==> saves[i] <= saves[j]
  }

  function AfterSaves(saves: seq<Time>): seq<Time> {
    if saves == [] then [] else Saved(AfterSaves(saves[..|saves| - 1]), saves[|saves| - 1])
  }

  /** Over every run of saves with a clock that does not run back, stored rows are at least a minute apart. */
  lemma {:induction false} SavesStaySpread(saves: seq<Time>)
    requires Monotone(saves)
    ensures Spread(AfterSaves(saves))
    ensures saves == [] ==> AfterSaves(saves) == []
    ensures saves != [] ==> AfterSaves(saves) != [] && AfterSaves(saves)[|AfterSaves(saves)| - 1] == saves[|saves| - 1]
  {
    if saves != [] {
      var front := saves[..|saves| - 1];
      SavesStaySpread(front);
      if front != [] { assert front[|front| - 1] <= saves[|saves| - 1]; }
    }
  }

  /** The first `n` saves without those that the next one follows within a minute. */
  function Followed(saves: seq<Time>, n: nat): seq<Time>
    requires n < |saves|
  {
    if n == 0 then [] else Followed(saves, n - 1) + (if saves[n - 1] + 60 <= saves[n] then [saves[n - 1]] else [])
  }

  /** What is stored is exactly the saves that no other follows within a minute, each at its own time. */
  lemma {:induction false} StoredExactly(saves: seq<Time>, n: nat)
    requires n < |saves|
    ensures AfterSaves(saves[..n + 1]) == Followed(saves, n) + [saves[n]]
  {
    assert saves[..n + 1][..n] == saves[..n];
    if n > 0 { StoredExactly(saves, n - 1); }
  }

  function Within(rows: seq<Time>, from: Time, span: nat): nat {
    if rows == [] then 0
    else
      Within(rows[..|rows| - 1], from, span)
      + (if from <= rows[|rows| - 1] <= from + span then 1 else 0)
  }

  lemma {:induction false} WithinSpread(rows: seq<Time>, from: Time, span: nat)
    requires Spread(rows)
    ensures Within(rows, from, span) > 0 ==> rows != [] && from + WINDOW * (Within(rows, from, span) - 1) <= rows[|rows| - 1]
    ensures WINDOW * Within(rows, from, span) <= span + WINDOW
  {
    if rows != [] {
      var front := rows[..|rows| - 1];
      WithinSpread(front, from, span);
      if front != [] { assert front[|front| - 1] + WINDOW <= rows[|rows| - 1]; }
    }
  }

  /** So any span of `span` seconds holds at most one row a minute, and one more. */
  lemma CoalescingBound(saves: seq<Time>, from: Time, span: nat)
    requires Monotone(saves)
    ensures Within(AfterSaves(saves), from, span) <= span / WINDOW + 1
  {
    SavesStaySpread(saves);
    WithinSpread(AfterSaves(saves), from, span);
  }
}
