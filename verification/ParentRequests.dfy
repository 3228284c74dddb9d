/** Requests that assign parents, interleaved lookup by lookup: every check is a query of its own, made before the
    request opens its transaction. */
module ParentRequests {
  import opened Wire
  import opened ParentForest

  type RequestId = nat

  /** A row of the table, unique as a pair: nothing in the table keeps a child from having two parents. */
  datatype Link = Link(child: Id, parent: Id)

  /** Where a request stands: still walking up, with the walk behind it, or with all checks behind it. */
  datatype Stage = Walking(current: Id, lookups: nat) | Walked | Cleared

  /** `begun` is how many links had been inserted when the request began. */
  datatype Request = Request(child: Id, parent: Id, begun: nat, stage: Stage)

  datatype State = State(links: set<Link>, requests: map<RequestId, Request>, inserted: nat)

  /** `Look` is one lookup of a walk with what it found, `CheckSingle` the query for an existing parent, `Insert` the
      transaction, and `Remove` whatever takes links away: a cleared parent, a deleted relation or issue. */
  datatype Step =
    | Begin(id: RequestId, child: Id, parent: Id)
    | Look(id: RequestId, found: Option<Id>)
    | CheckSingle(id: RequestId)
    | Insert(id: RequestId)
    | Remove(gone: set<Link>)

  const NOTHING := State({}, map[], 0)

  ghost predicate HasParent(links: set<Link>, child: Id) {
    exists l :: l in links && l.child == child
  }

  ghost predicate Enabled(st: State, step: Step) {
    match step
    case Begin(id, _, _) => id !in st.requests
    case Look(id, found) =>
      && id in st.requests && st.requests[id].stage.Walking?
      && var current := st.requests[id].stage.current;
         if found.Some? then Link(current, found.value) in st.links else !HasParent(st.links, current)
    case CheckSingle(id) => id in st.requests && st.requests[id].stage.Walked?
    case Insert(id) => id in st.requests && st.requests[id].stage.Cleared?
    case Remove(_) => true
  }

  function Linked(st: State, id: RequestId): Link
    requires id in st.requests
  {
    Link(st.requests[id].child, st.requests[id].parent)
  }

  /** A refused request is gone. */
  ghost function Next(st: State, step: Step): State
    requires Enabled(st, step)
  {
    match step
    case Begin(id, child, parent) =>
      if child == parent then st
      else st.(requests := st.requests[id := Request(child, parent, st.inserted, Walking(parent, 0))])
    case Look(id, found) =>
      var q := st.requests[id];
      (match Read(q.child, found, q.stage.lookups)
       case Accepts => st.(requests := st.requests[id := q.(stage := Walked)])
       case Climbs(to) => st.(requests := st.requests[id := q.(stage := Walking(to, q.stage.lookups + 1))])
       case _ => st.(requests := st.requests - {id}))
    case CheckSingle(id) =>
      var q := st.requests[id];
      if HasParent(st.links, q.child) then st.(requests := st.requests - {id})
      else st.(requests := st.requests[id := q.(stage := Cleared)])
    case Insert(id) =>
      State(st.links + {Linked(st, id)}, st.requests - {id}, st.inserted + 1)
    case Remove(gone) => st.(links := st.links - gone)
  }

  ghost predicate Stepped(st: State, step: Step, st': State) {
    Enabled(st, step) && st' == Next(st, step)
  }

  ghost predicate IsRun(states: seq<State>, steps: seq<Step>) {
    && |states| == |steps| + 1 && states[0] == NOTHING
    && forall i {:trigger steps[i]} :: 0 <= i < |steps| ==> Stepped(states[i], steps[i], states[i + 1])
  }

  // ---------------------------------------------------------------- the table as a forest

  ghost predicate SingleParents(links: set<Link>) {
    forall l, m :: l in links && m in links && l.child == m.child ==> l == m
  }

  ghost function ParentIn(links: set<Link>, child: Id): (parent: Id)
    requires HasParent(links, child)
    ensures Link(child, parent) in links
  {
    var l :| l in links && l.child == child;
    l.parent
  }

  ghost function Forest(links: set<Link>): (parents: Parents)
    ensures forall c :: c in parents <==> HasParent(links, c)
    ensures forall c :: c in parents ==> Link(c, parents[c]) in links
  {
    map c | c in (set l | l in links :: l.child) :: ParentIn(links, c)
  }

  /** Every child has one parent and every chain of ancestors ends. */
  ghost predicate IsForest(links: set<Link>) {
    SingleParents(links) && Grounded(Forest(links))
  }

  /** What an insert needs at the moment it is made, whatever was checked before. */
  ghost predicate InsertFits(links: set<Link>, child: Id, parent: Id) {
    || Link(child, parent) in links
    || (!HasParent(links, child) && OffChain(Forest(links), child, parent))
  }

  lemma ForestIs(links: set<Link>, parents: Parents)
    requires SingleParents(links)
    requires forall l :: l in links ==> l.child in parents
    requires forall c :: c in parents ==> Link(c, parents[c]) in links
    ensures Forest(links) == parents
  {
    forall c ensures c in Forest(links) <==> c in parents {
      if c in parents { assert Link(c, parents[c]) in links && HasParent(links, c); }
    }
    forall c | c in parents ensures Forest(links)[c] == parents[c] {
      assert Link(c, Forest(links)[c]) in links;
    }
  }

  lemma ForestWithLink(links: set<Link>, child: Id, parent: Id)
    requires SingleParents(links) && !HasParent(links, child)
    ensures SingleParents(links + {Link(child, parent)})
    ensures Forest(links + {Link(child, parent)}) == Forest(links)[child := parent]
  {
    var parents := Forest(links)[child := parent];
    forall l | l in links ensures l.child in parents { assert HasParent(links, l.child); }
    hide Forest, HasParent;
    ForestIs(links + {Link(child, parent)}, parents);
  }

  lemma ForestWithoutLinks(links: set<Link>, gone: set<Link>)
    requires SingleParents(links)
    ensures SingleParents(links - gone)
    ensures forall c :: c in Forest(links - gone) ==> c in Forest(links) && Forest(links - gone)[c] == Forest(links)[c]
  {
  }

  /** The table stays a forest through an insert if and only if at that moment the link is there already, or the
      child has no parent and is not on the chain of the one it gets. */
  lemma InsertedExactly(links: set<Link>, child: Id, parent: Id)
    requires IsForest(links)
    ensures IsForest(links + {Link(child, parent)}) <==> InsertFits(links, child, parent)
  {
    var more := links + {Link(child, parent)};
    if Link(child, parent) in links {
      assert more == links;
    } else if HasParent(links, child) {
      var l :| l in links && l.child == child;
      assert l in more && Link(child, parent) in more && l != Link(child, parent);
    } else {
      ForestWithLink(links, child, parent);
      LinkedExactly(Forest(links), child, parent);
    }
  }

  lemma RemovedKeepsForest(links: set<Link>, gone: set<Link>)
    requires IsForest(links)
    ensures IsForest(links - gone)
  {
    ForestWithoutLinks(links, gone);
    RemovalKeepsGrounded(Forest(links), Forest(links - gone));
  }

  // ---------------------------------------------------------------- runs

  ghost predicate Fits(st: State, step: Step) {
    step.Insert? && step.id in st.requests ==> InsertFits(st.links, st.requests[step.id].child, st.requests[step.id].parent)
  }

  ghost predicate ForestsUntil(states: seq<State>, n: nat)
    requires n < |states|
  {
    forall i {:trigger states[i]} :: 0 <= i <= n ==> IsForest(states[i].links)
  }

  ghost predicate AllFit(states: seq<State>, steps: seq<Step>, n: nat)
    requires n < |states| && |states| == |steps| + 1
  {
    forall i {:trigger steps[i]} :: 0 <= i < n ==> Fits(states[i], steps[i])
  }

  lemma StepExactly(st: State, step: Step)
    requires IsForest(st.links) && Enabled(st, step)
    ensures IsForest(Next(st, step).links) <==> Fits(st, step)
  {
    match step
    case Insert(id) => InsertedExactly(st.links, st.requests[id].child, st.requests[id].parent);
    case Remove(gone) => RemovedKeepsForest(st.links, gone);
    case _ =>
  }

  lemma NothingIsForest()
    ensures IsForest({})
  {
    var none := Forest({});
    forall x ensures Ends(none, x) { assert Up(none, x, 0) == Some(x) && Up(none, x, 1).None?; }
  }

  /** Every run, however its requests interleave: the table has been a forest all along if and only if each insert
      so far fitted at the moment it was made. */
  lemma {:induction false} ForestExactly(states: seq<State>, steps: seq<Step>, n: nat)
    requires IsRun(states, steps) && n < |states|
    ensures ForestsUntil(states, n) <==> AllFit(states, steps, n)
  {
    if n == 0 {
      NothingIsForest();
    } else {
      ForestExactly(states, steps, n - 1);
      assert Stepped(states[n - 1], steps[n - 1], states[n]);
      hide IsForest, Fits, Enabled, Next;
      if ForestsUntil(states, n - 1) { StepExactly(states[n - 1], steps[n - 1]); }
      if ForestsUntil(states, n) { assert ForestsUntil(states, n - 1); }
      if AllFit(states, steps, n) { assert AllFit(states, steps, n - 1) && Fits(states[n - 1], steps[n - 1]); }
    }
  }

  // ---------------------------------------------------------------- undisturbed requests

  ghost predicate PassedBefore(parents: Parents, x: Id, y: Id, k: nat) {
    exists j: nat :: j < k && Up(parents, x, j) == Some(y)
  }

  /** The way from `parent` up to `child`, if there is one, leads through `current`. */
  ghost predicate LeadsThrough(parents: Parents, child: Id, parent: Id, current: Id) {
    forall k: nat :: Up(parents, parent, k) == Some(child) ==> PassedBefore(parents, parent, current, k)
  }

  /** What a request that no insert has disturbed knows. */
  ghost predicate Informed(links: set<Link>, q: Request) {
    match q.stage
    case Walking(current, _) => current != q.child && LeadsThrough(Forest(links), q.child, q.parent, current)
    case Walked => OffChain(Forest(links), q.child, q.parent)
    case Cleared => !HasParent(links, q.child) && OffChain(Forest(links), q.child, q.parent)
  }

  ghost predicate AllInformed(st: State) {
    forall id :: id in st.requests ==>
      && st.requests[id].begun <= st.inserted
      && (st.requests[id].begun == st.inserted ==> Informed(st.links, st.requests[id]))
  }

  /** Inserts come from requests since whose beginning nothing was inserted. */
  ghost predicate Undisturbed(st: State, step: Step) {
    step.Insert? && step.id in st.requests ==> st.requests[step.id].begun == st.inserted
  }

  ghost predicate AllUndisturbed(states: seq<State>, steps: seq<Step>, n: nat)
    requires n < |states| && |states| == |steps| + 1
  {
    forall i {:trigger steps[i]} :: 0 <= i < n ==> Undisturbed(states[i], steps[i])
  }

  lemma BeginIsInformed(parents: Parents, child: Id, parent: Id)
    requires child != parent
    ensures LeadsThrough(parents, child, parent, parent)
  {
    forall k: nat | Up(parents, parent, k) == Some(child) ensures PassedBefore(parents, parent, parent, k) {
      assert Up(parents, parent, 0) == Some(parent);
    }
  }

  /** A lookup that climbs stays on the way; one that finds nothing shows there is none. */
  lemma LookInforms(parents: Parents, child: Id, parent: Id, current: Id)
    requires LeadsThrough(parents, child, parent, current)
    ensures current !in parents ==> OffChain(parents, child, parent)
    ensures current in parents && parents[current] != child ==> LeadsThrough(parents, child, parent, parents[current])
  {
    forall k: nat | Up(parents, parent, k) == Some(child)
      ensures current in parents && (parents[current] != child ==> PassedBefore(parents, parent, parents[current], k))
    {
      assert PassedBefore(parents, parent, current, k);
      var j: nat :| j < k && Up(parents, parent, j) == Some(current);
      if current !in parents { NoneAbove(parents, parent, j + 1, k); }
      assert Up(parents, parent, j + 1) == Some(parents[current]);
    }
  }

  lemma FewerLinksInform(parents: Parents, less: Parents, child: Id, parent: Id)
    requires forall y :: y in less ==> y in parents && less[y] == parents[y]
    ensures OffChain(parents, child, parent) ==> OffChain(less, child, parent)
    ensures forall current :: LeadsThrough(parents, child, parent, current) ==> LeadsThrough(less, child, parent, current)
  {
    forall k: nat | Up(less, parent, k) == Some(child) ensures Up(parents, parent, k) == Some(child) {
      FewerLinks(parents, less, parent, k);
    }
    forall current, k: nat | LeadsThrough(parents, child, parent, current) && Up(less, parent, k) == Some(child)
      ensures PassedBefore(less, parent, current, k)
    {
      assert PassedBefore(parents, parent, current, k);
      var j: nat :| j < k && Up(parents, parent, j) == Some(current);
      if Up(less, parent, j).None? { NoneAbove(less, parent, j, k); }
      FewerLinks(parents, less, parent, j);
    }
  }

  lemma RemoveInforms(links: set<Link>, gone: set<Link>, q: Request)
    requires SingleParents(links) && Informed(links, q)
    ensures Informed(links - gone, q)
  {
    ForestWithoutLinks(links, gone);
    FewerLinksInform(Forest(links), Forest(links - gone), q.child, q.parent);
  }

  lemma StepInforms(st: State, step: Step)
    requires SingleParents(st.links) && AllInformed(st) && Enabled(st, step)
    ensures AllInformed(Next(st, step))
  {
    match step
    case Begin(id, child, parent) => if child != parent { BeginIsInformed(Forest(st.links), child, parent); }
    case Look(id, found) =>
      var q := st.requests[id];
      if q.begun == st.inserted { LookInforms(Forest(st.links), q.child, q.parent, q.stage.current); }
    case CheckSingle(id) =>
    case Insert(id) =>
    case Remove(gone) =>
      forall id | id in st.requests && st.requests[id].begun == st.inserted ensures Informed(st.links - gone, st.requests[id]) {
        RemoveInforms(st.links, gone, st.requests[id]);
      }
  }

  /** In every run in which no link happens between a request's first lookup and its own link, the table is a forest,
      whatever else interleaves. */
  lemma {:induction false} AlwaysGrounded(states: seq<State>, steps: seq<Step>, n: nat)
    requires IsRun(states, steps) && n < |states| && AllUndisturbed(states, steps, n)
    ensures IsForest(states[n].links) && AllInformed(states[n])
  {
    if n == 0 {
      NothingIsForest();
    } else {
      var st, step := states[n - 1], steps[n - 1];
      assert Stepped(st, step, states[n]) && Undisturbed(st, step);
      AlwaysGrounded(states, steps, n - 1);
      StepExactly(st, step);
      StepInforms(st, step);
      assert Fits(st, step) by {
        if step.Insert? { assert Informed(st.links, st.requests[step.id]); }
      }
    }
  }

  /** In such a run nobody ever has two parents or is their own ancestor, at any height. */
  lemma NeverOwnAncestor(states: seq<State>, steps: seq<Step>, n: nat, x: Id, k: nat)
    requires IsRun(states, steps) && n < |states| && AllUndisturbed(states, steps, n) && k >= 1
    ensures SingleParents(states[n].links) && Up(Forest(states[n].links), x, k) != Some(x)
  {
    AlwaysGrounded(states, steps, n);
    NoCycles(Forest(states[n].links), x, k);
  }

  // ---------------------------------------------------------------- two requests at once

  function Both(first: Link, second: Link): seq<Step> {
    [Begin(1, first.child, first.parent), Begin(2, second.child, second.parent), Look(1, None), Look(2, None),
     CheckSingle(1), CheckSingle(2), Insert(1), Insert(2)]
  }

  /** Two requests that make all their checks before either links both link, whatever their links do together. */
  lemma BothLink(first: Link, second: Link) returns (states: seq<State>)
    requires first.child != first.parent && second.child != second.parent
    ensures IsRun(states, Both(first, second)) && states[8].links == {first, second}
  {
    var q1, q2 := Request(first.child, first.parent, 0, Walking(first.parent, 0)), Request(second.child, second.parent, 0, Walking(second.parent, 0));
    var r1, r2 := q1.(stage := Walked), q2.(stage := Walked);
    var c1, c2 := q1.(stage := Cleared), q2.(stage := Cleared);
    states := [NOTHING, State({}, map[1 := q1], 0), State({}, map[1 := q1, 2 := q2], 0), State({}, map[1 := r1, 2 := q2], 0),
               State({}, map[1 := r1, 2 := r2], 0), State({}, map[1 := c1, 2 := r2], 0), State({}, map[1 := c1, 2 := c2], 0),
               State({first}, map[2 := c2], 1), State({first, second}, map[], 2)];
  }

  /** Each of two issues is put under the other: both checks pass, and each becomes its own grandparent. */
  lemma CycleByTwoRequests() returns (states: seq<State>)
    ensures IsRun(states, Both(Link("a", "b"), Link("b", "a")))
    ensures SingleParents(states[8].links) && Up(Forest(states[8].links), "a", 2) == Some("a")
  {
    states := BothLink(Link("a", "b"), Link("b", "a"));
    var links := states[8].links;
    assert Link("a", "b") in links && Link("b", "a") in links;
    assert HasParent(links, "a") && HasParent(links, "b");
    var parents := Forest(links);
    assert Up(parents, "a", 0) == Some("a") && Up(parents, "a", 1) == Some("b");
  }

  /** One issue is put under two others: both checks pass, and it has two parents. */
  lemma TwoParentsByTwoRequests() returns (states: seq<State>)
    ensures IsRun(states, Both(Link("a", "b"), Link("a", "c"))) && states[8].links == {Link("a", "b"), Link("a", "c")}
    ensures !SingleParents(states[8].links)
  {
    states := BothLink(Link("a", "b"), Link("a", "c"));
    assert Link("a", "b") in states[8].links && Link("a", "c") in states[8].links;
  }
}
