/** The guard on parent assignments: a bounded walk up the ancestors, and what a link does to the forest. */
module ParentForest {
  import opened Wire

  type Id = Text

  /** Each issue's one parent. */
  type Parents = map<Id, Id>

  const MAX_LOOKUPS: nat := 10

  datatype Verdict = Fine | OwnParent | Circular | TooDeep

  /** The ancestor `k` levels above `x`. */
  function Up(parents: Parents, x: Id, k: nat): Option<Id> {
    if k == 0 then Some(x)
    else
      var below := Up(parents, x, k - 1);
      if below.Some? && below.value in parents then Some(parents[below.value]) else None
  }

  /** `x` has exactly `n` ancestors. */
  predicate Ancestors(parents: Parents, x: Id, n: nat) {
    Up(parents, x, n).Some? && Up(parents, x, n + 1).None?
  }

  predicate NotAmong(parents: Parents, issue: Id, x: Id, n: nat) {
    forall k :: 0 <= k <= n ==> Up(parents, x, k) != Some(issue)
  }

  function Lookup(parents: Parents, x: Id): Option<Id> {
    if x in parents then Some(parents[x]) else None
  }

  /** What one lookup of a walk means, given how many came before it. */
  datatype Reading = Accepts | Meets | Exhausts | Climbs(to: Id)

  function Read(issue: Id, found: Option<Id>, lookups: nat): Reading {
    if found.None? then Accepts
    else if found.value == issue then Meets
    else if lookups + 1 >= MAX_LOOKUPS then Exhausts
    else Climbs(found.value)
  }

  /** The lookups that are left from `current`, made one after another on the same forest. */
  function Walk(parents: Parents, issue: Id, current: Id, lookups: nat): Verdict
    decreases MAX_LOOKUPS - lookups
  {
    if lookups >= MAX_LOOKUPS then TooDeep
    else match Read(issue, Lookup(parents, current), lookups)
         case Accepts => Fine
         case Meets => Circular
         case Exhausts => TooDeep
         case Climbs(to) => Walk(parents, issue, to, lookups + 1)
  }

  lemma {:induction false} NoneAbove(parents: Parents, x: Id, n: nat, m: nat)
    requires n <= m && Up(parents, x, n).None?
    ensures Up(parents, x, m).None?
    decreases m
  {
    if n < m { NoneAbove(parents, x, n, m - 1); }
  }

  /** The walk always ends. It accepts exactly when the proposed parent has at most nine ancestors and neither it
      nor any of them is the issue; otherwise it met the issue within ten levels, or the chain goes on. */
  method ValidateNoCircularReference(parents: Parents, issue: Id, proposed: Id) returns (verdict: Verdict)
    ensures verdict.Fine? <==> exists n: nat :: n <= 9 && Ancestors(parents, proposed, n) && NotAmong(parents, issue, proposed, n)
    ensures verdict.OwnParent? <==> issue == proposed
    ensures verdict.Circular? ==> exists k: nat :: 1 <= k <= 10 && Up(parents, proposed, k) == Some(issue)
    ensures verdict.TooDeep? ==> Up(parents, proposed, 10).Some? && NotAmong(parents, issue, proposed, 10)
    ensures issue != proposed ==> verdict == Walk(parents, issue, proposed, 0)
  {
    if issue == proposed {
      assert Up(parents, proposed, 0) == Some(issue);
      return OwnParent;
    }
    var current := proposed;
    for lookup := 0 to MAX_LOOKUPS
      invariant Up(parents, proposed, lookup) == Some(current)
      invariant NotAmong(parents, issue, proposed, lookup)
      invariant Walk(parents, issue, proposed, 0) == Walk(parents, issue, current, lookup)
    {
      if current !in parents {
        assert Ancestors(parents, proposed, lookup);
        return Fine;
      }
      var parent := parents[current];
      assert Up(parents, proposed, lookup + 1) == Some(parent);
      if parent == issue {
        forall n: nat | n <= 9 && Ancestors(parents, proposed, n) ensures !NotAmong(parents, issue, proposed, n) {
          if n <= lookup { NoneAbove(parents, proposed, n + 1, lookup + 1); }
        }
        return Circular;
      }
      current := parent;
    }
    forall n: nat | n <= 9 ensures !Ancestors(parents, proposed, n) {
      if Ancestors(parents, proposed, n) { NoneAbove(parents, proposed, n + 1, MAX_LOOKUPS); }
    }
    return TooDeep;
  }

  // ---------------------------------------------------------------- the forest

  ghost predicate Ends(parents: Parents, x: Id) {
    exists n: nat :: Up(parents, x, n).None?
  }

  /** Every chain of ancestors ends. */
  ghost predicate Grounded(parents: Parents) {
    forall x :: Ends(parents, x)
  }

  lemma {:induction false} UpUp(parents: Parents, x: Id, a: nat, b: nat)
    requires Up(parents, x, a).Some?
    ensures Up(parents, x, a + b) == Up(parents, Up(parents, x, a).value, b)
  {
    if b > 0 { UpUp(parents, x, a, b - 1); }
  }

  lemma {:induction false} RoundAndRound(parents: Parents, x: Id, k: nat, m: nat)
    requires k >= 1 && Up(parents, x, k) == Some(x)
    ensures Up(parents, x, m * k) == Some(x)
  {
    if m > 0 {
      RoundAndRound(parents, x, k, m - 1);
      UpUp(parents, x, (m - 1) * k, k);
      assert (m - 1) * k + k == m * k;
    }
  }

  /** In such a forest nobody is their own ancestor, at any height. */
  lemma NoCycles(parents: Parents, x: Id, k: nat)
    requires Grounded(parents) && k >= 1
    ensures Up(parents, x, k) != Some(x)
  {
    assert Ends(parents, x);
    var n: nat :| Up(parents, x, n).None?;
    if Up(parents, x, k) == Some(x) {
      RoundAndRound(parents, x, k, n);
      assert n * k >= n;
      NoneAbove(parents, x, n, n * k);
    }
  }

  /** Until it meets `child`, a chain does not notice that `child` got a parent. */
  lemma {:induction false} SameUntil(parents: Parents, child: Id, parent: Id, x: Id, n: nat)
    requires child !in parents && forall k :: 0 <= k < n ==> Up(parents, x, k) != Some(child)
    ensures Up(parents[child := parent], x, n) == Up(parents, x, n)
  {
    if n > 0 { SameUntil(parents, child, parent, x, n - 1); }
  }

  lemma {:induction false} FirstMeeting(parents: Parents, child: Id, x: Id, n: nat) returns (k: nat)
    requires Up(parents, x, n) == Some(child)
    ensures k <= n && Up(parents, x, k) == Some(child) && forall j :: 0 <= j < k ==> Up(parents, x, j) != Some(child)
  {
    if j: nat :| j < n && Up(parents, x, j) == Some(child) { k := FirstMeeting(parents, child, x, j); } else { k := n; }
  }

  /** `child` is neither `parent` nor above it, at any height. */
  ghost predicate OffChain(parents: Parents, child: Id, parent: Id) {
    forall k: nat :: Up(parents, parent, k) != Some(child)
  }

  lemma LinkedEnds(parents: Parents, child: Id, parent: Id, x: Id)
    requires Grounded(parents) && child !in parents && OffChain(parents, child, parent)
    ensures Ends(parents[child := parent], x)
  {
    var after := parents[child := parent];
    assert Ends(parents, x) && Ends(parents, parent);
    var m: nat :| Up(parents, x, m).None?;
    if j: nat :| j < m && Up(parents, x, j) == Some(child) {
      var k := FirstMeeting(parents, child, x, j);
      SameUntil(parents, child, parent, x, k);
      UpUp(after, x, k, 1);
      assert Up(after, child, 0) == Some(child) && Up(after, x, k + 1) == Some(parent);
      var n: nat :| Up(parents, parent, n).None?;
      SameUntil(parents, child, parent, parent, n);
      UpUp(after, x, k + 1, n);
      assert Up(after, x, k + 1 + n).None?;
    } else {
      SameUntil(parents, child, parent, x, m);
    }
  }

  /** Whatever was checked before: a link for a child that has no parent leaves every chain ending if and only if
      at that moment the child is not on the parent's chain. */
  lemma LinkedExactly(parents: Parents, child: Id, parent: Id)
    requires Grounded(parents) && child !in parents
    ensures Grounded(parents[child := parent]) <==> OffChain(parents, child, parent)
  {
    var after := parents[child := parent];
    if OffChain(parents, child, parent) {
      forall x ensures Ends(after, x) { LinkedEnds(parents, child, parent, x); }
    }
    if k: nat :| Up(parents, parent, k) == Some(child) {
      var j := FirstMeeting(parents, child, parent, k);
      SameUntil(parents, child, parent, parent, j);
      assert Up(after, child, 0) == Some(child) && Up(after, child, 1) == Some(parent);
      UpUp(after, child, 1, j);
      if Grounded(after) { NoCycles(after, child, j + 1); }
    }
  }

  /** A parent given to a child that has none, after the walk accepted it, leaves every chain ending. */
  lemma GuardedAssignment(parents: Parents, child: Id, parent: Id, n: nat)
    requires Grounded(parents) && child !in parents
    requires Ancestors(parents, parent, n) && NotAmong(parents, child, parent, n)
    ensures Grounded(parents[child := parent])
  {
    forall k: nat ensures Up(parents, parent, k) != Some(child) {
      if k > n { NoneAbove(parents, parent, n + 1, k); }
    }
    LinkedExactly(parents, child, parent);
  }

  lemma {:induction false} FewerLinks(parents: Parents, less: Parents, x: Id, n: nat)
    requires forall y :: y in less ==> y in parents && less[y] == parents[y]
    ensures Up(less, x, n).Some? ==> Up(less, x, n) == Up(parents, x, n)
  {
    if n > 0 { FewerLinks(parents, less, x, n - 1); }
  }

  lemma RemovalKeepsGrounded(parents: Parents, less: Parents)
    requires Grounded(parents) && forall y :: y in less ==> y in parents && less[y] == parents[y]
    ensures Grounded(less)
  {
    forall x ensures Ends(less, x) {
      assert Ends(parents, x);
      var n: nat :| Up(parents, x, n).None?;
      FewerLinks(parents, less, x, n);
    }
  }

  // ---------------------------------------------------------------- one request alone

  /** Whether an assignment is accepted when nothing happens while it is made: the walk says so, and the child has
      no parent yet. */
  ghost predicate Accepted(parents: Parents, child: Id, parent: Id) {
    && child !in parents
    && exists n: nat :: n <= 9 && Ancestors(parents, parent, n) && NotAmong(parents, child, parent, n)
  }

  /** The assignment as it is made when no other request comes in between. */
  method AssignParent(parents: Parents, child: Id, parent: Id) returns (after: Parents, accepted: bool)
    ensures accepted == Accepted(parents, child, parent)
    ensures after == if accepted then parents[child := parent] else parents
    ensures Grounded(parents) ==> Grounded(after)
  {
    var verdict := ValidateNoCircularReference(parents, child, parent);
    if !verdict.Fine? { return parents, false; }
    if child in parents { return parents, false; }
    ghost var n: nat :| n <= 9 && Ancestors(parents, parent, n) && NotAmong(parents, child, parent, n);
    if Grounded(parents) { GuardedAssignment(parents, child, parent, n); }
    return parents[child := parent], true;
  }
}
