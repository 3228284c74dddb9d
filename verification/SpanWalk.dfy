/** The transaction-span analysis of the pool checker: the documented liveness rule, the walk that is shipped,
    and what the code's paths really do. */
module SpanWalk {
  import opened Wire

  /** A region is a sequence of tokens; depths in it count from the brace depth of the transaction's own binding. `Pool` is a
      pool access, `Move` a use of the binding that consumes it, and `Exit` one of `return`,
      `break` and `continue`. All other text is irrelevant and leaves no token. */
  datatype Token = Open | Close | Pool | Move | Exit {
    function Delta(): int {
      if Open? then 1 else if Close? then -1 else 0
    }
  }

  /** The brace depth before token `k`. */
  function Depth(ts: seq<Token>, k: nat): int
    requires k <= |ts|
  {
    if k == 0 then 0 else Depth(ts, k - 1) + ts[k - 1].Delta()
  }

  ghost predicate WellNested(ts: seq<Token>) {
    forall k {:trigger Depth(ts, k)} :: 0 <= k <= |ts| ==> Depth(ts, k) >= 0
  }

  /** The block around `m` is still open at `x`. */
  ghost predicate StillIn(ts: seq<Token>, m: nat, x: nat)
    requires m <= x <= |ts|
  {
    forall j {:trigger Depth(ts, j)} :: m <= j <= x ==> Depth(ts, j) >= Depth(ts, m)
  }

  /** The documented rule: a consume ends liveness for the rest of the block it stands in, which for one at
      the binding's own depth is the rest of the region. */
  ghost predicate Live(ts: seq<Token>, x: nat)
    requires x <= |ts|
  {
    forall m {:trigger ts[m]} :: 0 <= m < x && ts[m].Move? ==> !StillIn(ts, m, x)
  }

  // ---------------------------------------------------------------- what the code's paths do

  /** `c` closes the block opened at `o`. */
  ghost predicate Closes(ts: seq<Token>, o: nat, c: nat) {
    && o < c < |ts| && ts[o].Open? && ts[c].Close?
    && Depth(ts, c + 1) == Depth(ts, o)
    && forall j {:trigger Depth(ts, j)} :: o < j <= c ==> Depth(ts, j) > Depth(ts, o)
  }

  /** Control flow: a block is entered or skipped; at its end control goes on or starts another round;
      `break` and `continue` leave some enclosing block or restart it; `return` has no successor. */
  ghost predicate Flows(ts: seq<Token>, p: nat, q: nat)
    requires p < |ts|
  {
    && q <= |ts|
    && match ts[p]
       case Pool => q == p + 1
       case Move => q == p + 1
       case Open => q == p + 1 || (exists c: nat {:trigger Closes(ts, p, c)} :: Closes(ts, p, c) && q == c + 1)
       case Close => q == p + 1 || (exists o: nat {:trigger Closes(ts, o, p)} :: Closes(ts, o, p) && q == o + 1)
       case Exit => exists o: nat, c: nat {:trigger Closes(ts, o, c)} :: Closes(ts, o, c) && o < p < c && (q == c + 1 || q == o + 1)
  }

  ghost predicate FlowsAt(ts: seq<Token>, path: seq<nat>, i: nat)
    requires i + 1 < |path| && path[i] < |ts|
  {
    Flows(ts, path[i], path[i + 1])
  }

  ghost predicate IsPath(ts: seq<Token>, path: seq<nat>, x: nat) {
    && path != [] && path[0] == 0 && path[|path| - 1] == x
    && (forall i :: 0 <= i < |path| - 1 ==> path[i] < |ts|)
    && (forall i {:trigger FlowsAt(ts, path, i)} :: 0 <= i < |path| - 1 ==> FlowsAt(ts, path, i))
  }

  /** The path arrives with the transaction still open: it has not passed a consume. */
  ghost predicate Holding(ts: seq<Token>, path: seq<nat>)
    requires path != []
  {
    forall i :: 0 <= i < |path| - 1 ==> path[i] < |ts| && !ts[path[i]].Move?
  }

  ghost predicate Inside(ts: seq<Token>, m: nat, x: nat)
    requires x <= |ts|
  {
    m < x && StillIn(ts, m, x)
  }

  lemma JumpOverKeeps(ts: seq<Token>, m: nat, o: nat, p: nat, c: nat, q: nat)
    requires Closes(ts, o, c) && o <= p < c && q == c + 1 && m < |ts| && ts[m].Move? && Inside(ts, m, q)
    requires p != m
    ensures Inside(ts, m, p)
  {
    assert Depth(ts, q) >= Depth(ts, m);
    assert m < o;
  }

  lemma JumpBackKeeps(ts: seq<Token>, m: nat, o: nat, p: nat, c: nat)
    requires Closes(ts, o, c) && o < p <= c && m < |ts| && ts[m].Move? && Inside(ts, m, o + 1)
    ensures Inside(ts, m, p)
  {
    assert m < o;
    assert Depth(ts, o) >= Depth(ts, m);
    forall j | m <= j <= p ensures Depth(ts, j) >= Depth(ts, m) {
      if j > o { assert Depth(ts, j) > Depth(ts, o); }
    }
  }

  /** The rest of the block after `m` can only be entered through `m`. */
  lemma EnteredThrough(ts: seq<Token>, m: nat, p: nat, q: nat)
    requires m < |ts| && ts[m].Move? && p < |ts| && Flows(ts, p, q)
    requires p != m && Inside(ts, m, q)
    ensures Inside(ts, m, p)
  {
    if q == p + 1 {
    } else if ts[p].Open? {
      var c: nat :| Closes(ts, p, c) && q == c + 1;
      JumpOverKeeps(ts, m, p, p, c, q);
    } else if ts[p].Close? {
      var o: nat :| Closes(ts, o, p) && q == o + 1;
      JumpBackKeeps(ts, m, o, p, p);
    } else {
      var o: nat, c: nat :| Closes(ts, o, c) && o < p < c && (q == c + 1 || q == o + 1);
      if q == c + 1 { JumpOverKeeps(ts, m, o, p, c, q); } else { JumpBackKeeps(ts, m, o, p, c); }
    }
  }

  lemma {:induction false} NeverInside(ts: seq<Token>, path: seq<nat>, x: nat, m: nat, i: nat)
    requires IsPath(ts, path, x) && x <= |ts| && Holding(ts, path) && m < |ts| && ts[m].Move? && i < |path|
    ensures path[i] <= |ts| && !Inside(ts, m, path[i])
  {
    if i > 0 {
      NeverInside(ts, path, x, m, i - 1);
      assert FlowsAt(ts, path, i - 1);
      if Inside(ts, m, path[i]) { EnteredThrough(ts, m, path[i - 1], path[i]); }
    }
  }

  /** Soundness of the documented rule: every point that some path reaches with the transaction open is live. */
  lemma LiveIsSound(ts: seq<Token>, path: seq<nat>, x: nat)
    requires x <= |ts| && IsPath(ts, path, x) && Holding(ts, path)
    ensures Live(ts, x)
  {
    forall m {:trigger ts[m]} | 0 <= m < x && ts[m].Move? ensures !StillIn(ts, m, x) {
      NeverInside(ts, path, x, m, |path| - 1);
    }
  }

  /** Not behind an unconditional `return`, `break` or `continue`. */
  ghost predicate NotDead(ts: seq<Token>, x: nat)
    requires x <= |ts|
  {
    forall e {:trigger ts[e]} :: 0 <= e < x && ts[e].Exit? ==> !StillIn(ts, e, x)
  }

  /** The opening brace of a closing one. */
  lemma {:induction false} OpenerOf(ts: seq<Token>, c: nat, o: nat) returns (b: nat)
    requires WellNested(ts) && o <= c < |ts| && ts[c].Close?
    requires forall j {:trigger Depth(ts, j)} :: o < j <= c ==> Depth(ts, j) > Depth(ts, c + 1)
    requires Depth(ts, o) >= Depth(ts, c + 1)
    ensures Closes(ts, b, c)
    decreases o
  {
    if Depth(ts, o) == Depth(ts, c + 1) {
      assert o < c;
      assert ts[o].Open? by { assert Depth(ts, o + 1) > Depth(ts, o); }
      b := o;
    } else {
      assert o > 0 by { assert Depth(ts, c + 1) >= 0; }
      b := OpenerOf(ts, c, o - 1);
    }
  }

  lemma StillInBack(ts: seq<Token>, m: nat, y: nat, x: nat)
    requires m <= y <= x <= |ts| && StillIn(ts, m, y) && StillIn(ts, y, x)
    ensures StillIn(ts, m, x)
  {
    assert Depth(ts, y) >= Depth(ts, m);
  }

  lemma LiveBefore(ts: seq<Token>, y: nat, x: nat)
    requires y <= x <= |ts| && StillIn(ts, y, x) && Live(ts, x) && NotDead(ts, x)
    ensures Live(ts, y) && NotDead(ts, y)
  {
    forall m {:trigger ts[m]} | 0 <= m < y && (ts[m].Move? || ts[m].Exit?) ensures !StillIn(ts, m, y) {
      if StillIn(ts, m, y) { StillInBack(ts, m, y, x); }
    }
  }

  /** Precision of the documented rule: every live point that is not dead code is reached by some path with the
      transaction open, namely the one that enters no block but those around the point. */
  lemma {:induction false} LiveIsPrecise(ts: seq<Token>, x: nat) returns (path: seq<nat>)
    requires WellNested(ts) && x <= |ts| && Live(ts, x) && NotDead(ts, x)
    ensures IsPath(ts, path, x) && Holding(ts, path)
    decreases x
  {
    if x == 0 {
      path := [0];
    } else {
      var y := x - 1;
      if ts[y].Close? {
        y := OpenerOf(ts, x - 1, x - 1);
        assert Flows(ts, y, x);
      } else {
        assert StillIn(ts, y, x);
        assert !ts[y].Move? && !ts[y].Exit?;
      }
      assert StillIn(ts, y, x);
      LiveBefore(ts, y, x);
      var front := LiveIsPrecise(ts, y);
      path := front + [x];
      assert forall i :: 0 <= i < |path| - 1 ==> path[i] == front[i];
      forall i | 0 <= i < |path| - 1 ensures FlowsAt(ts, path, i) {
        if i < |front| - 1 { assert FlowsAt(ts, front, i); }
      }
    }
  }

  // ---------------------------------------------------------------- the shipped walk

  datatype Walk = Walk(live: bool, revive: Option<int>, findings: seq<nat>)

  function Wake(w: Walk, d: int): Walk {
    if w.revive.Some? && d < w.revive.value then w.(live := true, revive := None) else w
  }

  /** One event of the walk. */
  function Meet(w: Walk, t: Token, d: int, off: nat): Walk
    requires t.Pool? || t.Move?
  {
    var w := Wake(w, d);
    if t.Move? then w.(live := false, revive := if d <= 0 then None else Some(d))
    else if w.live then w.(findings := w.findings + [off])
    else w
  }

  /** The walk over the events before `k`. It looks at depths only where there is an event. */
  function WalkTo(ts: seq<Token>, k: nat): Walk
    requires k <= |ts|
  {
    if k == 0 then Walk(true, None, [])
    else
      var w := WalkTo(ts, k - 1);
      if ts[k - 1].Pool? || ts[k - 1].Move? then Meet(w, ts[k - 1], Depth(ts, k - 1), k - 1) else w
  }

  /** A nested consume with no `return`, `break` or `continue` between it and the end of its block. */
  ghost predicate CannotTell(ts: seq<Token>, m: nat) {
    && m < |ts| && ts[m].Move? && Depth(ts, m) > 0
    && forall e {:trigger ts[e]} :: m < e < |ts| && ts[e].Exit? ==> !StillIn(ts, m, e)
  }

  /** The innermost block around `m`. */
  ghost predicate Around(ts: seq<Token>, m: nat, o: nat, c: nat) {
    && Closes(ts, o, c) && o < m < c
    && forall p: nat, q: nat {:trigger Closes(ts, p, q)} :: Closes(ts, p, q) && p < m < q ==> p <= o
  }

  /** The first token from `k` on that is shallower than `m`, where one comes later. */
  lemma {:induction false} ShallowAfter(ts: seq<Token>, m: nat, k: nat, x: nat) returns (c: nat)
    requires m <= k <= x < |ts| && StillIn(ts, m, k) && Depth(ts, x + 1) < Depth(ts, m)
    ensures k <= c <= x && StillIn(ts, m, c) && ts[c].Close? && Depth(ts, c + 1) == Depth(ts, m) - 1
    decreases x - k
  {
    assert Depth(ts, k) >= Depth(ts, m);
    if Depth(ts, k + 1) < Depth(ts, m) { c := k; } else { c := ShallowAfter(ts, m, k + 1, x); }
  }

  /** The last token before `m` that is shallower. */
  lemma {:induction false} ShallowBefore(ts: seq<Token>, m: nat, k: nat) returns (o: nat)
    requires k <= m <= |ts| && Depth(ts, m) > 0 && forall j {:trigger Depth(ts, j)} :: k <= j <= m ==> Depth(ts, j) >= Depth(ts, m)
    ensures o < k && ts[o].Open? && Depth(ts, o) == Depth(ts, m) - 1
    ensures forall j {:trigger Depth(ts, j)} :: o < j <= m ==> Depth(ts, j) >= Depth(ts, m)
    decreases k
  {
    assert Depth(ts, k) >= Depth(ts, m);
    if Depth(ts, k - 1) < Depth(ts, m) { o := k - 1; } else { o := ShallowBefore(ts, m, k - 1); }
  }

  /** A nested token whose block closes has an innermost block around it, one level up. */
  lemma InnermostBlock(ts: seq<Token>, m: nat, x: nat) returns (o: nat, c: nat)
    requires m < x < |ts| && Depth(ts, m) > 0 && Depth(ts, x + 1) < Depth(ts, m) && !ts[m].Open? && !ts[m].Close?
    ensures Around(ts, m, o, c) && Depth(ts, m) == Depth(ts, o) + 1
  {
    c := ShallowAfter(ts, m, m, x);
    o := ShallowBefore(ts, m, m);
    forall p: nat, q: nat {:trigger Closes(ts, p, q)} | Closes(ts, p, q) && p < m < q ensures p <= o {
      assert Depth(ts, m) > Depth(ts, p);
    }
  }

  /** A nested consume cannot be modelled exactly when nothing between it and the end of the innermost block around it
      leaves that block; what comes after the block does not count. */
  lemma CannotTellExactly(ts: seq<Token>, m: nat, o: nat, c: nat)
    requires WellNested(ts) && m < |ts| && ts[m].Move? && Around(ts, m, o, c)
    ensures CannotTell(ts, m) <==> forall e {:trigger ts[e]} :: m < e < c ==> !ts[e].Exit?
  {
    assert Depth(ts, m) > Depth(ts, o) >= 0;
    var o', c' := InnermostBlock(ts, m, c);
    assert Depth(ts, c + 1) == Depth(ts, o);
    assert o == o';
    forall e | m < e < |ts| ensures StillIn(ts, m, e) <==> e <= c {
      if e > c { assert Depth(ts, c + 1) < Depth(ts, m); }
    }
  }

  method BraceDepths(ts: seq<Token>) returns (depths: seq<int>)
    ensures |depths| == |ts| && forall k :: 0 <= k < |ts| ==> depths[k] == Depth(ts, k + 1)
  {
    depths := [];
    var total := 0;
    for k := 0 to |ts|
      invariant |depths| == k && total == Depth(ts, k)
      invariant forall j :: 0 <= j < k ==> depths[j] == Depth(ts, j + 1)
    {
      total := total + ts[k].Delta();
      depths := depths + [total];
    }
  }

  method DepthBefore(ts: seq<Token>, depths: seq<int>, off: nat) returns (d: int)
    requires |depths| == |ts| && (forall k :: 0 <= k < |ts| ==> depths[k] == Depth(ts, k + 1)) && off <= |ts|
    ensures d == Depth(ts, off)
  {
    d := if off > 0 then depths[off - 1] else 0;
  }

  /** Where the block around a consume at depth `d` closes, and whether control leaves the block before. */
  method Diverges(ts: seq<Token>, depths: seq<int>, m: nat) returns (found: bool)
    requires |depths| == |ts| && (forall k :: 0 <= k < |ts| ==> depths[k] == Depth(ts, k + 1))
    requires m < |ts| && ts[m].Move? && Depth(ts, m) > 0
    ensures found <==> !CannotTell(ts, m)
  {
    var d := DepthBefore(ts, depths, m);
    var k := m + 1;
    while k < |ts| && !(ts[k].Close? && depths[k] < d)
      invariant m < k <= |ts| && StillIn(ts, m, k)
    {
      k := k + 1;
    }
    found := false;
    for e := m + 1 to k
      invariant found <==> exists x :: m < x < e && ts[x].Exit?
    {
      found := found || ts[e].Exit?;
    }
    assert k < |ts| ==> Depth(ts, k + 1) < Depth(ts, m);
  }

  /** The region scan: it fails exactly when some consume is one it cannot model, and otherwise reports what
      its walk finds. */
  method ScanRegion(ts: seq<Token>) returns (failed: bool, findings: seq<nat>)
    ensures failed <==> exists m: nat :: CannotTell(ts, m)
    ensures !failed ==> findings == WalkTo(ts, |ts|).findings
  {
    var depths := BraceDepths(ts);
    var live, revive := true, None;
    failed, findings := false, [];
    for off := 0 to |ts|
      invariant WalkTo(ts, off) == Walk(live, revive, findings)
      invariant forall m: nat {:trigger CannotTell(ts, m)} :: m < off ==> !CannotTell(ts, m)
    {
      if ts[off].Pool? || ts[off].Move? {
        var d := DepthBefore(ts, depths, off);
        if revive.Some? && d < revive.value { live, revive := true, None; }
        if ts[off].Move? {
          if d <= 0 {
            live, revive := false, None;
          } else {
            var found := Diverges(ts, depths, off);
            if !found { return true, []; }
            live, revive := false, Some(d);
          }
        } else if live {
          findings := findings + [off];
        }
      }
    }
  }

  // ---------------------------------------------------------------- the walk against the rule

  /** The last consume before `k`. */
  ghost predicate LastMove(ts: seq<Token>, m: nat, k: nat)
    requires k <= |ts|
  {
    m < k && ts[m].Move? && forall j {:trigger ts[j]} :: m < j < k ==> !ts[j].Move?
  }

  ghost predicate PoolBelow(ts: seq<Token>, m: nat, k: nat)
    requires m < |ts| && k <= |ts|
  {
    exists j {:trigger ts[j]} :: m < j < k && ts[j].Pool? && Depth(ts, j) < Depth(ts, m)
  }

  /** What the walk remembers: all that counts is the last consume and whether an event above its block was seen. */
  lemma {:induction false} WalkRemembers(ts: seq<Token>, k: nat)
    requires k <= |ts|
    ensures (forall j {:trigger ts[j]} :: 0 <= j < k ==> !ts[j].Move?) ==> WalkTo(ts, k).live && WalkTo(ts, k).revive.None?
    ensures forall m: nat :: LastMove(ts, m, k) ==>
              if Depth(ts, m) <= 0 then !WalkTo(ts, k).live && WalkTo(ts, k).revive.None?
              else if PoolBelow(ts, m, k) then WalkTo(ts, k).live && WalkTo(ts, k).revive.None?
              else !WalkTo(ts, k).live && WalkTo(ts, k).revive == Some(Depth(ts, m))
  {
    if k > 0 {
      WalkRemembers(ts, k - 1);
      forall m: nat | LastMove(ts, m, k)
        ensures if Depth(ts, m) <= 0 then !WalkTo(ts, k).live && WalkTo(ts, k).revive.None?
                else if PoolBelow(ts, m, k) then WalkTo(ts, k).live && WalkTo(ts, k).revive.None?
                else !WalkTo(ts, k).live && WalkTo(ts, k).revive == Some(Depth(ts, m))
      {
        if m < k - 1 { assert LastMove(ts, m, k - 1); }
      }
    }
  }

  lemma {:induction false} FindingsExactly(ts: seq<Token>, k: nat, x: nat)
    requires k <= |ts| && x < |ts|
    ensures x in WalkTo(ts, k).findings <==> x < k && ts[x].Pool? && Wake(WalkTo(ts, x), Depth(ts, x)).live
    decreases k
  {
    if k > 0 { FindingsExactly(ts, k - 1, x); }
  }

  /** Every consume stands where the transaction can still be open. */
  ghost predicate MovesLive(ts: seq<Token>) {
    forall m {:trigger ts[m]} :: 0 <= m < |ts| && ts[m].Move? ==> Live(ts, m)
  }

  lemma {:induction false} FindLastMove(ts: seq<Token>, k: nat) returns (m: Option<nat>)
    requires k <= |ts|
    ensures m.None? ==> forall j {:trigger ts[j]} :: 0 <= j < k ==> !ts[j].Move?
    ensures m.Some? ==> LastMove(ts, m.value, k)
  {
    if k == 0 { m := None; }
    else if ts[k - 1].Move? { m := Some(k - 1); }
    else { m := FindLastMove(ts, k - 1); }
  }

  /** Given that, only the last consume before a point matters to the rule. */
  lemma LiveByLastMove(ts: seq<Token>, m: nat, x: nat)
    requires MovesLive(ts) && x <= |ts| && LastMove(ts, m, x)
    ensures Live(ts, x) <==> !StillIn(ts, m, x)
  {
    if !StillIn(ts, m, x) {
      forall m' {:trigger ts[m']} | 0 <= m' < x && ts[m'].Move? ensures !StillIn(ts, m', x) {
        assert m' < m ==> !StillIn(ts, m', m);
      }
    }
  }

  lemma FoundByLastMove(ts: seq<Token>, m: nat, x: nat)
    requires x < |ts| && ts[x].Pool? && LastMove(ts, m, x)
    ensures x in WalkTo(ts, |ts|).findings <==> Depth(ts, m) > 0 && PoolBelow(ts, m, x + 1)
  {
    FindingsExactly(ts, |ts|, x);
    WalkRemembers(ts, x);
    assert PoolBelow(ts, m, x + 1) <==> PoolBelow(ts, m, x) || Depth(ts, x) < Depth(ts, m);
    hide PoolBelow, WalkTo, Depth;
  }

  lemma FoundWithoutMove(ts: seq<Token>, x: nat)
    requires x < |ts| && ts[x].Pool? && forall j {:trigger ts[j]} :: 0 <= j < x ==> !ts[j].Move?
    ensures x in WalkTo(ts, |ts|).findings
  {
    FindingsExactly(ts, |ts|, x);
    WalkRemembers(ts, x);
    hide WalkTo;
  }

  /** A pool access above the block of `m` shows that the block has closed. */
  lemma PoolBelowLeaves(ts: seq<Token>, m: nat, x: nat)
    requires m < x < |ts| && PoolBelow(ts, m, x + 1)
    ensures !StillIn(ts, m, x)
  {
    var j :| m < j < x + 1 && ts[j].Pool? && Depth(ts, j) < Depth(ts, m);
  }

  /** At a pool access the walk follows the rule, except that a block it has not noticed closing still counts. */
  lemma WalkAgainstRule(ts: seq<Token>, x: nat)
    requires WellNested(ts) && MovesLive(ts) && x < |ts| && ts[x].Pool?
    ensures x in WalkTo(ts, |ts|).findings ==> Live(ts, x)
    ensures forall m: nat :: LastMove(ts, m, x) ==>
              (x in WalkTo(ts, |ts|).findings <==> Depth(ts, m) > 0 && PoolBelow(ts, m, x + 1))
    ensures (forall j {:trigger ts[j]} :: 0 <= j < x ==> !ts[j].Move?) ==> x in WalkTo(ts, |ts|).findings
  {
    forall m: nat | LastMove(ts, m, x)
      ensures x in WalkTo(ts, |ts|).findings <==> Depth(ts, m) > 0 && PoolBelow(ts, m, x + 1)
    {
      FoundByLastMove(ts, m, x);
    }
    var last := FindLastMove(ts, x);
    if last.Some? {
      LiveByLastMove(ts, last.value, x);
      if PoolBelow(ts, last.value, x + 1) { PoolBelowLeaves(ts, last.value, x); }
    } else {
      FoundWithoutMove(ts, x);
    }
    hide WalkTo, PoolBelow, Depth, StillIn;
  }

  /** The branch whose closing the walk does not notice: the first event after the block of the nested consume
      `m` is a pool access no shallower than the consume. */
  ghost predicate Missed(ts: seq<Token>, m: nat, x: nat) {
    && m < x < |ts| && ts[m].Move? && ts[x].Pool?
    && Depth(ts, m) > 0 && Depth(ts, x) >= Depth(ts, m) && !StillIn(ts, m, x)
    && forall j {:trigger ts[j]} :: m < j < x && !StillIn(ts, m, j) ==> !ts[j].Pool? && !ts[j].Move?
  }

  ghost predicate Agrees(ts: seq<Token>) {
    forall x {:trigger ts[x]} :: 0 <= x < |ts| && ts[x].Pool? ==> (x in WalkTo(ts, |ts|).findings <==> Live(ts, x))
  }

  lemma MissedMeansSilent(ts: seq<Token>, m: nat, x: nat)
    requires WellNested(ts) && MovesLive(ts) && Missed(ts, m, x)
    ensures Live(ts, x) && x !in WalkTo(ts, |ts|).findings
  {
    assert LastMove(ts, m, x);
    LiveByLastMove(ts, m, x);
    WalkAgainstRule(ts, x);
  }

  /** The first event after the block of `m`, given a live pool access further on. */
  lemma {:induction false} FirstAfter(ts: seq<Token>, m: nat, x: nat, k: nat) returns (y: nat)
    requires m < k <= x < |ts| && ts[x].Pool? && LastMove(ts, m, x) && !StillIn(ts, m, x)
    requires forall j {:trigger ts[j]} :: m < j < k && !StillIn(ts, m, j) ==> !ts[j].Pool?
    ensures k <= y <= x && ts[y].Pool? && !StillIn(ts, m, y)
    ensures forall j {:trigger ts[j]} :: m < j < y && !StillIn(ts, m, j) ==> !ts[j].Pool? && !ts[j].Move?
    decreases x - k
  {
    if ts[k].Pool? && !StillIn(ts, m, k) { y := k; } else { y := FirstAfter(ts, m, x, k + 1); }
  }

  lemma {:induction false} FindingsInRange(ts: seq<Token>, k: nat, x: nat)
    requires k <= |ts| && x in WalkTo(ts, k).findings
    ensures x < k
    decreases k
  {
    if k > 0 && x in WalkTo(ts, k - 1).findings { FindingsInRange(ts, k - 1, x); }
  }

  lemma OwnDepthStays(ts: seq<Token>, m: nat, x: nat)
    requires WellNested(ts) && m <= x <= |ts|
    ensures Depth(ts, m) <= 0 ==> StillIn(ts, m, x)
  {
  }

  lemma LiveIsReported(ts: seq<Token>, x: nat)
    requires WellNested(ts) && MovesLive(ts) && (forall m: nat, x: nat :: !Missed(ts, m, x))
    requires x < |ts| && ts[x].Pool?
    ensures x in WalkTo(ts, |ts|).findings <==> Live(ts, x)
  {
    WalkAgainstRule(ts, x);
    var last := FindLastMove(ts, x);
    if last.Some? && Live(ts, x) {
      var m := last.value;
      LiveByLastMove(ts, m, x);
      var y := FirstAfter(ts, m, x, m + 1);
      assert !Missed(ts, m, y);
      OwnDepthStays(ts, m, x);
      assert PoolBelow(ts, m, x + 1);
    }
  }

  /** The shipped walk reports exactly the accesses the documented rule calls live if and only if no such branch
      occurs. It never reports more. */
  lemma AgreesExactly(ts: seq<Token>)
    requires WellNested(ts) && MovesLive(ts)
    ensures Agrees(ts) <==> forall m: nat, x: nat :: !Missed(ts, m, x)
    ensures forall x :: x in WalkTo(ts, |ts|).findings ==> x < |ts| && ts[x].Pool? && Live(ts, x)
  {
    forall x | x in WalkTo(ts, |ts|).findings ensures x < |ts| && ts[x].Pool? && Live(ts, x) {
      FindingsInRange(ts, |ts|, x);
      FindingsExactly(ts, |ts|, x);
      WalkAgainstRule(ts, x);
    }
    if Agrees(ts) {
      forall m: nat, x: nat ensures !Missed(ts, m, x) {
        if Missed(ts, m, x) { MissedMeansSilent(ts, m, x); }
      }
    }
    if forall m: nat, x: nat :: !Missed(ts, m, x) {
      forall x {:trigger ts[x]} | 0 <= x < |ts| && ts[x].Pool? ensures x in WalkTo(ts, |ts|).findings <==> Live(ts, x) {
        LiveIsReported(ts, x);
      }
    }
  }

  /** A use that consumes is only written where some path still has the transaction. */
  lemma MovesReachedAreLive(ts: seq<Token>)
    requires forall m: nat {:trigger ts[m]} :: m < |ts| && ts[m].Move? ==> exists path :: IsPath(ts, path, m) && Holding(ts, path)
    ensures MovesLive(ts)
  {
    forall m {:trigger ts[m]} | 0 <= m < |ts| && ts[m].Move? ensures Live(ts, m) {
      var path :| IsPath(ts, path, m) && Holding(ts, path);
      LiveIsSound(ts, path, m);
    }
  }

  /** In a helper that is handed the open transaction nothing is consumed, and every pool access is reported. */
  lemma HelperBodies(ts: seq<Token>, x: nat)
    requires forall j {:trigger ts[j]} :: 0 <= j < |ts| ==> !ts[j].Move?
    ensures x in WalkTo(ts, |ts|).findings <==> x < |ts| && ts[x].Pool?
  {
    if x < |ts| {
      FindingsExactly(ts, |ts|, x);
      WalkRemembers(ts, x);
    } else if x in WalkTo(ts, |ts|).findings {
      FindingsInRange(ts, |ts|, x);
    }
  }

  const ELSE_BRANCH := [Open, Move, Exit, Close, Open, Pool, Close]

  lemma ElseBranchDepths()
    ensures var ts := ELSE_BRANCH;
            && Depth(ts, 0) == 0 && Depth(ts, 1) == 1 && Depth(ts, 2) == 1 && Depth(ts, 3) == 1
            && Depth(ts, 4) == 0 && Depth(ts, 5) == 1 && Depth(ts, 6) == 1 && Depth(ts, 7) == 0
    ensures WellNested(ELSE_BRANCH) && MovesLive(ELSE_BRANCH)
    ensures forall m: nat :: !CannotTell(ELSE_BRANCH, m)
  {
    var ts := ELSE_BRANCH;
    assert Depth(ts, 0) == 0 && Depth(ts, 1) == 1 && Depth(ts, 2) == 1 && Depth(ts, 3) == 1;
    assert Depth(ts, 4) == 0 && Depth(ts, 5) == 1 && Depth(ts, 6) == 1 && Depth(ts, 7) == 0;
    assert StillIn(ts, 1, 2);
  }

  lemma ElseBranchPath()
    ensures IsPath(ELSE_BRANCH, [0, 4, 5], 5) && Holding(ELSE_BRANCH, [0, 4, 5])
  {
    var ts := ELSE_BRANCH;
    ElseBranchDepths();
    hide Depth;
    assert Closes(ts, 0, 3);
    assert Flows(ts, 0, 4) && Flows(ts, 4, 5);
  }

  lemma ElseBranchWalk()
    ensures WalkTo(ELSE_BRANCH, 7).findings == []
  {
    var ts := ELSE_BRANCH;
    ElseBranchDepths();
    hide Depth;
    assert WalkTo(ts, 1).live && WalkTo(ts, 2) == Walk(false, Some(1), []) && WalkTo(ts, 5) == WalkTo(ts, 4) == WalkTo(ts, 3) == WalkTo(ts, 2);
    assert WalkTo(ts, 6) == WalkTo(ts, 5);
  }

  /** `if .. { consume; return } else { pool access }`: a path reaches the access with the transaction open, the
      scan accepts the region, and reports nothing. */
  lemma ElseBranchIsMissed()
    ensures WellNested(ELSE_BRANCH) && MovesLive(ELSE_BRANCH)
    ensures IsPath(ELSE_BRANCH, [0, 4, 5], 5) && Holding(ELSE_BRANCH, [0, 4, 5])
    ensures forall m: nat :: !CannotTell(ELSE_BRANCH, m)
    ensures Live(ELSE_BRANCH, 5) && WalkTo(ELSE_BRANCH, 7).findings == []
  {
    var ts := ELSE_BRANCH;
    ElseBranchDepths();
    ElseBranchPath();
    ElseBranchWalk();
    hide Depth, IsPath, Holding, WalkTo, Live;
    LiveIsSound(ts, [0, 4, 5], 5);
  }

  // ---------------------------------------------------------------- where a region ends

  lemma {:induction false} RegionDepth(code: seq<Token>, start: nat, end: nat, k: nat)
    requires start <= end <= |code| && k <= end - start
    ensures Depth(code[start..end], k) == Depth(code, start + k) - Depth(code, start)
  {
    if k > 0 { RegionDepth(code, start, end, k - 1); }
  }

  lemma RegionWellNested(code: seq<Token>, start: nat, end: nat)
    requires start <= end <= |code| && StillIn(code, start, end)
    ensures WellNested(code[start..end])
  {
    forall k {:trigger Depth(code[start..end], k)} | 0 <= k <= |code[start..end]| ensures Depth(code[start..end], k) >= 0 {
      RegionDepth(code, start, end, k);
      assert Depth(code, start + k) >= Depth(code, start);
    }
  }

  /** The region of a binding made at `start`, in a file whose braces balance, runs to the brace that closes its
      block: it is well nested and ends back at the binding's own depth. A binding at depth 0 has no block. */
  method FindSpanEnd(code: seq<Token>, start: nat) returns (end: Option<nat>)
    requires start <= |code| && Depth(code, |code|) == 0
    ensures end.None? <==> Depth(code, start) == 0 && StillIn(code, start, |code|)
    ensures end.Some? ==> start <= end.value <= |code| && WellNested(code[start..end.value])
    ensures end.Some? && Depth(code, start) > 0 ==>
              end.value < |code| && code[end.value].Close? && Depth(code, end.value) == Depth(code, start)
  {
    var depths := BraceDepths(code);
    var begin := DepthBefore(code, depths, start);
    var off := start;
    while off < |code| && !(code[off].Close? && depths[off] < begin)
      invariant start <= off <= |code| && StillIn(code, start, off)
    {
      off := off + 1;
    }
    if off == |code| && begin == 0 { return None; }
    RegionWellNested(code, start, off);
    if off < |code| {
      assert Depth(code, off) >= begin && Depth(code, off + 1) == Depth(code, off) - 1;
      assert !StillIn(code, start, |code|);
    }
    return Some(off);
  }
}
