/** Line numbers by binary search over the starts of lines. */
module LineNumbers {
  import opened Wire
  import opened Lexer

  function Newlines(s: string): nat {
    if s == "" then 0 else Newlines(s[..|s| - 1]) + (if s[|s| - 1] == '\n' then 1 else 0)
  }

  lemma {:induction false} NewlinesGrow(s: string, a: nat, b: nat)
    requires a <= b <= |s|
    ensures Newlines(s[..a]) <= Newlines(s[..b])
    decreases b
  {
    if a < b {
      NewlinesGrow(s, a, b - 1);
      assert s[..b][..b - 1] == s[..b - 1];
    }
  }

  /** `starts[i]` is where line `i + 1` begins: right behind the `i`-th line break. */
  ghost predicate AreLineStarts(starts: seq<nat>, code: string) {
    && |starts| == Newlines(code) + 1 && starts[0] == 0
    && forall i {:trigger starts[i]} :: 0 <= i < |starts| ==>
         starts[i] <= |code| && Newlines(code[..starts[i]]) == i && (i > 0 ==> starts[i] > 0 && code[starts[i] - 1] == '\n')
  }

  lemma StartsExtend(starts: seq<nat>, code: string, k: nat)
    requires k < |code| && AreLineStarts(starts, code[..k])
    ensures AreLineStarts(if code[k] == '\n' then starts + [k + 1] else starts, code[..k + 1])
  {
    var before, after := code[..k], code[..k + 1];
    var now := if code[k] == '\n' then starts + [k + 1] else starts;
    assert after[..k] == before && after[..k + 1] == after;
    forall i {:trigger now[i]} | 0 <= i < |now|
      ensures now[i] <= |after| && Newlines(after[..now[i]]) == i && (i > 0 ==> now[i] > 0 && after[now[i] - 1] == '\n')
    {
      if i < |starts| { assert now[i] == starts[i] && after[..now[i]] == before[..now[i]]; }
    }
  }

  method LineStarts(code: string) returns (starts: seq<nat>)
    ensures AreLineStarts(starts, code)
  {
    starts := [0];
    for k := 0 to |code|
      invariant AreLineStarts(starts, code[..k])
    {
      StartsExtend(starts, code, k);
      if code[k] == '\n' { starts := starts + [k + 1]; }
    }
    assert code[..|code|] == code;
  }

  /** A line has begun by `off` exactly when that many line breaks lie before `off`. */
  lemma StartedBy(starts: seq<nat>, code: string, i: nat, off: nat)
    requires AreLineStarts(starts, code) && i < |starts| && off <= |code|
    ensures starts[i] <= off <==> i <= Newlines(code[..off])
  {
    if starts[i] <= off {
      NewlinesGrow(code, starts[i], off);
    } else {
      NewlinesGrow(code, off, starts[i] - 1);
      assert code[..starts[i]][..starts[i] - 1] == code[..starts[i] - 1];
    }
  }

  method LineOf(starts: seq<nat>, ghost code: string, off: nat) returns (line: nat)
    requires AreLineStarts(starts, code) && off <= |code|
    ensures line == 1 + Newlines(code[..off])
  {
    var lo, hi := 0, |starts| - 1;
    NewlinesGrow(code, off, |code|);
    assert code[..|code|] == code;
    while lo < hi
      invariant 0 <= lo <= Newlines(code[..off]) <= hi < |starts|
    {
      var mid := (lo + hi + 1) / 2;
      StartedBy(starts, code, mid, off);
      if starts[mid] <= off { lo := mid; } else { hi := mid - 1; }
    }
    line := lo + 1;
  }

  lemma {:induction false} SameLayoutSameLines(s: string, code: string, off: nat)
    requires SameLayout(s, code) && off <= |s|
    ensures Newlines(code[..off]) == Newlines(s[..off])
  {
    if off > 0 {
      SameLayoutSameLines(s, code, off - 1);
      assert s[..off][..off - 1] == s[..off - 1] && code[..off][..off - 1] == code[..off - 1];
    }
  }

  /** A finding at an offset of the stripped text is reported on its line in the original file. */
  method LineInOriginal(src: string, alnum: set<char>, off: nat) returns (line: Result<nat>)
    requires off <= |src|
    ensures line.Ok? <==> Strip(src, None, alnum).Ok?
    ensures line.Ok? ==> line.value == 1 + Newlines(src[..off])
  {
    var code := StripNoncode(src, alnum);
    if code.Err? { return Err(code.error); }
    StripKeepsLayout(src, None, alnum);
    SameLayoutSameLines(src, code.value, off);
    var starts := LineStarts(code.value);
    var n := LineOf(starts, code.value, off);
    return Ok(n);
  }
}
