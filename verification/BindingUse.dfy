/** Whether a use of the transaction's binding consumes it, decided from the text around the use: the rule over
    all of that text, and the reading of a few characters on each side that is shipped. */
module BindingUse {
  import opened Wire

  datatype Use = Moves | Borrows

  /** The host's white space, and its letters, digits and underscore. */
  datatype Classes = Classes(space: set<char>, word: set<char>)

  predicate Usual(c: Classes) {
    && c.space !! c.word
    && '.' !in c.space + c.word && '&' !in c.space + c.word && '*' !in c.space + c.word
    && 'm' in c.word && 'u' in c.word && 't' in c.word
  }

  /** From `i` to `j` there are only `chars`. */
  predicate Only(s: string, i: nat, j: nat, chars: set<char>)
    requires j <= |s|
  {
    forall x :: i <= x < j ==> s[x] in chars
  }

  // ---------------------------------------------------------------- after the use

  /** How much of the front of `s` consists of `chars`. */
  function Span(s: string, chars: set<char>): (n: nat)
    ensures n <= |s| && Only(s, 0, n, chars) && (n < |s| ==> s[n] !in chars)
  {
    if s == "" || s[0] !in chars then 0 else 1 + Span(s[1..], chars)
  }

  /** Past white space, a dot follows the use. */
  predicate HasDot(after: string, c: Classes) {
    var n := Span(after, c.space);
    n < |after| && after[n] == '.'
  }

  /** Where the name after that dot starts. */
  function NameAt(after: string, c: Classes): (k: nat)
    requires HasDot(after, c)
    ensures k <= |after|
  {
    var n := Span(after, c.space) + 1;
    n + Span(after[n..], c.space)
  }

  function Name(after: string, c: Classes): string
    requires HasDot(after, c)
  {
    var rest := after[NameAt(after, c)..];
    rest[..Span(rest, c.word)]
  }

  predicate EndsTransaction(name: string) {
    name == "commit" || name == "rollback"
  }

  // ---------------------------------------------------------------- before the use

  /** `&` and `mut` at `k`, white space between them and some after. */
  predicate MutMark(t: string, k: nat, c: Classes) {
    && 1 <= k < |t| - 3 && t[0] == '&' && t[k] == 'm' && t[k + 1] == 'u' && t[k + 2] == 't'
    && Only(t, 1, k, c.space) && Only(t, k + 3, |t|, c.space)
  }

  /** `&` or `*` and white space, or `& mut` with white space after it. */
  ghost predicate BorrowMark(t: string, c: Classes) {
    && t != ""
    && (|| ((t[0] == '&' || t[0] == '*') && Only(t, 1, |t|, c.space))
        || exists k: nat :: MutMark(t, k, c))
  }

  /** The length of `s` without the `chars` at its end. */
  function Trimmed(s: string, chars: set<char>): (n: nat)
    ensures n <= |s| && Only(s, n, |s|, chars) && (n > 0 ==> s[n - 1] !in chars)
  {
    if s == "" || s[|s| - 1] !in chars then |s| else Trimmed(s[..|s| - 1], chars)
  }

  /** Where the borrow mark that ends `s` starts. */
  function MarkStart(s: string, c: Classes): (i: Option<nat>)
    ensures i.Some? ==> i.value < |s|
  {
    var n := Trimmed(s, c.space);
    if n > 0 && (s[n - 1] == '&' || s[n - 1] == '*') then Some(n - 1)
    else if n < |s| && n > 3 && s[n - 3] == 'm' && s[n - 2] == 'u' && s[n - 1] == 't' then
      var m := Trimmed(s[..n - 3], c.space);
      if m > 0 && s[m - 1] == '&' then Some(m - 1) else None
    else None
  }

  lemma TrimmedUnique(s: string, chars: set<char>, n: nat)
    requires n <= |s| && Only(s, n, |s|, chars) && (n > 0 ==> s[n - 1] !in chars)
    ensures n == Trimmed(s, chars)
  {
  }

  lemma MarkFound(s: string, c: Classes, i: nat)
    requires Usual(c) && i < |s| && BorrowMark(s[i..], c)
    ensures MarkStart(s, c) == Some(i)
  {
    var t := s[i..];
    if Only(t, 1, |t|, c.space) {
      forall x | i + 1 <= x < |s| ensures s[x] in c.space {
        assert s[x] == t[x - i];
      }
      TrimmedUnique(s, c.space, i + 1);
    } else {
      var k: nat :| MutMark(t, k, c);
      var n := i + k + 3;
      forall x | n <= x < |s| ensures s[x] in c.space {
        assert s[x] == t[x - i];
      }
      TrimmedUnique(s, c.space, n);
      var front := s[..n - 3];
      forall x | i + 1 <= x < |front| ensures front[x] in c.space {
        assert front[x] == t[x - i];
      }
      TrimmedUnique(front, c.space, i + 1);
    }
  }

  lemma MarkReaches(s: string, c: Classes, i: nat)
    requires Usual(c) && MarkStart(s, c) == Some(i)
    ensures BorrowMark(s[i..], c)
  {
    var t, n := s[i..], Trimmed(s, c.space);
    if i != n - 1 {
      var front := s[..n - 3];
      forall x | 1 <= x < n - 3 - i ensures t[x] in c.space {
        assert t[x] == front[i + x];
      }
      assert MutMark(t, n - 3 - i, c);
    }
  }

  /** It is the one place from which a borrow mark reaches to the end. */
  lemma MarkStartExact(s: string, c: Classes, i: nat)
    requires Usual(c) && i < |s|
    ensures MarkStart(s, c) == Some(i) <==> BorrowMark(s[i..], c)
  {
    if BorrowMark(s[i..], c) {
      MarkFound(s, c, i);
    }
    if MarkStart(s, c) == Some(i) {
      MarkReaches(s, c, i);
    }
  }

  // ---------------------------------------------------------------- the rule, and how it is read

  /** `name.commit()` and `name.rollback()` consume and other method calls borrow; `&name`, `&mut name` and
      `&mut *name` borrow; any other use moves. */
  function Reading(before: string, after: string, c: Classes): Use {
    if HasDot(after, c) then (if EndsTransaction(Name(after, c)) then Moves else Borrows)
    else if MarkStart(before, c).Some? then Borrows
    else Moves
  }

  function Documented(code: string, start: nat, end: nat, c: Classes): Use
    requires start <= end <= |code|
  {
    Reading(code[..start], code[end..], c)
  }

  function Front(s: string): string {
    if |s| <= 32 then s else s[..32]
  }

  function Back(s: string): string {
    if |s| <= 16 then s else s[|s| - 16..]
  }

  /** What is shipped looks at 16 characters before the use and 32 after it. */
  function ClassifyBindingUse(code: string, start: nat, end: nat, c: Classes): Use
    requires start <= end <= |code|
  {
    Reading(Back(code[..start]), Front(code[end..]), c)
  }

  lemma SpanUnique(s: string, n: nat, chars: set<char>)
    requires n <= |s| && Only(s, 0, n, chars) && (n < |s| ==> s[n] !in chars)
    ensures n == Span(s, chars)
  {
  }

  lemma SpanOfFront(s: string, k: nat, chars: set<char>)
    requires k <= |s|
    ensures Span(s[..k], chars) == if Span(s, chars) <= k then Span(s, chars) else k
  {
    SpanUnique(s[..k], if Span(s, chars) <= k then Span(s, chars) else k, chars);
  }

  /** Too much white space before the dot hides it. */
  predicate DotHidden(after: string, c: Classes) {
    HasDot(after, c) && Span(after, c.space) >= 32
  }

  /** What is left of the name within 32 characters. */
  function NameSeen(after: string, c: Classes): string
    requires HasDot(after, c)
  {
    var name, at := Name(after, c), NameAt(after, c);
    if at >= 32 then "" else if at + |name| <= 32 then name else name[..32 - at]
  }

  lemma FrontFrom(s: string, k: nat)
    requires |s| > 32 && k <= 32
    ensures s[..32][k..] == s[k..][..32 - k]
  {
  }

  lemma FrontNameAt(after: string, c: Classes)
    requires |after| > 32 && HasDot(after, c) && HasDot(after[..32], c) && Span(after, c.space) < 32
    ensures NameAt(after[..32], c) == if NameAt(after, c) <= 32 then NameAt(after, c) else 32
  {
    hide Span;
    var n := Span(after, c.space);
    SpanOfFront(after, 32, c.space);
    FrontFrom(after, n + 1);
    SpanOfFront(after[n + 1..], 31 - n, c.space);
  }

  lemma NameOfFront(after: string, at: nat, c: Classes)
    requires |after| > 32 && at <= 32
    ensures var front, rest := after[..32][at..], after[at..];
            var n := Span(rest, c.word);
            front[..Span(front, c.word)] == if at + n <= 32 then rest[..n] else rest[..n][..32 - at]
  {
    FrontFrom(after, at);
    SpanOfFront(after[at..], 32 - at, c.word);
  }

  lemma FrontName(after: string, c: Classes)
    requires |after| > 32 && HasDot(after, c) && HasDot(after[..32], c) && Span(after, c.space) < 32
    ensures Name(after[..32], c) == NameSeen(after, c)
  {
    FrontNameAt(after, c);
    hide NameAt, HasDot;
    var at := NameAt(after, c);
    if at <= 32 {
      NameOfFront(after, at, c);
    }
  }

  lemma FrontReads(after: string, c: Classes)
    requires Usual(c)
    ensures HasDot(Front(after), c) <==> HasDot(after, c) && !DotHidden(after, c)
    ensures HasDot(after, c) && !DotHidden(after, c) ==> Name(Front(after), c) == NameSeen(after, c)
  {
    if |after| > 32 {
      SpanOfFront(after, 32, c.space);
      if HasDot(after, c) && !DotHidden(after, c) {
        FrontName(after, c);
      }
    } else if HasDot(after, c) {
      assert NameAt(after, c) + |Name(after, c)| <= 32;
    }
  }

  lemma SameMark(before: string, i: nat, c: Classes)
    requires Usual(c) && i < |Back(before)|
    ensures MarkStart(Back(before), c) == Some(i) <==> MarkStart(before, c) == Some(|before| - |Back(before)| + i)
  {
    var back := Back(before);
    var d := |before| - |back|;
    assert back[i..] == before[d + i..];
    hide MarkStart, BorrowMark, Usual;
    MarkStartExact(back, c, i);
    MarkStartExact(before, c, d + i);
  }

  lemma BackReads(before: string, c: Classes)
    requires Usual(c)
    ensures MarkStart(Back(before), c).Some? <==> MarkStart(before, c).Some? && MarkStart(before, c).value + 16 >= |before|
  {
    hide MarkStart;
    var back := Back(before);
    if MarkStart(back, c).Some? {
      SameMark(before, MarkStart(back, c).value, c);
    }
    if MarkStart(before, c).Some? && MarkStart(before, c).value + 16 >= |before| {
      SameMark(before, MarkStart(before, c).value - (|before| - |back|), c);
    }
  }

  /** The shipped reading is the documented one exactly unless the layout hides something: a dot 32 or more
      characters away, where what stands before the use decides instead of the method; a method name cut off so
      that it becomes, or stops being, one that ends the transaction; or, without a dot, a borrow mark that
      starts more than 16 characters back. */
  lemma ClassifiedExactly(code: string, start: nat, end: nat, c: Classes)
    requires Usual(c) && start <= end <= |code|
    ensures var before, after := code[..start], code[end..];
            ClassifyBindingUse(code, start, end, c) == Documented(code, start, end, c)
            <==> if DotHidden(after, c) then
                   var mark := MarkStart(before, c);
                   EndsTransaction(Name(after, c)) <==> mark.None? || mark.value + 16 < |before|
                 else if HasDot(after, c) then
                   EndsTransaction(Name(after, c)) <==> EndsTransaction(NameSeen(after, c))
                 else
                   var mark := MarkStart(before, c);
                   mark.Some? ==> mark.value + 16 >= |before|
  {
    FrontReads(code[end..], c);
    BackReads(code[..start], c);
  }

  /** A call laid out within 32 characters, or a borrow mark within 16, is read as documented. */
  lemma UsualLayoutIsRead(code: string, start: nat, end: nat, c: Classes)
    requires Usual(c) && start <= end <= |code|
    requires var after := code[end..];
             if HasDot(after, c) then NameAt(after, c) + |Name(after, c)| <= 32
             else MarkStart(code[..start], c).Some? ==> MarkStart(code[..start], c).value + 16 >= start
    ensures ClassifyBindingUse(code, start, end, c) == Documented(code, start, end, c)
  {
    hide MarkStart, ClassifyBindingUse, Documented, Usual;
    ClassifiedExactly(code, start, end, c);
  }

  /** A method call chained 40 columns in is taken for a use that consumes. */
  lemma DeepChainIsMisread(c: Classes)
    requires Usual(c) && ' ' in c.space
    ensures var code := "tx" + seq(40, _ => ' ') + ".id";
            Documented(code, 0, 2, c) == Borrows && ClassifyBindingUse(code, 0, 2, c) == Moves
  {
    var gap := seq(40, _ => ' ');
    var after := gap + ".id";
    assert ("tx" + gap + ".id")[2..] == after;
    SpanUnique(after, 40, c.space);
    FrontReads(after, c);
    assert |Name(after, c)| <= 2;
  }

  // ---------------------------------------------------------------- the uses there are

  predicate AllIn(s: string, chars: set<char>) {
    forall x :: 0 <= x < |s| ==> s[x] in chars
  }

  lemma CallReads(gap: string, name: string, rest: string, c: Classes)
    requires Usual(c) && AllIn(gap, c.space) && AllIn(name, c.word) && name != "" && (rest == "" || rest[0] !in c.word)
    ensures var after := gap + "." + name + rest; HasDot(after, c) && Name(after, c) == name && NameAt(after, c) == |gap| + 1
  {
    var after := gap + "." + name + rest;
    SpanUnique(after, |gap|, c.space);
    var behind := after[|gap| + 1..];
    assert behind == name + rest;
    SpanUnique(behind, 0, c.space);
    SpanUnique(behind, |name|, c.word);
  }

  /** A method call on the binding consumes it exactly if the method is `commit` or `rollback`; one that is laid out
      within 32 characters is shipped as such. */
  lemma CallsExactly(before: string, binding: string, gap: string, name: string, rest: string, c: Classes)
    requires Usual(c) && AllIn(gap, c.space) && AllIn(name, c.word) && name != "" && (rest == "" || rest[0] !in c.word)
    ensures var (code, end) := (before + binding + (gap + "." + name + rest), |before| + |binding|);
            && (Documented(code, |before|, end, c) == Moves <==> name == "commit" || name == "rollback")
            && (|gap| + 1 + |name| <= 32 ==>
                  (ClassifyBindingUse(code, |before|, end, c) == Moves <==> name == "commit" || name == "rollback"))
  {
    var after := gap + "." + name + rest;
    var code, end := before + binding + after, |before| + |binding|;
    CallReads(gap, name, rest, c);
    assert code[end..] == after && code[..|before|] == before;
    if |gap| + 1 + |name| <= 32 { UsualLayoutIsRead(code, |before|, end, c); }
    hide HasDot, Name, NameAt, ClassifyBindingUse, MarkStart;
  }

  /** Any other use consumes it exactly if no borrow mark stands directly before it. */
  lemma OtherUsesExactly(before: string, binding: string, after: string, c: Classes)
    requires Usual(c) && !HasDot(after, c)
    ensures var (code, end) := (before + binding + after, |before| + |binding|);
            Documented(code, |before|, end, c) == Moves <==> forall i :: 0 <= i < |before| ==> !BorrowMark(before[i..], c)
  {
    var code, end := before + binding + after, |before| + |binding|;
    assert code[end..] == after && code[..|before|] == before;
    forall i | 0 <= i < |before| ensures MarkStart(before, c) == Some(i) <==> BorrowMark(before[i..], c) {
      MarkStartExact(before, c, i);
    }
  }
}
