/** Blanking comments and literals out of Rust source: a reference tokenizer written by recursion on the text,
    and the index loops that are shipped, proved to compute the same. What that is of a text is said in
    `LexerGrammar`. */
module Lexer {
  import opened Wire

  datatype Error = UnterminatedComment | UnterminatedRawString | UnterminatedString

  datatype Result<+T> = Ok(value: T) | Err(error: Error)

  /** The length of a token: what is kept, what is blanked, what is kept again. A comment is all blanked, of a
      literal only the inside is. */
  datatype Piece = Piece(opening: nat, inside: nat, closing: nat) {
    function Size(): nat {
      opening + inside + closing
    }
  }

  /** Spaces, except that line breaks stay. */
  function Blank(s: string): (b: string)
    ensures |b| == |s|
  {
    seq(|s|, i requires 0 <= i < |s| => if s[i] == '\n' then '\n' else ' ')
  }

  function Masked(s: string, p: Piece): string
    requires p.Size() <= |s|
  {
    s[..p.opening] + Blank(s[p.opening..p.opening + p.inside]) + s[p.opening + p.inside..p.Size()]
  }

  // ---------------------------------------------------------------- the reference tokenizer

  predicate StartsWith(s: string, p: string) {
    |p| <= |s| && s[..|p|] == p
  }

  function LineLength(s: string): (n: nat)
    ensures n <= |s|
  {
    if s == "" || s[0] == '\n' then 0 else 1 + LineLength(s[1..])
  }

  function Plus(n: nat, m: Option<nat>): Option<nat> {
    if m.Some? then Some(n + m.value) else None
  }

  /** What is left of a block comment whose opening is behind us, up to and including its own closing;
      comments nest. */
  function CommentLength(s: string): (n: Option<nat>)
    ensures n.Some? ==> 2 <= n.value <= |s|
    decreases |s|
  {
    if |s| < 2 then None
    else if StartsWith(s, "/*") then
      match CommentLength(s[2..])
      case None => None
      case Some(inner) => Plus(2 + inner, CommentLength(s[2 + inner..]))
    else if StartsWith(s, "*/") then Some(2)
    else Plus(1, CommentLength(s[1..]))
  }

  function Hashes(s: string): (n: nat)
    ensures n <= |s| && forall i :: 0 <= i < n ==> s[i] == '#'
    ensures n < |s| ==> s[n] != '#'
  {
    if s == "" || s[0] != '#' then 0 else 1 + Hashes(s[1..])
  }

  function RawPrefix(s: string): nat {
    if StartsWith(s, "b") then 2 else 1
  }

  /** The opening of a raw string: `r` or `br`, hashes, a quote. */
  function RawOpening(s: string): (n: Option<nat>)
    ensures n.Some? ==> RawPrefix(s) < n.value <= |s|
  {
    var b := RawPrefix(s);
    if b <= |s| && s[b - 1] == 'r' then
      var h := Hashes(s[b..]);
      if b + h < |s| && s[b + h] == '"' then Some(b + h + 1) else None
    else None
  }

  /** The closing that belongs to an opening with `hashes` hashes. */
  function RawClosing(hashes: nat): string {
    "\"" + seq(hashes, _ => '#')
  }

  /** Where `p` first occurs. */
  function Find(s: string, p: string): (n: Option<nat>)
    ensures n.Some? ==> n.value + |p| <= |s|
  {
    if StartsWith(s, p) then Some(0) else if s == "" then None else Plus(1, Find(s[1..], p))
  }

  lemma {:induction false} FindExact(s: string, p: string)
    ensures Find(s, p).Some? ==> StartsWith(s[Find(s, p).value..], p)
    ensures forall i :: 0 <= i <= |s| && (Find(s, p).Some? ==> i < Find(s, p).value) ==> !StartsWith(s[i..], p)
  {
    if !StartsWith(s, p) && s != "" {
      FindExact(s[1..], p);
      assert forall i :: 1 <= i <= |s| ==> s[i..] == s[1..][i - 1..];
    }
  }

  /** The inside of a string literal whose opening quote is behind us. */
  function StringLength(s: string): (n: Option<nat>)
    ensures n.Some? ==> n.value < |s| && s[n.value] == '"'
    decreases |s|
  {
    if s == "" then None
    else if s[0] == '\\' then (if |s| < 2 then None else Plus(2, StringLength(s[2..])))
    else if s[0] == '"' then Some(0)
    else Plus(1, StringLength(s[1..]))
  }

  /** A quote opens a character literal only if it closes: after an escape at the next quote, otherwise after
      exactly one character. Any other quote belongs to a lifetime. */
  function CharLength(s: string): (n: Option<nat>)
    requires s != ""
    ensures n.Some? ==> 3 <= n.value <= |s|
  {
    if |s| >= 2 && s[1] == '\\' then
      if |s| >= 3 && s[2] != '\n' then Plus(4, Find(s[3..], "'")) else None
    else if |s| >= 3 && s[1] != '\'' && s[2] == '\'' then Some(3)
    else None
  }

  predicate WordChar(alnum: set<char>, prev: Option<char>) {
    prev.Some? && (prev.value in alnum || prev.value == '_')
  }

  function RawPiece(s: string): Result<Piece>
    requires RawOpening(s).Some?
  {
    var n := RawOpening(s).value;
    var closing := RawClosing(n - 1 - RawPrefix(s));
    match Find(s[n..], closing)
    case None => Err(UnterminatedRawString)
    case Some(m) => Ok(Piece(n, m, |closing|))
  }

  function CommentPiece(s: string): Result<Piece>
    requires |s| >= 2
  {
    match CommentLength(s[2..])
    case None => Err(UnterminatedComment)
    case Some(n) => Ok(Piece(0, 2 + n, 0))
  }

  function StringPiece(s: string): Result<Piece>
    requires s != ""
  {
    match StringLength(s[1..])
    case None => Err(UnterminatedString)
    case Some(n) => Ok(Piece(1, n, 1))
  }

  /** The first token of `s` when `prev` is the character before it. `alnum` is the host's notion of letters
      and digits. */
  function First(s: string, prev: Option<char>, alnum: set<char>): (r: Result<Piece>)
    requires s != ""
    ensures r.Ok? ==> 0 < r.value.Size() <= |s|
  {
    if StartsWith(s, "//") then assert s[0] != '\n'; Ok(Piece(0, LineLength(s), 0))
    else if StartsWith(s, "/*") then CommentPiece(s)
    else if RawOpening(s).Some? && !WordChar(alnum, prev) then RawPiece(s)
    else if s[0] == '"' then StringPiece(s)
    else if s[0] == '\'' && CharLength(s).Some? then Ok(Piece(1, CharLength(s).value - 2, 1))
    else Ok(Piece(1, 0, 0))
  }

  function Prepend(text: string, r: Result<string>): Result<string> {
    if r.Ok? then Ok(text + r.value) else r
  }

  /** The source with its comments and the insides of its literals blanked. */
  function Strip(s: string, prev: Option<char>, alnum: set<char>): Result<string>
    decreases |s|
  {
    if s == "" then Ok("")
    else match First(s, prev, alnum)
      case Err(e) => Err(e)
      case Ok(p) => Prepend(Masked(s, p), Strip(s[p.Size()..], Some(s[p.Size() - 1]), alnum))
  }

  // ---------------------------------------------------------------- what blanking keeps

  /** Same length, every line break in place, and nothing written but spaces. */
  ghost predicate SameLayout(s: string, code: string) {
    && |code| == |s|
    && forall i :: 0 <= i < |s| ==> (code[i] == '\n' <==> s[i] == '\n') && (code[i] == s[i] || code[i] == ' ')
  }

  lemma MaskedKeepsLayout(s: string, p: Piece, rest: string)
    requires p.Size() <= |s| && SameLayout(s[p.Size()..], rest)
    ensures SameLayout(s, Masked(s, p) + rest)
  {
    var code := Masked(s, p) + rest;
    forall i | 0 <= i < |s| ensures (code[i] == '\n' <==> s[i] == '\n') && (code[i] == s[i] || code[i] == ' ') {
      if i >= p.Size() { assert code[i] == rest[i - p.Size()] && s[i] == s[p.Size()..][i - p.Size()]; }
    }
  }

  lemma {:induction false} StripKeepsLayout(s: string, prev: Option<char>, alnum: set<char>)
    requires Strip(s, prev, alnum).Ok?
    ensures SameLayout(s, Strip(s, prev, alnum).value)
    decreases |s|
  {
    if s != "" {
      var p := First(s, prev, alnum).value;
      var rest := Strip(s[p.Size()..], Some(s[p.Size() - 1]), alnum);
      StripKeepsLayout(s[p.Size()..], Some(s[p.Size() - 1]), alnum);
      MaskedKeepsLayout(s, p, rest.value);
    }
  }

  // ---------------------------------------------------------------- the loops

  lemma Suffix(src: string, i: nat, n: nat)
    requires i + n <= |src|
    ensures src[i..][n..] == src[i + n..] && src[i..][..n] == src[i..i + n]
  {
  }

  function BlankedOut(s: string, start: nat, end: nat): (b: string)
    requires start <= end <= |s|
    ensures |b| == |s|
  {
    s[..start] + Blank(s[start..end]) + s[end..]
  }

  method BlankOut(code: string, start: nat, end: nat) returns (out: string)
    requires start <= end <= |code|
    ensures out == BlankedOut(code, start, end)
  {
    out := code;
    for k := start to end
      invariant out == BlankedOut(code, start, k)
    {
      if out[k] != '\n' { out := out[k := ' ']; }
    }
  }

  method LineEnd(src: string, i: nat) returns (j: nat)
    requires i <= |src|
    ensures j == i + LineLength(src[i..])
  {
    j := i;
    while j < |src| && src[j] != '\n'
      invariant i <= j <= |src| && i + LineLength(src[i..]) == j + LineLength(src[j..])
    {
      assert src[j..][1..] == src[j + 1..];
      j := j + 1;
    }
  }

  /** `depth` comments still to close. */
  function CloseAll(s: string, depth: nat): (n: Option<nat>)
    ensures n.Some? ==> n.value <= |s|
    decreases depth
  {
    if depth == 0 then Some(0)
    else match CommentLength(s)
      case None => None
      case Some(n) => Plus(n, CloseAll(s[n..], depth - 1))
  }

  lemma FitsIn(s: string, p: string)
    requires StartsWith(s, p)
    ensures |p| <= |s|
  {
  }

  lemma CommentOpens(s: string)
    requires |s| >= 2 && StartsWith(s, "/*")
    ensures CommentLength(s) == match CommentLength(s[2..])
                                case None => None
                                case Some(inner) => Plus(2 + inner, CommentLength(s[2 + inner..]))
  {
    hide StartsWith;
  }

  lemma CommentPasses(s: string)
    requires s != "" && !StartsWith(s, "/*") && !StartsWith(s, "*/")
    ensures CommentLength(s) == Plus(1, CommentLength(s[1..]))
  {
    if |s| == 1 { assert CommentLength(s[1..]) == None; }
  }

  /** The first comment closes, then the others. */
  lemma CloseFirst(s: string, depth: nat)
    requires depth > 0
    ensures CloseAll(s, depth)
            == var n := CommentLength(s); if n.None? then None else Plus(n.value, CloseAll(s[n.value..], depth - 1))
  {
  }

  lemma CloseAllOpened(s: string, depth: nat, n: nat)
    requires depth > 0 && 2 + n <= |s| && CommentLength(s[2..]) == Some(n)
    requires CommentLength(s) == Plus(2 + n, CommentLength(s[2 + n..]))
    ensures CloseAll(s, depth) == Plus(2, CloseAll(s[2..], depth + 1))
  {
    hide CommentLength, CloseAll;
    var t, m := s[2..], s[2 + n..];
    assert t[n..] == m;
    CloseFirst(s, depth);
    CloseFirst(t, depth + 1);
    CloseFirst(m, depth);
    assert CloseAll(t, depth + 1) == Plus(n, CloseAll(m, depth));
    var rest := CommentLength(m);
    if rest.Some? {
      var e := s[2 + n + rest.value..];
      assert m[rest.value..] == e;
      assert CloseAll(m, depth) == Plus(rest.value, CloseAll(e, depth - 1));
      assert CloseAll(s, depth) == Plus(2 + n + rest.value, CloseAll(e, depth - 1));
    } else {
      assert CloseAll(m, depth) == None;
    }
  }

  lemma CloseAllOpens(s: string, depth: nat)
    requires depth > 0 && StartsWith(s, "/*")
    ensures CloseAll(s, depth) == Plus(2, CloseAll(s[2..], depth + 1))
  {
    hide CommentLength, CloseAll, StartsWith;
    FitsIn(s, "/*");
    CommentOpens(s);
    var inner := CommentLength(s[2..]);
    CloseFirst(s, depth);
    CloseFirst(s[2..], depth + 1);
    if inner.Some? { CloseAllOpened(s, depth, inner.value); }
  }

  lemma CloseAllCloses(s: string, depth: nat)
    requires depth > 0 && StartsWith(s, "*/")
    ensures CloseAll(s, depth) == Plus(2, CloseAll(s[2..], depth - 1))
  {
  }

  lemma CloseAllPasses(s: string, depth: nat)
    requires depth > 0 && s != "" && !StartsWith(s, "/*") && !StartsWith(s, "*/")
    ensures CloseAll(s, depth) == Plus(1, CloseAll(s[1..], depth))
  {
    hide CommentLength, StartsWith, CloseAll;
    CommentPasses(s);
    CloseFirst(s, depth);
    CloseFirst(s[1..], depth);
    var rest := CommentLength(s[1..]);
    if rest.Some? {
      var e := s[1 + rest.value..];
      assert s[1..][rest.value..] == e;
      assert CloseAll(s[1..], depth) == Plus(rest.value, CloseAll(e, depth - 1));
    }
  }

  /** The comment scan with a nesting counter instead of recursion. */
  function Count(s: string, depth: nat): (n: Option<nat>)
    decreases |s|
  {
    if depth == 0 then Some(0)
    else if s == "" then None
    else if StartsWith(s, "/*") then Plus(2, Count(s[2..], depth + 1))
    else if StartsWith(s, "*/") then Plus(2, Count(s[2..], depth - 1))
    else Plus(1, Count(s[1..], depth))
  }

  /** Counting finds the end of `depth` nested comments exactly where recursion does. */
  lemma {:induction false} CountIsRecursion(s: string, depth: nat)
    ensures Count(s, depth) == CloseAll(s, depth)
    decreases |s|
  {
    if depth > 0 && s != "" {
      if StartsWith(s, "/*") {
        CountIsRecursion(s[2..], depth + 1);
        CloseAllOpens(s, depth);
      } else if StartsWith(s, "*/") {
        CountIsRecursion(s[2..], depth - 1);
        CloseAllCloses(s, depth);
      } else {
        CountIsRecursion(s[1..], depth);
        CloseAllPasses(s, depth);
      }
    }
  }

  method At(src: string, p: string, j: nat) returns (here: bool)
    requires j <= |src|
    ensures here == StartsWith(src[j..], p)
  {
    here := j + |p| <= |src| && src[j..j + |p|] == p;
    if j + |p| <= |src| { Suffix(src, j, |p|); }
  }

  ghost predicate Counting(src: string, i: nat, j: nat, depth: nat) {
    i + 2 <= j <= |src| && Count(src[i + 2..], 1) == Plus(j - (i + 2), Count(src[j..], depth))
  }

  lemma CountUnfolds(src: string, j: nat, depth: nat)
    requires depth > 0 && j < |src|
    ensures StartsWith(src[j..], "/*") || StartsWith(src[j..], "*/") ==> j + 2 <= |src|
    ensures Count(src[j..], depth)
            == if StartsWith(src[j..], "/*") then Plus(2, Count(src[j + 2..], depth + 1))
               else if StartsWith(src[j..], "*/") then Plus(2, Count(src[j + 2..], depth - 1))
               else Plus(1, Count(src[j + 1..], depth))
  {
    var s := src[j..];
    if StartsWith(s, "/*") || StartsWith(s, "*/") { Suffix(src, j, 2); } else { Suffix(src, j, 1); }
  }

  lemma CountNext(src: string, i: nat, j: nat, depth: nat)
    requires Counting(src, i, j, depth) && depth > 0 && j < |src|
    ensures if StartsWith(src[j..], "/*") then Counting(src, i, j + 2, depth + 1)
            else if StartsWith(src[j..], "*/") then Counting(src, i, j + 2, depth - 1)
            else Counting(src, i, j + 1, depth)
  {
    CountUnfolds(src, j, depth);
    hide Count, StartsWith;
  }

  method CommentEnd(src: string, i: nat) returns (j: nat, depth: nat)
    requires i + 2 <= |src|
    ensures depth > 0 <==> Count(src[i + 2..], 1).None?
    ensures depth == 0 ==> j == i + 2 + Count(src[i + 2..], 1).value
  {
    depth, j := 1, i + 2;
    while j < |src| && depth > 0
      invariant Counting(src, i, j, depth)
      decreases |src| - j
    {
      CountNext(src, i, j, depth);
      var opens := At(src, "/*", j);
      var closes := At(src, "*/", j);
      if opens {
        depth, j := depth + 1, j + 2;
      } else if closes {
        depth, j := depth - 1, j + 2;
      } else {
        j := j + 1;
      }
    }
  }

  lemma CountOne(s: string)
    ensures Count(s, 1) == CommentLength(s)
  {
    CountIsRecursion(s, 1);
    var n := CommentLength(s);
    if n.Some? { assert CloseAll(s[n.value..], 0) == Some(0); }
  }

  lemma FindNext(src: string, p: string, k: nat)
    requires p != "" && k + |p| <= |src| && src[k..k + |p|] != p
    ensures Find(src[k..], p) == Plus(1, Find(src[k + 1..], p))
  {
    Suffix(src, k, 1);
    Suffix(src, k, |p|);
  }

  lemma {:induction false} FindTooShort(s: string, p: string)
    requires |s| < |p|
    ensures Find(s, p) == None
  {
    if s != "" { FindTooShort(s[1..], p); }
  }

  lemma FindEnds(src: string, p: string, k: nat)
    requires p != "" && k <= |src| && (k + |p| <= |src| ==> src[k..k + |p|] == p)
    ensures Find(src[k..], p) == if k + |p| <= |src| then Some(0) else None
  {
    if k + |p| <= |src| {
      Suffix(src, k, |p|);
    } else {
      FindTooShort(src[k..], p);
    }
  }

  method FindFrom(src: string, p: string, i: nat) returns (j: Option<nat>)
    requires i <= |src| && p != ""
    ensures j == Plus(i, Find(src[i..], p))
  {
    hide Find;
    var k := i;
    while k + |p| <= |src| && src[k..k + |p|] != p
      invariant i <= k <= |src|
      invariant Find(src[i..], p) == Plus(k - i, Find(src[k..], p))
    {
      FindNext(src, p, k);
      k := k + 1;
    }
    FindEnds(src, p, k);
    j := if k + |p| <= |src| then Some(k) else None;
  }

  lemma RawPrefixAt(src: string, i: nat)
    requires i <= |src|
    ensures RawPrefix(src[i..]) == if i < |src| && src[i] == 'b' then 2 else 1
  {
    if i < |src| { Suffix(src, i, 1); }
  }

  lemma NoRawOpening(src: string, i: nat)
    requires i <= |src| && (i + RawPrefix(src[i..]) <= |src| ==> src[i + RawPrefix(src[i..]) - 1] != 'r')
    ensures RawOpening(src[i..]) == None
  {
    hide Hashes;
  }

  lemma HashesNext(src: string, j: nat)
    requires j < |src| && src[j] == '#'
    ensures Hashes(src[j..]) == 1 + Hashes(src[j + 1..])
  {
    Suffix(src, j, 1);
  }

  lemma HashesEnd(src: string, j: nat)
    requires j <= |src| && (j < |src| ==> src[j] != '#')
    ensures Hashes(src[j..]) == 0
  {
  }

  /** The rest of the opening, once its prefix is passed. */
  lemma RawOpeningAt(src: string, i: nat, from: nat)
    requires i < from <= |src| && from - i == RawPrefix(src[i..]) && src[from - 1] == 'r'
    ensures var end := from + Hashes(src[from..]);
            end <= |src| && RawOpening(src[i..]) == if end < |src| && src[end] == '"' then Some(end + 1 - i) else None
  {
    var s, b := src[i..], from - i;
    assert s[b - 1] == 'r' && s[b..] == src[from..];
    hide RawPrefix, Hashes;
    var end := b + Hashes(s[b..]);
    assert end < |s| ==> s[end] == src[i + end];
  }

  /** The pattern for a raw string's opening, matched at `i`. */
  method MatchRawOpening(src: string, i: nat) returns (end: Option<nat>)
    requires i <= |src|
    ensures end == Plus(i, RawOpening(src[i..]))
  {
    hide RawOpening, Hashes, RawPrefix;
    RawPrefixAt(src, i);
    var j := i;
    if j < |src| && src[j] == 'b' { j := j + 1; }
    if j == |src| || src[j] != 'r' {
      NoRawOpening(src, i);
      return None;
    }
    j := j + 1;
    ghost var from := j;
    while j < |src| && src[j] == '#'
      invariant from <= j <= |src| && from + Hashes(src[from..]) == j + Hashes(src[j..])
    {
      HashesNext(src, j);
      j := j + 1;
    }
    HashesEnd(src, j);
    RawOpeningAt(src, i, from);
    end := if j < |src| && src[j] == '"' then Some(j + 1) else None;
  }

  /** `j` is reached from `i` without passing an unescaped quote; it can overshoot by one. */
  ghost predicate InString(src: string, i: nat, j: nat) {
    && i <= j <= |src| + 1 && i <= |src|
    && StringLength(src[i..]) == if j <= |src| then Plus(j - i, StringLength(src[j..])) else None
  }

  lemma StringUnfolds(src: string, j: nat)
    requires j < |src| && src[j] != '"'
    ensures StringLength(src[j..])
            == if src[j] != '\\' then Plus(1, StringLength(src[j + 1..]))
               else if j + 2 <= |src| then Plus(2, StringLength(src[j + 2..])) else None
  {
    Suffix(src, j, if src[j] == '\\' && j + 2 <= |src| then 2 else 1);
  }

  lemma StringNext(src: string, i: nat, j: nat)
    requires InString(src, i, j) && j < |src| && src[j] != '"'
    ensures InString(src, i, if src[j] == '\\' then j + 2 else j + 1)
  {
    StringUnfolds(src, j);
    hide StringLength;
  }

  method StringEnd(src: string, i: nat) returns (j: nat)
    requires i <= |src|
    ensures j >= |src| <==> StringLength(src[i..]).None?
    ensures j < |src| ==> j == i + StringLength(src[i..]).value
  {
    j := i;
    while j < |src| && src[j] != '"'
      invariant InString(src, i, j)
      decreases |src| + 1 - j
    {
      StringNext(src, i, j);
      j := if src[j] == '\\' then j + 2 else j + 1;
    }
  }

  method MatchCharLiteral(src: string, i: nat) returns (end: Option<nat>)
    requires i < |src|
    ensures end == Plus(i, CharLength(src[i..]))
  {
    if i + 1 < |src| && src[i + 1] == '\\' {
      if i + 2 < |src| && src[i + 2] != '\n' {
        Suffix(src, i, 3);
        var quote := FindFrom(src, "'", i + 3);
        end := Plus(1, quote);
      } else {
        end := None;
      }
    } else if i + 2 < |src| && src[i + 1] != '\'' && src[i + 2] == '\'' {
      end := Some(i + 3);
    } else {
      end := None;
    }
  }

  lemma RawOpeningIsLong(s: string)
    requires RawOpening(s).Some?
    ensures RawOpening(s).value > RawPrefix(s)
  {
  }

  method Raw(src: string, i: nat, end: nat) returns (r: Result<Piece>)
    requires i < |src| && RawOpening(src[i..]) == Some(end - i) && end <= |src|
    ensures r == RawPiece(src[i..])
  {
    hide RawOpening, Find, StartsWith;
    RawPrefixAt(src, i);
    RawOpeningIsLong(src[i..]);
    hide RawPrefix;
    var prefix := if src[i] == 'b' then 2 else 1;
    var close := "\"" + seq(end - i - 1 - prefix, _ => '#');
    assert close == RawClosing(end - i - 1 - prefix);
    hide RawClosing;
    var j := FindFrom(src, close, end);
    Suffix(src, i, end - i);
    r := if j.None? then Err(UnterminatedRawString) else Ok(Piece(end - i, j.value - end, |close|));
  }

  function Before(src: string, i: nat): Option<char>
    requires i <= |src|
  {
    if i == 0 then None else Some(src[i - 1])
  }

  /** One round of the main loop: what stands at `i`. */
  method Next(src: string, i: nat, alnum: set<char>) returns (r: Result<Piece>)
    requires i < |src|
    ensures r == First(src[i..], Before(src, i), alnum)
  {
    hide LineLength, CommentLength, Count, Hashes, Find, StringLength;
    var c := src[i];
    var line := At(src, "//", i);
    if line {
      var j := LineEnd(src, i);
      return Ok(Piece(0, j - i, 0));
    }
    var block := At(src, "/*", i);
    if block {
      var j, depth := CommentEnd(src, i);
      Suffix(src, i, 2);
      CountOne(src[i + 2..]);
      if depth > 0 { return Err(UnterminatedComment); }
      return Ok(Piece(0, j - i, 0));
    }
    var m := MatchRawOpening(src, i);
    if m.Some? && (i == 0 || !(src[i - 1] in alnum || src[i - 1] == '_')) {
      r := Raw(src, i, m.value);
      return;
    }
    if c == '"' {
      var j := StringEnd(src, i + 1);
      Suffix(src, i, 1);
      if j >= |src| { return Err(UnterminatedString); }
      return Ok(Piece(1, j - (i + 1), 1));
    }
    if c == '\'' {
      var end := MatchCharLiteral(src, i);
      if end.Some? { return Ok(Piece(1, end.value - i - 2, 1)); }
    }
    return Ok(Piece(1, 0, 0));
  }

  /** Everything before `i` is done, and `done` is what became of it. */
  ghost predicate StripsTo(src: string, i: nat, done: string, alnum: set<char>) {
    i <= |src| && Strip(src, None, alnum) == Prepend(done, Strip(src[i..], Before(src, i), alnum))
  }

  /** `out` is the source with everything before `i` blanked. */
  ghost predicate Blanked(src: string, i: nat, out: string, alnum: set<char>) {
    i <= |src| == |out| && out[i..] == src[i..] && StripsTo(src, i, out[..i], alnum)
  }

  /** Strings that agree from `i` on agree on every part of that. */
  lemma SameFrom(s: string, t: string, i: nat, from: nat, to: nat)
    requires i <= from <= to <= |s| == |t| && s[i..] == t[i..]
    ensures s[from..to] == t[from..to]
  {
    forall k | from <= k < to ensures s[k] == t[k] { assert s[i..][k - i] == s[k] && t[i..][k - i] == t[k]; }
  }

  lemma Replaced(s: string, a: nat, b: nat, c: nat, mid: string)
    requires a <= b <= c <= |s| && |mid| == b - a
    ensures (s[..a] + mid + s[b..])[..c] == s[..a] + mid + s[b..c]
    ensures (s[..a] + mid + s[b..])[c..] == s[c..]
  {
  }

  lemma Associate(s: string, i: nat, a: nat, mid: string, end: string)
    requires i <= a <= |s|
    ensures s[..a] + mid + end == s[..i] + (s[i..a] + mid + end)
  {
    assert s[..a] == s[..i] + s[i..a];
  }

  lemma MaskedAt(src: string, i: nat, p: Piece)
    requires i + p.Size() <= |src|
    ensures var a, b := i + p.opening, i + p.opening + p.inside;
            Masked(src[i..], p) == src[i..a] + Blank(src[a..b]) + src[b..i + p.Size()]
  {
    assert src[i..][p.opening..p.opening + p.inside] == src[i + p.opening..i + p.opening + p.inside];
  }

  lemma BlankedPiece(src: string, i: nat, p: Piece, was: string, now: string)
    requires i + p.Size() <= |src| == |was| && was[i..] == src[i..]
    requires now == BlankedOut(was, i + p.opening, i + p.opening + p.inside)
    ensures now[..i + p.Size()] == was[..i] + Masked(src[i..], p) && now[i + p.Size()..] == src[i + p.Size()..]
  {
    var a, b, c := i + p.opening, i + p.opening + p.inside, i + p.Size();
    hide Blank, Masked;
    MaskedAt(src, i, p);
    SameFrom(was, src, i, a, b);
    SameFrom(was, src, i, b, c);
    SameFrom(was, src, i, i, a);
    SameFrom(was, src, i, c, |src|);
    Replaced(was, a, b, c, Blank(was[a..b]));
    Associate(was, i, a, Blank(was[a..b]), was[b..c]);
  }

  lemma StripUnfolds(src: string, i: nat, p: Piece, alnum: set<char>)
    requires i < |src| && First(src[i..], Before(src, i), alnum) == Ok(p)
    ensures i + p.Size() <= |src|
    ensures Strip(src[i..], Before(src, i), alnum)
            == Prepend(Masked(src[i..], p), Strip(src[i + p.Size()..], Before(src, i + p.Size()), alnum))
  {
    Suffix(src, i, p.Size());
    hide First, Masked, StartsWith;
  }

  lemma Joins(a: string, b: string, c: string)
    ensures a + (b + c) == a + b + c
  {
  }

  lemma StripStep(src: string, i: nat, done: string, p: Piece, alnum: set<char>)
    requires i < |src| && StripsTo(src, i, done, alnum) && First(src[i..], Before(src, i), alnum) == Ok(p)
    ensures StripsTo(src, i + p.Size(), done + Masked(src[i..], p), alnum)
  {
    var rest := Strip(src[i + p.Size()..], Before(src, i + p.Size()), alnum);
    StripUnfolds(src, i, p, alnum);
    hide Strip, First, Masked;
    if rest.Ok? { Joins(done, Masked(src[i..], p), rest.value); }
  }

  lemma StripStops(src: string, i: nat, done: string, alnum: set<char>)
    requires i < |src| && StripsTo(src, i, done, alnum) && First(src[i..], Before(src, i), alnum).Err?
    ensures Strip(src, None, alnum) == Err(First(src[i..], Before(src, i), alnum).error)
  {
  }

  /** A round either blanks one more token or ends with its error. */
  lemma NextDone(src: string, i: nat, next: Result<Piece>, out: string, alnum: set<char>)
    requires i < |src| && Blanked(src, i, out, alnum) && next == First(src[i..], Before(src, i), alnum)
    ensures next.Ok? ==> 0 < next.value.Size() <= |src| - i
    ensures next.Ok? ==> var p := next.value;
              Blanked(src, i + p.Size(), BlankedOut(out, i + p.opening, i + p.opening + p.inside), alnum)
    ensures next.Err? ==> Strip(src, None, alnum) == Err(next.error)
  {
    hide First, Strip;
    if next.Ok? {
      var p := next.value;
      StripStep(src, i, out[..i], p, alnum);
      BlankedPiece(src, i, p, out, BlankedOut(out, i + p.opening, i + p.opening + p.inside));
    } else {
      StripStops(src, i, out[..i], alnum);
    }
  }

  lemma StripStarts(src: string, alnum: set<char>)
    ensures Blanked(src, 0, src, alnum)
  {
    assert src[0..] == src && src[..0] == "";
    var r := Strip(src, None, alnum);
    if r.Ok? { assert "" + r.value == r.value; }
  }

  lemma StripEnds(src: string, i: nat, done: string, alnum: set<char>)
    requires Blanked(src, i, done, alnum) && i >= |src|
    ensures Strip(src, None, alnum) == Ok(done)
  {
    assert src[|src|..] == "" && done[..|src|] == done && done + "" == done;
  }

  /** The loop that is shipped. */
  method StripNoncode(src: string, alnum: set<char>) returns (r: Result<string>)
    ensures r == Strip(src, None, alnum)
  {
    hide First, Strip;
    var out, i := src, 0;
    StripStarts(src, alnum);
    while i < |src|
      invariant Blanked(src, i, out, alnum)
    {
      var next := Next(src, i, alnum);
      NextDone(src, i, next, out, alnum);
      if next.Err? { return Err(next.error); }
      var p := next.value;
      out := BlankOut(out, i + p.opening, i + p.opening + p.inside);
      i := i + p.Size();
    }
    StripEnds(src, i, out, alnum);
    return Ok(out);
  }
}
