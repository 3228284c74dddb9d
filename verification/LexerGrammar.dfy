/** What source text consists of, without any scanning: items one after the other, and what is to be left of them. */
module LexerGrammar {
  import opened Wire
  import opened Lexer

  /** A block comment after its opening: characters and whole comments, then the closing. */
  datatype Comment = End | Letter(c: char, rest: Comment) | Nested(inner: Comment, rest: Comment)

  datatype StringChar = Bare(c: char) | Escaped(c: char)

  datatype CharInside = One(c: char) | Escape(c: char, more: string)

  datatype Item =
    | LineComment(text: string)
    | BlockComment(body: Comment)
    | RawString(byte: bool, hashes: nat, inside: string)
    | StringLiteral(chars: seq<StringChar>)
    | CharLiteral(letter: CharInside)
    | Lone(c: char)

  // ---------------------------------------------------------------- writing items down

  function Pounds(n: nat): (t: string)
    ensures |t| == n
  {
    seq(n, _ => '#')
  }

  function CommentText(body: Comment): string {
    match body
    case End => "*/"
    case Letter(c, rest) => [c] + CommentText(rest)
    case Nested(inner, rest) => "/*" + CommentText(inner) + CommentText(rest)
  }

  function StringText(chars: seq<StringChar>): string {
    if chars == [] then ""
    else (if chars[0].Bare? then [chars[0].c] else ['\\', chars[0].c]) + StringText(chars[1..])
  }

  function CharText(x: CharInside): string {
    match x
    case One(c) => [c]
    case Escape(c, more) => ['\\', c] + more
  }

  function RawStart(byte: bool, hashes: nat): string {
    (if byte then "br" else "r") + Pounds(hashes) + "\""
  }

  function RawEnd(hashes: nat): string {
    "\"" + Pounds(hashes)
  }

  /** What stands in the text before, inside and behind what is to be blanked. */
  function Left(x: Item): string {
    match x
    case RawString(byte, hashes, _) => RawStart(byte, hashes)
    case StringLiteral(_) => "\""
    case CharLiteral(_) => "'"
    case Lone(c) => [c]
    case _ => ""
  }

  function Inside(x: Item): string {
    match x
    case LineComment(text) => "//" + text
    case BlockComment(body) => "/*" + CommentText(body)
    case RawString(_, _, inside) => inside
    case StringLiteral(chars) => StringText(chars)
    case CharLiteral(letter) => CharText(letter)
    case Lone(_) => ""
  }

  function Right(x: Item): string {
    match x
    case RawString(_, hashes, _) => RawEnd(hashes)
    case StringLiteral(_) => "\""
    case CharLiteral(_) => "'"
    case _ => ""
  }

  function Text(x: Item): string {
    Left(x) + Inside(x) + Right(x)
  }

  function Render(items: seq<Item>): string {
    if items == [] then "" else Text(items[0]) + Render(items[1..])
  }

  function Spaces(t: string): (b: string)
    ensures |b| == |t|
  {
    seq(|t|, i requires 0 <= i < |t| => if t[i] == '\n' then '\n' else ' ')
  }

  /** What is to be left of one item: comments are blanked wholly, literals inside; everything else stays. */
  function ExpectedOf(x: Item): string {
    Left(x) + Spaces(Inside(x)) + Right(x)
  }

  function Expected(items: seq<Item>): string {
    if items == [] then "" else Left(items[0]) + Spaces(Inside(items[0])) + Right(items[0]) + Expected(items[1..])
  }

  // ---------------------------------------------------------------- items that are written right

  /** A letter of a comment does not begin an opening or a closing. */
  predicate CommentFits(body: Comment) {
    match body
    case End => true
    case Letter(c, rest) =>
      CommentFits(rest) && !StartsWith([c] + CommentText(rest), "/*") && !StartsWith([c] + CommentText(rest), "*/")
    case Nested(inner, rest) => CommentFits(inner) && CommentFits(rest)
  }

  predicate Contains(t: string, c: char) {
    exists i :: 0 <= i < |t| && t[i] == c
  }

  predicate CharFits(x: CharInside) {
    match x
    case One(c) => c != '\'' && c != '\\'
    case Escape(c, more) => c != '\n' && !Contains(more, '\'')
  }

  ghost predicate CharsFit(chars: seq<StringChar>) {
    forall i :: 0 <= i < |chars| && chars[i].Bare? ==> chars[i].c != '"' && chars[i].c != '\\'
  }

  /** The first `p` in `t + p` is the one at the end. */
  predicate EndsAtFirst(t: string, p: string) {
    forall i :: 0 <= i < |t| ==> !StartsWith((t + p)[i..], p)
  }

  ghost predicate StartsRaw(t: string) {
    exists byte, hashes {:trigger RawStart(byte, hashes)} :: StartsWith(t, RawStart(byte, hashes))
  }

  ghost predicate StartsChar(t: string) {
    exists x {:trigger CharFits(x)} :: CharFits(x) && StartsWith(t, "'" + CharText(x) + "'")
  }

  predicate InWord(alnum: set<char>, prev: Option<char>) {
    prev.Some? && prev.value in alnum + {'_'}
  }

  /** An item that `rest` follows and `prev` comes before. A character stands alone only where nothing else begins. */
  ghost predicate Fits(x: Item, prev: Option<char>, rest: string, alnum: set<char>) {
    match x
    case LineComment(text) => !Contains(text, '\n') && (rest == "" || rest[0] == '\n')
    case BlockComment(body) => CommentFits(body)
    case RawString(_, hashes, inside) => !InWord(alnum, prev) && EndsAtFirst(inside, RawEnd(hashes))
    case StringLiteral(chars) => CharsFit(chars)
    case CharLiteral(letter) => CharFits(letter)
    case Lone(c) =>
      var t := [c] + rest;
      && !StartsWith(t, "//") && !StartsWith(t, "/*") && c != '"'
      && !StartsChar(t) && (StartsRaw(t) ==> InWord(alnum, prev))
  }

  function Last(t: string): char
    requires t != ""
  {
    t[|t| - 1]
  }

  lemma TextNonempty(x: Item)
    ensures Text(x) != ""
  {
  }

  /** Items that `after` follows. */
  ghost predicate WellFormed(items: seq<Item>, prev: Option<char>, after: string, alnum: set<char>) {
    items == []
    || (TextNonempty(items[0]);
        Fits(items[0], prev, Render(items[1..]) + after, alnum) && WellFormed(items[1..], Some(Last(Text(items[0]))), after, alnum))
  }

  /** The character before what follows the items. */
  function Behind(items: seq<Item>, prev: Option<char>): Option<char> {
    if items == [] then prev else TextNonempty(items[0]); Behind(items[1..], Some(Last(Text(items[0]))))
  }

  // ---------------------------------------------------------------- what the tokenizer makes of them

  lemma {:induction false} LineLengthOf(text: string, rest: string)
    requires !Contains(text, '\n') && (rest == "" || rest[0] == '\n')
    ensures LineLength(text + rest) == |text|
  {
    if text == "" {
      assert text + rest == rest;
    } else {
      assert text[0] != '\n';
      forall i | 0 <= i < |text[1..]| ensures text[1..][i] != '\n' { assert text[1..][i] == text[i + 1]; }
      LineLengthOf(text[1..], rest);
      assert (text + rest)[1..] == text[1..] + rest;
    }
  }

  lemma CommentTextLong(body: Comment)
    ensures |CommentText(body)| >= 2
  {
  }

  lemma StartsWithin(t: string, rest: string, p: string)
    requires |p| <= |t|
    ensures StartsWith(t + rest, p) <==> StartsWith(t, p)
  {
    assert (t + rest)[..|p|] == t[..|p|];
  }

  lemma NestedSplits(a: string, b: string, rest: string)
    ensures var s := "/*" + a + b + rest;
            |s| >= 2 && StartsWith(s, "/*") && s[2..] == a + (b + rest) && s[2 + |a|..] == b + rest
  {
    var s := "/*" + a + b + rest;
    assert s[..2] == "/*";
  }

  lemma NestedLength(a: string, b: string, rest: string)
    requires CommentLength(a + (b + rest)) == Some(|a|) && CommentLength(b + rest) == Some(|b|)
    ensures CommentLength("/*" + a + b + rest) == Some(2 + |a| + |b|)
  {
    NestedSplits(a, b, rest);
    hide CommentLength, StartsWith;
    CommentOpens("/*" + a + b + rest);
  }

  lemma LetterLength(c: char, t: string, rest: string)
    requires |t| >= 2 && !StartsWith([c] + t, "/*") && !StartsWith([c] + t, "*/")
    requires CommentLength(t + rest) == Some(|t|)
    ensures CommentLength([c] + t + rest) == Some(1 + |t|)
  {
    hide CommentLength, StartsWith;
    StartsWithin([c] + t, rest, "/*");
    StartsWithin([c] + t, rest, "*/");
    var s := [c] + t + rest;
    assert s[1..] == t + rest;
    CommentPasses(s);
  }

  lemma EndLength(rest: string)
    ensures CommentLength("*/" + rest) == Some(2)
  {
    assert ("*/" + rest)[..2] == "*/";
  }

  lemma {:induction false} CommentLengthOf(body: Comment, rest: string)
    requires CommentFits(body)
    ensures CommentLength(CommentText(body) + rest) == Some(|CommentText(body)|)
  {
    hide CommentLength, StartsWith;
    match body
    case End => EndLength(rest);
    case Letter(c, more) =>
      CommentLengthOf(more, rest);
      assert CommentText(body) == [c] + CommentText(more);
      CommentTextLong(more);
      hide CommentText;
      LetterLength(c, CommentText(more), rest);
    case Nested(inner, more) =>
      var a, b := CommentText(inner), CommentText(more);
      CommentLengthOf(inner, b + rest);
      CommentLengthOf(more, rest);
      assert CommentText(body) == "/*" + a + b;
      hide CommentText, CommentFits;
      NestedLength(a, b, rest);
  }

  lemma {:induction false} HashesOf(n: nat, rest: string)
    requires rest == "" || rest[0] != '#'
    ensures Hashes(Pounds(n) + rest) == n
  {
    if n == 0 {
      assert Pounds(0) + rest == rest;
    } else {
      HashesOf(n - 1, rest);
      assert (Pounds(n) + rest)[1..] == Pounds(n - 1) + rest;
    }
  }

  lemma RawOpeningOf(byte: bool, hashes: nat, rest: string)
    ensures RawOpening(RawStart(byte, hashes) + rest) == Some(|RawStart(byte, hashes)|)
    ensures RawPrefix(RawStart(byte, hashes) + rest) == if byte then 2 else 1
  {
    var s := RawStart(byte, hashes) + rest;
    var b := if byte then 2 else 1;
    assert s[..1] == if byte then "b" else "r";
    assert s[b..] == Pounds(hashes) + ("\"" + rest);
    HashesOf(hashes, "\"" + rest);
  }

  lemma DropWithin(t: string, rest: string, i: nat)
    requires i <= |t|
    ensures (t + rest)[i..] == t[i..] + rest
  {
  }

  lemma FindOf(t: string, p: string, rest: string)
    requires EndsAtFirst(t, p)
    ensures Find(t + p + rest, p) == Some(|t|)
  {
    var s := t + p + rest;
    FindExact(s, p);
    hide Find;
    assert s[|t|..] == p + rest;
    forall i | 0 <= i < |t| ensures !StartsWith(s[i..], p) {
      DropWithin(t + p, rest, i);
      StartsWithin((t + p)[i..], rest, p);
    }
  }

  lemma {:induction false} StringLengthOf(chars: seq<StringChar>, rest: string)
    requires CharsFit(chars)
    ensures StringLength(StringText(chars) + "\"" + rest) == Some(|StringText(chars)|)
  {
    var s := StringText(chars) + "\"" + rest;
    if chars != [] {
      var more := StringText(chars[1..]) + "\"" + rest;
      StringLengthOf(chars[1..], rest);
      if chars[0].Bare? { assert s[1..] == more; } else { assert s[2..] == more; }
    }
  }

  lemma CharLengthOf(x: CharInside, rest: string)
    requires CharFits(x)
    ensures CharLength("'" + CharText(x) + "'" + rest) == Some(|CharText(x)| + 2)
  {
    if x.Escape? {
      var s := "'" + CharText(x) + "'" + rest;
      assert s[3..] == x.more + "'" + rest;
      forall i | 0 <= i < |x.more| ensures !StartsWith((x.more + "'")[i..], "'") {
        assert (x.more + "'")[i..][0] == x.more[i];
      }
      FindOf(x.more, "'", rest);
    }
  }

  // ---------------------------------------------------------------- and back

  lemma {:induction false} LineLengthIs(s: string)
    ensures !Contains(s[..LineLength(s)], '\n') && (LineLength(s) < |s| ==> s[LineLength(s)] == '\n')
  {
    if s != "" && s[0] != '\n' {
      LineLengthIs(s[1..]);
      var n := LineLength(s);
      forall i | 0 <= i < n ensures s[..n][i] != '\n' {
        if i > 0 { assert s[1..][..n - 1][i - 1] == s[i]; }
      }
    }
  }

  lemma Cut(s: string, a: nat, n: nat)
    requires a <= n <= |s|
    ensures s[..n] == s[..a] + s[a..][..n - a]
  {
  }

  lemma NestedText(s: string, a: nat, b: nat)
    requires 2 + a + b <= |s| && StartsWith(s, "/*")
    ensures s[..2 + a + b] == "/*" + s[2..][..a] + s[2 + a..][..b]
  {
  }

  lemma InnerReads(s: string, t: string)
    requires |s| >= 2 && StartsWith(s, "/*") && CommentLength(s).Some? && t == s[2..]
    ensures CommentLength(t).Some?
  {
    hide StartsWith;
  }

  lemma OuterReads(s: string, t: string, u: string, a: nat)
    requires |s| >= 2 && StartsWith(s, "/*") && CommentLength(s).Some? && t == s[2..]
    requires CommentLength(t) == Some(a) && a <= |t| && u == s[2 + a..]
    ensures CommentLength(u).Some? && CommentLength(s) == Some(2 + a + CommentLength(u).value)
  {
    hide CommentLength, StartsWith;
    CommentOpens(s);
    assert CommentLength(s) == Plus(2 + a, CommentLength(u));
  }

  lemma LetterIs(s: string, more: Comment)
    requires s != "" && !StartsWith(s, "/*") && !StartsWith(s, "*/") && CommentLength(s).Some?
    requires CommentFits(more) && CommentLength(s[1..]).Some? && CommentText(more) == s[1..][..CommentLength(s[1..]).value]
    ensures CommentFits(Letter(s[0], more)) && CommentText(Letter(s[0], more)) == s[..CommentLength(s).value]
  {
    CommentPasses(s);
    CommentTextLong(more);
    var n := CommentLength(s).value;
    hide CommentLength;
    Cut(s, 1, n);
    assert s[..n] + s[n..] == s;
    StartsWithin(s[..n], s[n..], "/*");
    StartsWithin(s[..n], s[n..], "*/");
  }

  lemma {:induction false} CommentIs(s: string) returns (body: Comment)
    requires CommentLength(s).Some?
    ensures CommentFits(body) && CommentText(body) == s[..CommentLength(s).value]
    decreases |s|
  {
    if StartsWith(s, "/*") {
      FitsIn(s, "/*");
      hide CommentLength, StartsWith;
      var t := s[2..];
      InnerReads(s, t);
      var a := CommentLength(t).value;
      var u := s[2 + a..];
      OuterReads(s, t, u, a);
      var inner := CommentIs(t);
      var more := CommentIs(u);
      NestedText(s, a, CommentLength(u).value);
      body := Nested(inner, more);
    } else if StartsWith(s, "*/") {
      body := End;
    } else {
      CommentPasses(s);
      hide CommentLength, CommentText, StartsWith;
      var more := CommentIs(s[1..]);
      body := Letter(s[0], more);
      LetterIs(s, more);
    }
  }

  lemma HashesIs(s: string)
    ensures s[..Hashes(s)] == Pounds(Hashes(s))
  {
  }

  lemma RawOpeningIs(s: string) returns (byte: bool, hashes: nat)
    requires RawOpening(s).Some?
    ensures s[..RawOpening(s).value] == RawStart(byte, hashes)
    ensures hashes == RawOpening(s).value - 1 - RawPrefix(s)
  {
    var b := RawPrefix(s);
    byte, hashes := StartsWith(s, "b"), Hashes(s[b..]);
    HashesIs(s[b..]);
    assert s[..b] == if byte then "br" else "r";
    assert s[..b + hashes + 1] == s[..b] + s[b..][..hashes] + [s[b + hashes]];
  }

  lemma FindIs(s: string, p: string)
    requires Find(s, p).Some?
    ensures var n := Find(s, p).value; EndsAtFirst(s[..n], p) && s[n..n + |p|] == p
  {
    var n := Find(s, p).value;
    FindExact(s, p);
    assert s[n..][..|p|] == s[n..n + |p|];
    hide Find;
    var t := s[..n] + p;
    assert t + s[n + |p|..] == s;
    forall i | 0 <= i < n ensures !StartsWith(t[i..], p) {
      DropWithin(t, s[n + |p|..], i);
      StartsWithin(t[i..], s[n + |p|..], p);
    }
  }

  lemma {:induction false} StringIs(s: string) returns (chars: seq<StringChar>)
    requires StringLength(s).Some?
    ensures StringText(chars) == s[..StringLength(s).value]
    ensures CharsFit(chars)
    decreases |s|
  {
    if s[0] == '"' {
      chars := [];
    } else {
      var k := if s[0] == '\\' then 2 else 1;
      var x := if s[0] == '\\' then Escaped(s[1]) else Bare(s[0]);
      var more := StringIs(s[k..]);
      chars := [x] + more;
      Cut(s, k, StringLength(s).value);
      assert s[..k] == if s[0] == '\\' then ['\\', s[1]] else [s[0]];
    }
  }

  lemma EscapeText(s: string, m: nat)
    requires m + 3 < |s| && s[0] == '\'' && s[1] == '\\' && s[m + 3] == '\''
    ensures s[..m + 4] == "'" + (['\\', s[2]] + s[3..][..m]) + "'"
  {
  }

  lemma EscapeIs(s: string)
    requires |s| >= 3 && s[0] == '\'' && s[1] == '\\' && CharLength(s).Some?
    ensures var m := CharLength(s).value - 4;
            s[2] != '\n' && m >= 0 && m + 3 < |s| && s[m + 3] == '\'' && !Contains(s[3..][..m], '\'')
  {
    var t, m := s[3..], CharLength(s).value - 4;
    FindIs(t, "'");
    assert t[m..m + 1] == "'" && t[m] == s[m + 3];
    forall i | 0 <= i < m ensures t[i] != '\'' {
      assert (t[..m] + "'")[i..][..1] == [t[i]];
    }
  }

  lemma CharLengthIs(s: string) returns (x: CharInside)
    requires s != "" && s[0] == '\'' && CharLength(s).Some?
    ensures CharFits(x) && s[..CharLength(s).value] == "'" + CharText(x) + "'"
  {
    if s[1] == '\\' {
      var m := CharLength(s).value - 4;
      EscapeIs(s);
      hide CharLength, Contains;
      EscapeText(s, m);
      x := Escape(s[2], s[3..][..m]);
    } else {
      x := One(s[1]);
      assert s[..3] == [s[0], s[1], s[2]];
    }
  }

  // ---------------------------------------------------------------- one item is one token

  function PieceOf(x: Item): Piece {
    Piece(|Left(x)|, |Inside(x)|, |Right(x)|)
  }

  lemma MaskedItem(x: Item, rest: string)
    ensures Masked(Text(x) + rest, PieceOf(x)) == Left(x) + Spaces(Inside(x)) + Right(x)
  {
    var a, b, c := Left(x), Inside(x), Right(x);
    var s := a + b + c + rest;
    hide Left, Inside, Right;
    assert s[..|a|] == a && s[|a|..|a| + |b|] == b && s[|a| + |b|..|a| + |b| + |c|] == c;
  }

  lemma LineCommentFirst(text: string, prev: Option<char>, rest: string, alnum: set<char>)
    requires !Contains(text, '\n') && (rest == "" || rest[0] == '\n')
    ensures First("//" + text + rest, prev, alnum) == Ok(Piece(0, 2 + |text|, 0))
  {
    var t := "//" + text;
    forall i | 0 <= i < |t| ensures t[i] != '\n' { if i >= 2 { assert t[i] == text[i - 2]; } }
    LineLengthOf(t, rest);
    assert (t + rest)[..2] == "//";
  }

  lemma BlockText(t: string, rest: string)
    ensures var s := "/*" + t + rest;
            |s| >= 2 && StartsWith(s, "/*") && !StartsWith(s, "//") && s[2..] == t + rest
  {
    var s := "/*" + t + rest;
    assert s[..2] == "/*" && s[1] == '*';
  }

  lemma BlockCommentFirst(body: Comment, prev: Option<char>, rest: string, alnum: set<char>)
    requires CommentFits(body)
    ensures First("/*" + CommentText(body) + rest, prev, alnum) == Ok(Piece(0, 2 + |CommentText(body)|, 0))
  {
    CommentLengthOf(body, rest);
    BlockText(CommentText(body), rest);
    hide CommentText, CommentLength, StartsWith;
  }

  lemma RawText(a: string, inside: string, b: string, rest: string)
    requires a != "" && (a[0] == 'b' || a[0] == 'r')
    ensures var s := a + inside + b + rest;
            && s == a + (inside + b + rest) && s[|a|..] == inside + b + rest && s[0] == a[0]
            && !StartsWith(s, "//") && !StartsWith(s, "/*")
  {
    var s := a + inside + b + rest;
    assert s[0] == a[0] && (|s| >= 2 ==> s[..2][0] == a[0]);
  }

  lemma RawFirst(s: string, n: nat, m: nat, hashes: nat, prev: Option<char>, alnum: set<char>)
    requires s != "" && !StartsWith(s, "//") && !StartsWith(s, "/*") && !InWord(alnum, prev)
    requires RawOpening(s) == Some(n) && n - 1 - RawPrefix(s) == hashes && Find(s[n..], RawClosing(hashes)) == Some(m)
    ensures First(s, prev, alnum) == Ok(Piece(n, m, |RawClosing(hashes)|))
  {
    hide Find, StartsWith, RawClosing;
  }

  lemma RawStringFirst(byte: bool, hashes: nat, inside: string, prev: Option<char>, rest: string, alnum: set<char>)
    requires !InWord(alnum, prev) && EndsAtFirst(inside, RawEnd(hashes))
    ensures First(RawStart(byte, hashes) + inside + RawEnd(hashes) + rest, prev, alnum)
            == Ok(Piece(|RawStart(byte, hashes)|, |inside|, |RawEnd(hashes)|))
  {
    var a, b := RawStart(byte, hashes), RawEnd(hashes);
    RawOpeningOf(byte, hashes, inside + b + rest);
    FindOf(inside, b, rest);
    assert a[0] == 'b' || a[0] == 'r';
    assert RawClosing(hashes) == b && |a| - 1 - (if byte then 2 else 1) == hashes;
    hide *;
    RawText(a, inside, b, rest);
    RawFirst(a + inside + b + rest, |a|, |inside|, hashes, prev, alnum);
  }

  lemma NoRawHere(s: string)
    requires s != "" && s[0] != 'r' && s[0] != 'b'
    ensures RawOpening(s) == None
  {
  }

  lemma QuoteFirst(s: string, n: nat, prev: Option<char>, alnum: set<char>)
    requires s != "" && s[0] == '"' && StringLength(s[1..]) == Some(n)
    ensures First(s, prev, alnum) == Ok(Piece(1, n, 1))
  {
    hide StringLength;
    NoRawHere(s);
  }

  lemma StringFirst(chars: seq<StringChar>, prev: Option<char>, rest: string, alnum: set<char>)
    requires CharsFit(chars)
    ensures First("\"" + StringText(chars) + "\"" + rest, prev, alnum) == Ok(Piece(1, |StringText(chars)|, 1))
  {
    StringLengthOf(chars, rest);
    var t := StringText(chars);
    hide StringText, StringLength, First;
    var s := "\"" + t + "\"" + rest;
    assert s[1..] == t + "\"" + rest;
    QuoteFirst(s, |t|, prev, alnum);
  }

  lemma CharFirst(x: CharInside, prev: Option<char>, rest: string, alnum: set<char>)
    requires CharFits(x)
    ensures First("'" + CharText(x) + "'" + rest, prev, alnum) == Ok(Piece(1, |CharText(x)|, 1))
  {
    CharLengthOf(x, rest);
    var s := "'" + CharText(x) + "'" + rest;
    hide CharText, CharLength;
    NoRawHere(s);
  }

  lemma PrefixStarts(s: string, n: nat, p: string)
    requires n <= |s| && s[..n] == p
    ensures StartsWith(s, p)
  {
  }

  lemma RawIsSeen(s: string)
    ensures RawOpening(s).Some? ==> StartsRaw(s)
  {
    if RawOpening(s).Some? {
      var byte, hashes := RawOpeningIs(s);
      PrefixStarts(s, RawOpening(s).value, RawStart(byte, hashes));
    }
  }

  lemma CharIsSeen(s: string)
    requires s != "" && s[0] == '\''
    ensures CharLength(s).Some? ==> StartsChar(s)
  {
    if CharLength(s).Some? {
      var x := CharLengthIs(s);
      PrefixStarts(s, CharLength(s).value, "'" + CharText(x) + "'");
    }
  }

  lemma LoneFirst(c: char, prev: Option<char>, rest: string, alnum: set<char>)
    requires Fits(Lone(c), prev, rest, alnum)
    ensures First([c] + rest, prev, alnum) == Ok(Piece(1, 0, 0))
  {
    RawIsSeen([c] + rest);
    if c == '\'' { CharIsSeen([c] + rest); }
    hide RawOpening, CharLength, StartsRaw, StartsChar;
  }

  /** Where an item stands, the tokenizer takes exactly that item. */
  lemma FirstIsItem(x: Item, prev: Option<char>, rest: string, alnum: set<char>)
    requires Fits(x, prev, rest, alnum)
    ensures First(Text(x) + rest, prev, alnum) == Ok(PieceOf(x))
  {
    hide First;
    match x
    case LineComment(text) =>
      LineCommentFirst(text, prev, rest, alnum);
      assert Text(x) + rest == "//" + text + rest;
    case BlockComment(body) =>
      BlockCommentFirst(body, prev, rest, alnum);
      assert Text(x) + rest == "/*" + CommentText(body) + rest;
    case RawString(byte, hashes, inside) => RawStringFirst(byte, hashes, inside, prev, rest, alnum);
    case StringLiteral(chars) => StringFirst(chars, prev, rest, alnum);
    case CharLiteral(letter) => CharFirst(letter, prev, rest, alnum);
    case Lone(c) =>
      LoneFirst(c, prev, rest, alnum);
      assert Text(x) + rest == [c] + rest;
  }

  lemma StripJoins(s: string, n: nat, prev: Option<char>, alnum: set<char>, text: string, done: string, rest: Result<string>)
    requires s != "" && 0 < n <= |s| && First(s, prev, alnum).Ok? && First(s, prev, alnum).value.Size() == n
    requires Masked(s, First(s, prev, alnum).value) == text
    requires Strip(s[n..], Some(s[n - 1]), alnum) == Prepend(done, rest)
    ensures Strip(s, prev, alnum) == Prepend(text + done, rest)
  {
    hide First, Masked;
    if rest.Ok? { Joins(text, done, rest.value); }
  }

  lemma RenderUnfold(items: seq<Item>, after: string)
    requires items != []
    ensures Render(items) + after == Text(items[0]) + (Render(items[1..]) + after)
  {
    assert Render(items) == Text(items[0]) + Render(items[1..]);
    hide Render, Text;
    Joins(Text(items[0]), Render(items[1..]), after);
  }

  lemma ItemsUnfold(items: seq<Item>, prev: Option<char>, after: string, alnum: set<char>)
    requires items != [] && WellFormed(items, prev, after, alnum)
    ensures var (x, more) := (items[0], items[1..]);
            && Text(x) != "" && Fits(x, prev, Render(more) + after, alnum) && WellFormed(more, Some(Last(Text(x))), after, alnum)
            && Render(items) + after == Text(x) + (Render(more) + after) && Expected(items) == ExpectedOf(x) + Expected(more)
            && Behind(items, prev) == Behind(more, Some(Last(Text(x))))
  {
    TextNonempty(items[0]);
    RenderUnfold(items, after);
    hide Fits, Text, ExpectedOf, Last, Render;
  }

  lemma ItemStripped(x: Item, prev: Option<char>, rest: string, alnum: set<char>, done: string, tail: Result<string>)
    requires Fits(x, prev, rest, alnum) && Text(x) != "" && Strip(rest, Some(Last(Text(x))), alnum) == Prepend(done, tail)
    ensures Strip(Text(x) + rest, prev, alnum) == Prepend(ExpectedOf(x) + done, tail)
  {
    FirstIsItem(x, prev, rest, alnum);
    MaskedItem(x, rest);
    var text := Text(x);
    assert PieceOf(x).Size() == |text|;
    assert ExpectedOf(x) == Left(x) + Spaces(Inside(x)) + Right(x);
    hide First, Fits, Text, Left, Inside, Right, Masked, Strip, ExpectedOf, PieceOf;
    var s := text + rest;
    assert s[|text|..] == rest && s[|text| - 1] == Last(text);
    StripJoins(s, |text|, prev, alnum, ExpectedOf(x), done, tail);
  }

  /** Comments and the insides of literals are blanked, everything else stays, and the tokenizer goes on behind. */
  lemma {:induction false} StripIsExpected(items: seq<Item>, prev: Option<char>, after: string, alnum: set<char>)
    requires WellFormed(items, prev, after, alnum)
    ensures Strip(Render(items) + after, prev, alnum) == Prepend(Expected(items), Strip(after, Behind(items, prev), alnum))
  {
    if items == [] {
      assert "" + after == after;
      var r := Strip(after, prev, alnum);
      if r.Ok? { assert "" + r.value == r.value; }
    } else {
      ItemsUnfold(items, prev, after, alnum);
      hide *;
      var x, more := items[0], items[1..];
      StripIsExpected(more, Some(Last(Text(x))), after, alnum);
      ItemStripped(x, prev, Render(more) + after, alnum, Expected(more), Strip(after, Behind(items, prev), alnum));
    }
  }

  // ---------------------------------------------------------------- and every accepted text is one of items

  lemma {:induction false} RawStartHas(byte: bool, hashes: nat, s: string)
    requires StartsWith(s, RawStart(byte, hashes))
    ensures RawOpening(s).Some?
  {
    var t := RawStart(byte, hashes);
    RawOpeningOf(byte, hashes, s[|t|..]);
    assert t + s[|t|..] == s;
  }

  lemma CharTextHas(x: CharInside, s: string)
    requires CharFits(x) && StartsWith(s, "'" + CharText(x) + "'")
    ensures s != "" && s[0] == '\'' && CharLength(s).Some?
  {
    var t := "'" + CharText(x) + "'";
    CharLengthOf(x, s[|t|..]);
    assert t + s[|t|..] == s;
  }

  lemma LoneIs(s: string, prev: Option<char>, alnum: set<char>)
    requires s != "" && First(s, prev, alnum) == Ok(Piece(1, 0, 0))
    requires !StartsWith(s, "//") && !StartsWith(s, "/*") && s[0] != '"'
    requires s[0] == '\'' ==> CharLength(s).None?
    requires RawOpening(s).Some? ==> InWord(alnum, prev)
    ensures Fits(Lone(s[0]), prev, s[1..], alnum)
  {
    assert [s[0]] + s[1..] == s;
    if StartsChar(s) {
      var x :| CharFits(x) && StartsWith(s, "'" + CharText(x) + "'");
      CharTextHas(x, s);
    }
    if StartsRaw(s) {
      var byte, hashes :| StartsWith(s, RawStart(byte, hashes));
      RawStartHas(byte, hashes, s);
    }
  }

  lemma LineCommentIs(s: string) returns (x: Item)
    requires StartsWith(s, "//")
    ensures x.LineComment? && Text(x) == s[..LineLength(s)] && !Contains(x.text, '\n')
    ensures LineLength(s) < |s| ==> s[LineLength(s)] == '\n'
  {
    var n := LineLength(s);
    assert s[..2] == "//" && s[0] == '/' && s[1] == '/';
    LineLengthIs(s);
    assert n >= 2 by { assert LineLength(s) == 1 + LineLength(s[1..]) && LineLength(s[1..]) == 1 + LineLength(s[1..][1..]); }
    x := LineComment(s[2..n]);
    Cut(s, 2, n);
    forall i | 0 <= i < |x.text| ensures x.text[i] != '\n' { assert s[..n][i + 2] == x.text[i]; }
    assert "//" + s[2..n] == s[..n];
  }

  lemma BlockCommentIs(s: string) returns (x: Item)
    requires StartsWith(s, "/*") && |s| >= 2 && CommentPiece(s).Ok?
    ensures x.BlockComment? && CommentFits(x.body) && Text(x) == s[..CommentPiece(s).value.Size()]
  {
    var body := CommentIs(s[2..]);
    x := BlockComment(body);
    var n := CommentPiece(s).value.Size();
    hide CommentText, CommentLength;
    Cut(s, 2, n);
    assert s[..2] == "/*";
  }

  lemma Pieces(s: string, a: nat, b: nat, c: nat)
    requires a + b + c <= |s|
    ensures s[..a + b + c] == s[..a] + s[a..][..b] + s[a..][b..b + c]
  {
  }

  lemma RawParts(s: string) returns (byte: bool, hashes: nat, n: nat, m: nat)
    requires RawOpening(s).Some? && RawPiece(s).Ok?
    ensures RawPiece(s).value.Size() == n + m + (hashes + 1) <= |s|
    ensures s[..n] == RawStart(byte, hashes) && s[n..][m..m + (hashes + 1)] == RawEnd(hashes)
    ensures EndsAtFirst(s[n..][..m], RawEnd(hashes))
  {
    n := RawOpening(s).value;
    byte, hashes := RawOpeningIs(s);
    assert RawClosing(hashes) == RawEnd(hashes) && |RawEnd(hashes)| == hashes + 1;
    m := Find(s[n..], RawEnd(hashes)).value;
    hide RawOpening, RawStart, RawEnd, RawClosing, EndsAtFirst, StartsWith;
    FindIs(s[n..], RawEnd(hashes));
    hide Find;
  }

  lemma RawStringText(byte: bool, hashes: nat, inside: string)
    ensures Text(RawString(byte, hashes, inside)) == RawStart(byte, hashes) + inside + RawEnd(hashes)
  {
    hide RawStart, RawEnd;
  }

  lemma RawStringIs(s: string) returns (x: Item)
    requires RawOpening(s).Some? && RawPiece(s).Ok?
    ensures x.RawString? && EndsAtFirst(x.inside, RawEnd(x.hashes)) && Text(x) == s[..RawPiece(s).value.Size()]
  {
    hide *;
    var byte, hashes, n, m := RawParts(s);
    x := RawString(byte, hashes, s[n..][..m]);
    RawStringText(byte, hashes, s[n..][..m]);
    Pieces(s, n, m, hashes + 1);
  }

  lemma QuotedText(s: string, m: nat)
    requires m + 1 < |s| && s[0] == '"' && s[m + 1] == '"'
    ensures s[..m + 2] == "\"" + s[1..][..m] + "\""
  {
  }

  lemma StringLiteralIs(s: string) returns (x: Item)
    requires s != "" && s[0] == '"' && StringPiece(s).Ok?
    ensures x.StringLiteral? && CharsFit(x.chars) && Text(x) == s[..StringPiece(s).value.Size()]
  {
    var chars := StringIs(s[1..]);
    x := StringLiteral(chars);
    var m := StringLength(s[1..]).value;
    assert StringPiece(s) == Ok(Piece(1, m, 1));
    assert Text(x) == "\"" + StringText(chars) + "\"";
    hide *;
    QuotedText(s, m);
  }

  lemma CharLiteralIs(s: string) returns (x: Item)
    requires s != "" && s[0] == '\'' && CharLength(s).Some?
    ensures x.CharLiteral? && CharFits(x.letter) && Text(x) == s[..CharLength(s).value]
  {
    var letter := CharLengthIs(s);
    x := CharLiteral(letter);
  }

  /** What the tokenizer takes is an item that may stand there. */
  lemma ItemTaken(s: string, prev: Option<char>, alnum: set<char>) returns (x: Item)
    requires s != "" && First(s, prev, alnum).Ok?
    ensures var n := First(s, prev, alnum).value.Size(); Text(x) == s[..n] && Fits(x, prev, s[n..], alnum)
  {
    if StartsWith(s, "//") {
      x := LineCommentIs(s);
    } else if StartsWith(s, "/*") {
      x := BlockCommentIs(s);
    } else if RawOpening(s).Some? && !InWord(alnum, prev) {
      x := RawStringIs(s);
    } else if s[0] == '"' {
      x := StringLiteralIs(s);
    } else if s[0] == '\'' && CharLength(s).Some? {
      x := CharLiteralIs(s);
    } else {
      x := Lone(s[0]);
      LoneIs(s, prev, alnum);
    }
  }

  lemma ItemsGrow(x: Item, more: seq<Item>, prev: Option<char>, after: string, alnum: set<char>)
    requires Fits(x, prev, Render(more) + after, alnum) && Text(x) != "" && WellFormed(more, Some(Last(Text(x))), after, alnum)
    ensures WellFormed([x] + more, prev, after, alnum) && Render([x] + more) == Text(x) + Render(more)
    ensures Behind([x] + more, prev) == Behind(more, Some(Last(Text(x))))
  {
    hide Fits, Text;
    assert ([x] + more)[1..] == more;
  }

  lemma Joined(s: string, n: nat)
    requires 0 < n <= |s|
    ensures s[..n] + s[n..] == s && s[..n] != "" && Last(s[..n]) == s[n - 1]
  {
  }

  /** Every text is written in items, up to where the tokenizer stops. */
  lemma {:induction false} ReadAsItems(s: string, prev: Option<char>, alnum: set<char>) returns (items: seq<Item>, after: string)
    ensures WellFormed(items, prev, after, alnum) && Render(items) + after == s
    ensures after == "" || First(after, Behind(items, prev), alnum).Err?
    decreases |s|
  {
    if s == "" || First(s, prev, alnum).Err? {
      items, after := [], s;
      assert "" + s == s;
    } else {
      hide First, Strip, Text, Fits, WellFormed, Render, Last, Behind;
      var n := First(s, prev, alnum).value.Size();
      Joined(s, n);
      var x := ItemTaken(s, prev, alnum);
      var more, rest := ReadAsItems(s[n..], Some(s[n - 1]), alnum);
      items, after := [x] + more, rest;
      ItemsGrow(x, more, prev, after, alnum);
      Joins(s[..n], Render(more), after);
    }
  }

  // ---------------------------------------------------------------- where there is no item

  ghost predicate NoComment(t: string) {
    forall body {:trigger CommentFits(body)} :: CommentFits(body) ==> !StartsWith(t, CommentText(body))
  }

  ghost predicate Occurs(t: string, p: string) {
    exists i :: 0 <= i <= |t| && StartsWith(t[i..], p)
  }

  ghost predicate NoString(t: string) {
    forall chars {:trigger CharsFit(chars)} :: CharsFit(chars) ==> !StartsWith(t, StringText(chars) + "\"")
  }

  /** Something opens that does not close. */
  ghost predicate Unterminated(s: string, prev: Option<char>, e: Error, alnum: set<char>) {
    match e
    case UnterminatedComment => StartsWith(s, "/*") && NoComment(s[2..])
    case UnterminatedString => s != "" && s[0] == '"' && NoString(s[1..])
    case UnterminatedRawString =>
      !InWord(alnum, prev)
      && exists byte, hashes {:trigger RawStart(byte, hashes)} ::
           StartsWith(s, RawStart(byte, hashes)) && !Occurs(s[|RawStart(byte, hashes)|..], RawEnd(hashes))
  }

  lemma SplitPrefix(s: string, p: string)
    requires StartsWith(s, p)
    ensures |p| <= |s| && s == p + s[|p|..]
  {
  }

  lemma NoCommentExactly(t: string)
    ensures NoComment(t) <==> CommentLength(t).None?
  {
    if CommentLength(t).Some? {
      var body := CommentIs(t);
      PrefixStarts(t, CommentLength(t).value, CommentText(body));
    }
    forall body {:trigger CommentFits(body)} | CommentFits(body) && StartsWith(t, CommentText(body)) ensures CommentLength(t).Some? {
      SplitPrefix(t, CommentText(body));
      CommentLengthOf(body, t[|CommentText(body)|..]);
    }
  }

  lemma NoStringExactly(t: string)
    ensures NoString(t) <==> StringLength(t).None?
  {
    if StringLength(t).Some? {
      var chars := StringIs(t);
      var n := StringLength(t).value;
      hide StringLength, StringText;
      assert t[..n + 1] == t[..n] + "\"";
      PrefixStarts(t, n + 1, StringText(chars) + "\"");
      assert CharsFit(chars);
    }
    forall chars {:trigger CharsFit(chars)} | CharsFit(chars) && StartsWith(t, StringText(chars) + "\"")
      ensures StringLength(t).Some?
    {
      var p := StringText(chars) + "\"";
      SplitPrefix(t, p);
      StringLengthOf(chars, t[|p|..]);
    }
  }

  lemma OccursExactly(t: string, p: string)
    ensures Occurs(t, p) <==> Find(t, p).Some?
  {
    FindExact(t, p);
    hide StartsWith, Find;
  }

  lemma RawStartOnce(s: string, byte: bool, hashes: nat)
    requires StartsWith(s, RawStart(byte, hashes))
    ensures RawOpening(s) == Some(|RawStart(byte, hashes)|) && hashes == RawOpening(s).value - 1 - RawPrefix(s)
  {
    var p := RawStart(byte, hashes);
    SplitPrefix(s, p);
    RawOpeningOf(byte, hashes, s[|p|..]);
    assert |p| == (if byte then 2 else 1) + hashes + 1;
  }

  lemma RawUnterminated(s: string, prev: Option<char>, alnum: set<char>)
    ensures Unterminated(s, prev, UnterminatedRawString, alnum)
            <==> !InWord(alnum, prev) && RawOpening(s).Some? && RawPiece(s).Err?
  {
    forall byte, hashes | StartsWith(s, RawStart(byte, hashes))
      ensures RawOpening(s).Some?
      ensures Occurs(s[|RawStart(byte, hashes)|..], RawEnd(hashes)) <==> RawPiece(s).Ok?
    {
      RawStartOnce(s, byte, hashes);
      OccursExactly(s[|RawStart(byte, hashes)|..], RawEnd(hashes));
      assert RawClosing(hashes) == RawEnd(hashes);
    }
    if RawOpening(s).Some? {
      var byte, hashes := RawOpeningIs(s);
      PrefixStarts(s, RawOpening(s).value, RawStart(byte, hashes));
    }
  }

  lemma RawBegins(s: string)
    requires RawOpening(s).Some?
    ensures s != "" && s[0] != '/' && s[0] != '"'
  {
  }

  lemma UnterminatedNonempty(s: string, prev: Option<char>, e: Error, alnum: set<char>)
    requires Unterminated(s, prev, e, alnum)
    ensures s != ""
  {
  }

  /** When the tokenizer stops, in its own terms. */
  lemma StopsWhen(s: string, prev: Option<char>, e: Error, alnum: set<char>)
    requires s != ""
    ensures First(s, prev, alnum) == Err(e) <==>
              match e
              case UnterminatedComment => StartsWith(s, "/*") && |s| >= 2 && CommentLength(s[2..]).None?
              case UnterminatedRawString => !WordChar(alnum, prev) && RawOpening(s).Some? && RawPiece(s).Err?
              case UnterminatedString => s[0] == '"' && StringLength(s[1..]).None?
  {
    if RawOpening(s).Some? { RawBegins(s); }
    hide CommentLength, StringLength, LineLength, CharLength, RawOpening, Find, WordChar;
  }

  /** The tokenizer stops exactly where something opens that does not close, and says what. */
  lemma StopsExactly(s: string, prev: Option<char>, e: Error, alnum: set<char>)
    requires s != ""
    ensures First(s, prev, alnum) == Err(e) <==> Unterminated(s, prev, e, alnum)
  {
    StopsWhen(s, prev, e, alnum);
    RawUnterminated(s, prev, alnum);
    assert InWord(alnum, prev) <==> WordChar(alnum, prev);
    NoStringExactly(s[1..]);
    if StartsWith(s, "/*") {
      FitsIn(s, "/*");
      NoCommentExactly(s[2..]);
    }
    hide First, NoComment, NoString, RawOpening, RawPiece, CommentLength, StringLength, InWord, WordChar, StartsWith;
  }

  /** The whole of it, for every text: what is accepted is written in items, and is left with comments and the insides of
      literals blanked; what is refused is written in items up to something that does not close. */
  lemma StripExactly(s: string, alnum: set<char>)
    ensures Strip(s, None, alnum).Ok? <==> exists items :: WellFormed(items, None, "", alnum) && Render(items) == s
    ensures forall items :: WellFormed(items, None, "", alnum) && Render(items) == s ==> Strip(s, None, alnum) == Ok(Expected(items))
    ensures forall e :: Strip(s, None, alnum) == Err(e)
              <==> exists items, after {:trigger Render(items) + after} ::
                     WellFormed(items, None, after, alnum) && Render(items) + after == s
                     && Unterminated(after, Behind(items, None), e, alnum)
  {
    hide First, WellFormed, Unterminated;
    forall items | WellFormed(items, None, "", alnum) && Render(items) == s ensures Strip(s, None, alnum) == Ok(Expected(items)) {
      StripIsExpected(items, None, "", alnum);
      assert s + "" == s && Expected(items) + "" == Expected(items);
    }
    forall items, after, e | WellFormed(items, None, after, alnum) && Render(items) + after == s
                             && Unterminated(after, Behind(items, None), e, alnum)
      ensures Strip(s, None, alnum) == Err(e)
    {
      StripIsExpected(items, None, after, alnum);
      UnterminatedNonempty(after, Behind(items, None), e, alnum);
      StopsExactly(after, Behind(items, None), e, alnum);
    }
    var items, after := ReadAsItems(s, None, alnum);
    StripIsExpected(items, None, after, alnum);
    if after == "" {
      assert Render(items) + "" == Render(items);
    } else {
      StopsExactly(after, Behind(items, None), First(after, Behind(items, None), alnum).error, alnum);
    }
  }
}
