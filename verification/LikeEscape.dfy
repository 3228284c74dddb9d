/** Searching with LIKE: escaping the search text makes the pattern match exactly the texts that contain it. */
module LikeEscape {
  import opened Wire

  /** How a dialect compares characters: as they are (an empty map), or after folding, as for ASCII case. */
  type Folding = map<char, char>

  predicate Same(fold: Folding, a: char, b: char) {
    (if a in fold then fold[a] else a) == (if b in fold then fold[b] else b)
  }

  /** `text LIKE pattern ESCAPE '\'`: `%` is any text, `_` any character, and the escape takes the next
      character of the pattern for itself. */
  predicate Like(text: string, pattern: string, fold: Folding)
    decreases |pattern| + |text|
  {
    if pattern == "" then text == ""
    else if pattern[0] == '%' then Like(text, pattern[1..], fold) || (text != "" && Like(text[1..], pattern, fold))
    else if pattern[0] == '_' then text != "" && Like(text[1..], pattern[1..], fold)
    else if pattern[0] == '\\' then
      |pattern| > 1 && text != "" && Same(fold, text[0], pattern[1]) && Like(text[1..], pattern[2..], fold)
    else text != "" && Same(fold, text[0], pattern[0]) && Like(text[1..], pattern[1..], fold)
  }

  function Replace(s: string, c: char, sub: string): string {
    if s == "" then "" else (if s[0] == c then sub else [s[0]]) + Replace(s[1..], c, sub)
  }

  /** The escaping as it is written: backslashes first, then both wildcards. */
  function Escaped(s: string): string {
    Replace(Replace(Replace(s, '\\', "\\\\"), '%', "\\%"), '_', "\\_")
  }

  function EscapedChar(c: char): string {
    if c == '\\' || c == '%' || c == '_' then ['\\', c] else [c]
  }

  lemma {:induction false} ReplaceConcat(s: string, t: string, c: char, sub: string)
    ensures Replace(s + t, c, sub) == Replace(s, c, sub) + Replace(t, c, sub)
  {
    if s == "" {
      assert s + t == t;
    } else {
      assert (s + t)[1..] == s[1..] + t;
      ReplaceConcat(s[1..], t, c, sub);
    }
  }

  lemma ReplaceOne(x: char, c: char, sub: string)
    ensures Replace([x], c, sub) == if x == c then sub else [x]
  {
    assert [x][1..] == "";
    assert Replace([x], c, sub) == (if x == c then sub else [x]) + "";
  }

  lemma ReplacePair(x: char, y: char, c: char, sub: string)
    ensures Replace([x, y], c, sub) == (if x == c then sub else [x]) + (if y == c then sub else [y])
  {
    assert [x, y] == [x] + [y];
    ReplaceConcat([x], [y], c, sub);
    ReplaceOne(x, c, sub);
    ReplaceOne(y, c, sub);
  }

  lemma EscapedOne(x: char)
    ensures Escaped([x]) == EscapedChar(x)
  {
    ReplaceOne(x, '\\', "\\\\");
    if x == '\\' {
      ReplacePair('\\', '\\', '%', "\\%");
      ReplacePair('\\', '\\', '_', "\\_");
    } else if x == '%' {
      ReplaceOne('%', '%', "\\%");
      ReplacePair('\\', '%', '_', "\\_");
    } else {
      ReplaceOne(x, '%', "\\%");
      ReplaceOne(x, '_', "\\_");
    }
  }

  /** The three replacements in a row are one per-character escape: no pass touches what an earlier one wrote. */
  lemma {:induction false} EscapesEachChar(s: string)
    ensures s == "" ==> Escaped(s) == ""
    ensures s != "" ==> Escaped(s) == EscapedChar(s[0]) + Escaped(s[1..])
  {
    if s != "" {
      assert s == [s[0]] + s[1..];
      var slashed := Replace([s[0]], '\\', "\\\\");
      ReplaceConcat([s[0]], s[1..], '\\', "\\\\");
      ReplaceConcat(slashed, Replace(s[1..], '\\', "\\\\"), '%', "\\%");
      ReplaceConcat(Replace(slashed, '%', "\\%"), Replace(Replace(s[1..], '\\', "\\\\"), '%', "\\%"), '_', "\\_");
      EscapedOne(s[0]);
    }
  }

  predicate StartsLike(text: string, s: string, fold: Folding) {
    |s| <= |text| && forall i :: 0 <= i < |s| ==> Same(fold, text[i], s[i])
  }

  predicate Contains(text: string, s: string, fold: Folding) {
    exists k :: 0 <= k <= |text| && StartsLike(text[k..], s, fold)
  }

  lemma {:induction false} AnythingIsLike(text: string, fold: Folding)
    ensures Like(text, "%", fold)
  {
    if text != "" { AnythingIsLike(text[1..], fold); }
    assert "%"[1..] == "";
  }

  lemma StartsLikeNext(text: string, s: string, fold: Folding)
    requires text != "" && s != ""
    ensures StartsLike(text, s, fold) <==> Same(fold, text[0], s[0]) && StartsLike(text[1..], s[1..], fold)
  {
    if Same(fold, text[0], s[0]) && StartsLike(text[1..], s[1..], fold) {
      forall i | 0 <= i < |s| ensures Same(fold, text[i], s[i]) {
        if i > 0 { assert Same(fold, text[1..][i - 1], s[1..][i - 1]); }
      }
    }
  }

  lemma LikeEscapedChar(text: string, c: char, rest: string, fold: Folding)
    ensures Like(text, EscapedChar(c) + rest, fold) <==> text != "" && Same(fold, text[0], c) && Like(text[1..], rest, fold)
  {
    var pattern := EscapedChar(c) + rest;
    if |EscapedChar(c)| == 2 { assert pattern[2..] == rest; } else { assert pattern[1..] == rest; }
  }

  lemma {:induction false} EscapedPrefix(text: string, s: string, fold: Folding)
    ensures Like(text, Escaped(s) + "%", fold) <==> StartsLike(text, s, fold)
    decreases |s|
  {
    EscapesEachChar(s);
    if s == "" {
      assert Escaped(s) + "%" == "%";
      AnythingIsLike(text, fold);
    } else {
      var rest := Escaped(s[1..]) + "%";
      assert Escaped(s) + "%" == EscapedChar(s[0]) + rest;
      LikeEscapedChar(text, s[0], rest, fold);
      if text != "" {
        EscapedPrefix(text[1..], s[1..], fold);
        StartsLikeNext(text, s, fold);
      }
    }
  }

  lemma {:induction false} AnywhereLike(text: string, pattern: string, fold: Folding)
    ensures Like(text, "%" + pattern, fold) <==> exists k :: 0 <= k <= |text| && Like(text[k..], pattern, fold)
    decreases |text|
  {
    assert ("%" + pattern)[1..] == pattern && text[0..] == text;
    if text != "" {
      AnywhereLike(text[1..], pattern, fold);
      assert forall k :: 1 <= k <= |text| ==> text[k..] == text[1..][k - 1..];
    }
  }

  function Pattern(search: string): string {
    "%" + (Escaped(search) + "%")
  }

  /** A text matches the search pattern exactly when it contains the search text, whatever characters that has. */
  lemma SearchIsExact(text: string, search: string, fold: Folding)
    ensures Like(text, Pattern(search), fold) <==> Contains(text, search, fold)
  {
    AnywhereLike(text, Escaped(search) + "%", fold);
    forall k | 0 <= k <= |text| ensures Like(text[k..], Escaped(search) + "%", fold) <==> StartsLike(text[k..], search, fold) {
      EscapedPrefix(text[k..], search, fold);
    }
  }
}
