/**
 * Literal substring search through SQL's LIKE: the predicate of section 8.5 of
 * ISO/IEC 9075-2 with '\' as escape, and the escaping the Postgres store
 * applies to a query (packages/resource-api/src/postgres/store.ts).
 */
module Like {
  const ESCAPE: char := '\\'

  predicate Special(c: char) {
    c == '%' || c == '_' || c == ESCAPE
  }

  /** '%' is any text, '_' any one character, an escaped character itself. */
  predicate LikeMatches(pattern: string, text: string)
    decreases |pattern| + |text|
  {
    if pattern == "" then text == ""
    else if pattern[0] == '%' then
      LikeMatches(pattern[1..], text) || (text != "" && LikeMatches(pattern, text[1..]))
    else if pattern[0] == '_' then text != "" && LikeMatches(pattern[1..], text[1..])
    else if pattern[0] == ESCAPE then
      |pattern| >= 2 && text != "" && text[0] == pattern[1] && LikeMatches(pattern[2..], text[1..])
    else text != "" && text[0] == pattern[0] && LikeMatches(pattern[1..], text[1..])
  }

  /** The standard only lets the escape stand before a special character. */
  predicate WellFormed(pattern: string) {
    pattern == ""
    || (if pattern[0] == ESCAPE then |pattern| >= 2 && Special(pattern[1]) && WellFormed(pattern[2..])
        else WellFormed(pattern[1..]))
  }

  /** The two special cases: '_' takes one character, and an escape must stand before a special one, and takes it. */
  lemma SpecialCases(c: char, rest: string, text: string)
    ensures LikeMatches("_" + rest, text) <==> text != "" && LikeMatches(rest, text[1..])
    ensures WellFormed([ESCAPE, c] + rest) <==> Special(c) && WellFormed(rest)
  {
    assert ("_" + rest)[1..] == rest && ([ESCAPE, c] + rest)[2..] == rest;
  }

  function Escaped(query: string): string {
    if query == "" then ""
    else (if Special(query[0]) then [ESCAPE, query[0]] else [query[0]]) + Escaped(query[1..])
  }

  function SearchPattern(query: string): string {
    "%" + Escaped(query) + "%"
  }

  predicate Contains(text: string, query: string) {
    exists i | 0 <= i <= |text| :: query <= text[i..]
  }

  lemma {:induction false} PercentMatchesAll(text: string)
    ensures LikeMatches("%", text)
    decreases |text|
  {
    if text != "" {
      PercentMatchesAll(text[1..]);
    }
  }

  /** The first character of an escaped query takes exactly itself. */
  lemma EscapedOne(query: string, rest: string, text: string)
    requires query != ""
    ensures LikeMatches(Escaped(query) + rest, text) <==>
            text != "" && text[0] == query[0] && LikeMatches(Escaped(query[1..]) + rest, text[1..])
  {
    var tail := Escaped(query[1..]) + rest;
    if Special(query[0]) {
      assert Escaped(query) + rest == [ESCAPE, query[0]] + tail;
      EscapedCharacter(query[0], tail, text);
    } else {
      assert Escaped(query) + rest == [query[0]] + tail;
      PlainCharacter(query[0], tail, text);
    }
  }

  lemma EscapedCharacter(c: char, tail: string, text: string)
    ensures LikeMatches([ESCAPE, c] + tail, text) <==> text != "" && text[0] == c && LikeMatches(tail, text[1..])
  {
    assert ([ESCAPE, c] + tail)[2..] == tail;
  }

  lemma PlainCharacter(c: char, tail: string, text: string)
    requires !Special(c)
    ensures LikeMatches([c] + tail, text) <==> text != "" && text[0] == c && LikeMatches(tail, text[1..])
  {
    assert ([c] + tail)[1..] == tail;
  }

  /** An escaped query followed by '%' matches exactly the texts it begins. */
  lemma {:induction false} EscapedIsPrefix(query: string, text: string)
    ensures LikeMatches(Escaped(query) + "%", text) <==> query <= text
    decreases |query|
  {
    if query == "" {
      assert Escaped(query) + "%" == "%";
      PercentMatchesAll(text);
    } else {
      EscapedOne(query, "%", text);
      if text != "" {
        EscapedIsPrefix(query[1..], text[1..]);
        assert query == [query[0]] + query[1..] && text == [text[0]] + text[1..];
      }
    }
  }

  lemma ContainsSplit(text: string, query: string)
    requires text != ""
    ensures Contains(text, query) <==> query <= text || Contains(text[1..], query)
  {
    if Contains(text, query) {
      var i :| 0 <= i <= |text| && query <= text[i..];
      if i == 0 {
        assert text[0..] == text;
      } else {
        assert text[1..][i - 1..] == text[i..];
      }
    }
    if query <= text {
      assert text[0..] == text;
    } else if Contains(text[1..], query) {
      var i :| 0 <= i <= |text[1..]| && query <= text[1..][i..];
      assert text[1..][i..] == text[i + 1..];
    }
  }

  /** The search pattern matches exactly the texts that contain the query, wildcards and all. */
  lemma {:induction false} SearchIsSubstring(query: string, text: string)
    ensures LikeMatches(SearchPattern(query), text) <==> Contains(text, query)
    decreases |text|
  {
    var pattern := SearchPattern(query);
    assert pattern[1..] == Escaped(query) + "%";
    EscapedIsPrefix(query, text);
    if text == "" {
      assert text[0..] == "";
    } else {
      SearchIsSubstring(query, text[1..]);
      ContainsSplit(text, query);
    }
  }

  lemma {:induction false} EscapedWellFormed(query: string, rest: string)
    requires WellFormed(rest)
    ensures WellFormed(Escaped(query) + rest)
    decreases |query|
  {
    if query == "" {
      assert Escaped(query) + rest == rest;
    } else {
      EscapedWellFormed(query[1..], rest);
      var tail := Escaped(query[1..]) + rest;
      if Special(query[0]) {
        assert Escaped(query) + rest == [ESCAPE, query[0]] + tail;
        assert (Escaped(query) + rest)[2..] == tail;
      } else {
        assert Escaped(query) + rest == [query[0]] + tail;
        assert (Escaped(query) + rest)[1..] == tail;
      }
    }
  }

  /** No query can make the pattern malformed. */
  lemma SearchPatternWellFormed(query: string)
    ensures WellFormed(SearchPattern(query))
  {
    assert WellFormed("%") by {
      assert "%"[1..] == "";
    }
    EscapedWellFormed(query, "%");
    assert SearchPattern(query)[1..] == Escaped(query) + "%";
  }

  /** Without the escaping the wildcards of a query would be live. */
  lemma UnescapedWouldDiffer()
    ensures LikeMatches("%" + "_" + "%", "x") && !Contains("x", "_")
  {
    assert ("%" + "_" + "%")[1..] == "_%" && "_%"[1..] == "%";
    PercentMatchesAll("");
    assert "x"[1..] == "";
    assert LikeMatches("_%", "x");
    assert forall i | 0 <= i <= 1 :: !("_" <= "x"[i..]);
  }

  /* ------------------------------- folding of case -------------------------------- */

  /** A per-character folding that neither moves the special characters nor produces them. */
  ghost predicate FoldsApart(f: char -> char) {
    forall c :: Special(c) || Special(f(c)) ==> f(c) == c
  }

  function Fold(f: char -> char, text: string): (r: string)
    ensures |r| == |text|
    ensures forall i | 0 <= i < |text| :: r[i] == f(text[i])
  {
    if text == "" then "" else [f(text[0])] + Fold(f, text[1..])
  }

  lemma FoldConcat(f: char -> char, a: string, b: string)
    ensures Fold(f, a + b) == Fold(f, a) + Fold(f, b)
  {
  }

  lemma {:induction false} FoldEscaped(f: char -> char, query: string)
    requires FoldsApart(f)
    ensures Fold(f, Escaped(query)) == Escaped(Fold(f, query))
    decreases |query|
  {
    if query != "" {
      FoldEscaped(f, query[1..]);
      var head := if Special(query[0]) then [ESCAPE, query[0]] else [query[0]];
      FoldConcat(f, head, Escaped(query[1..]));
      assert Fold(f, query) == [f(query[0])] + Fold(f, query[1..]);
    }
  }

  /** The case-insensitive predicate: fold the pattern and the text, then match. */
  predicate ILikeMatches(f: char -> char, pattern: string, text: string) {
    LikeMatches(Fold(f, pattern), Fold(f, text))
  }

  /** Both adapters' searches find the same texts: folded query inside folded text. */
  lemma SearchesAgree(f: char -> char, query: string, text: string)
    requires FoldsApart(f)
    ensures ILikeMatches(f, SearchPattern(query), text) <==> Contains(Fold(f, text), Fold(f, query))
  {
    FoldEscaped(f, query);
    assert Fold(f, "%") == "%";
    FoldConcat(f, "%" + Escaped(query), "%");
    FoldConcat(f, "%", Escaped(query));
    assert Fold(f, SearchPattern(query)) == SearchPattern(Fold(f, query));
    SearchIsSubstring(Fold(f, query), Fold(f, text));
  }
}
