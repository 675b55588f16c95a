/**
 * Find in a page (apps/law/web/src/pdf/find.ts): the words of the query, in
 * order, with any whitespace or none between them, whatever their case. Case is
 * folded character by character.
 */
module FindInPage {
  import opened Wrappers
  import opened Whitespace

  /** How characters fold; one that is not listed folds to itself. */
  type Folding = map<char, char>

  function Folded(fold: Folding, c: char): char {
    if c in fold then fold[c] else c
  }

  /** Folding neither makes nor removes whitespace. */
  ghost predicate KeepsSpace(fold: Folding) {
    forall c {:trigger SpaceKept(fold, c)} :: SpaceKept(fold, c)
  }

  predicate SpaceKept(fold: Folding, c: char) {
    Space(Folded(fold, c)) <==> Space(c)
  }

  predicate AllSpace(text: string) {
    forall i | 0 <= i < |text| :: Space(text[i])
  }

  predicate Word(text: string) {
    text != "" && forall i | 0 <= i < |text| :: !Space(text[i])
  }

  predicate Words(tokens: seq<string>) {
    forall t | t in tokens :: Word(t)
  }

  /** How much whitespace the text begins with. */
  function SpaceRun(text: string): (n: nat)
    ensures n <= |text| && AllSpace(text[..n]) && (n < |text| ==> !Space(text[n]))
  {
    if text == "" || !Space(text[0]) then 0 else 1 + SpaceRun(text[1..])
  }

  function WordRun(text: string): (n: nat)
    ensures n <= |text| && (forall i | 0 <= i < n :: !Space(text[i])) && (n < |text| ==> Space(text[n]))
    ensures text != "" && !Space(text[0]) ==> n > 0
  {
    if text == "" || Space(text[0]) then 0 else 1 + WordRun(text[1..])
  }

  /** The query's words; none when it has no searchable content. */
  function Compile(query: string): seq<string>
    decreases |query|
  {
    var rest := query[SpaceRun(query)..];
    if rest == "" then []
    else
      assert rest[0] == query[SpaceRun(query)];
      [rest[..WordRun(rest)]] + Compile(rest[WordRun(rest)..])
  }

  lemma {:induction false} CompilesToWords(query: string)
    ensures Words(Compile(query))
    decreases |query|
  {
    var rest := query[SpaceRun(query)..];
    if rest != "" {
      CompilesToWords(rest[WordRun(rest)..]);
      var word := rest[..WordRun(rest)];
      assert Word(word);
      assert Compile(query) == [word] + Compile(rest[WordRun(rest)..]);
    }
  }

  function WithoutSpace(text: string): string {
    if text == "" then "" else (if Space(text[0]) then "" else [text[0]]) + WithoutSpace(text[1..])
  }

  function Concat(parts: seq<string>): string {
    if parts == [] then "" else parts[0] + Concat(parts[1..])
  }

  lemma {:induction false} WithoutSpaceConcat(a: string, b: string)
    ensures WithoutSpace(a + b) == WithoutSpace(a) + WithoutSpace(b)
  {
    if a == "" {
      assert a + b == b;
    } else {
      var head := if Space(a[0]) then "" else [a[0]];
      assert (a + b)[1..] == a[1..] + b;
      WithoutSpaceConcat(a[1..], b);
      assert WithoutSpace(a + b) == head + (WithoutSpace(a[1..]) + WithoutSpace(b));
      assert WithoutSpace(a) == head + WithoutSpace(a[1..]);
    }
  }

  lemma {:induction false} OneKindWithoutSpace(text: string)
    ensures AllSpace(text) ==> WithoutSpace(text) == ""
    ensures (forall i | 0 <= i < |text| :: !Space(text[i])) ==> WithoutSpace(text) == text
  {
    if text != "" {
      OneKindWithoutSpace(text[1..]);
    }
  }

  /** The words are exactly the query's characters without its whitespace. */
  lemma {:induction false} CompileKeepsCharacters(query: string)
    ensures Concat(Compile(query)) == WithoutSpace(query)
    decreases |query|
  {
    var skipped := SpaceRun(query);
    var rest := query[skipped..];
    DropSpaces(query, skipped, rest);
    if rest != "" {
      var n := WordRun(rest);
      assert rest[0] == query[skipped];
      CompileKeepsCharacters(rest[n..]);
      CompileSteps(query, skipped, rest, n);
      KeepWord(rest, n);
    }
  }

  lemma DropSpaces(query: string, skipped: nat, rest: string)
    requires skipped == SpaceRun(query) && rest == query[skipped..]
    ensures WithoutSpace(query) == WithoutSpace(rest)
  {
    assert query == query[..skipped] + rest;
    WithoutSpaceConcat(query[..skipped], rest);
    OneKindWithoutSpace(query[..skipped]);
  }

  lemma KeepWord(rest: string, n: nat)
    requires n == WordRun(rest)
    ensures WithoutSpace(rest) == rest[..n] + WithoutSpace(rest[n..])
  {
    assert rest == rest[..n] + rest[n..];
    WithoutSpaceConcat(rest[..n], rest[n..]);
    OneKindWithoutSpace(rest[..n]);
  }

  /** There is nothing to search for exactly when the query is all whitespace. */
  lemma NothingToFindIff(query: string)
    ensures Compile(query) == [] <==> AllSpace(query)
  {
    var skipped := SpaceRun(query);
    if query[skipped..] == "" {
      assert query[..skipped] == query;
    } else {
      assert !Space(query[skipped]);
    }
  }

  lemma CompileSteps(query: string, skipped: nat, rest: string, n: nat)
    requires skipped == SpaceRun(query) && rest == query[skipped..] && rest != "" && n == WordRun(rest) && 0 < n
    ensures Compile(query) == [rest[..n]] + Compile(rest[n..])
    ensures Concat(Compile(query)) == rest[..n] + Concat(Compile(rest[n..]))
  {
  }

  /* ---------------------------------- occurrences ------------------------------------- */

  /** The word stands in the text at a position. */
  predicate WordAt(fold: Folding, word: string, text: string, at: nat) {
    at + |word| <= |text| && forall i | 0 <= i < |word| :: Folded(fold, text[at + i]) == Folded(fold, word[i])
  }

  function FoldAll(fold: Folding, text: string): string {
    seq(|text|, i requires 0 <= i < |text| => Folded(fold, text[i]))
  }

  /** That is: there the text reads as the word does, up to case, the end of the text included. */
  lemma WordAtIff(fold: Folding, word: string, before: string, middle: string, after: string)
    requires |middle| == |word|
    ensures WordAt(fold, word, before + middle + after, |before|) <==> FoldAll(fold, middle) == FoldAll(fold, word)
  {
    var text := before + middle + after;
    assert forall i | 0 <= i < |word| :: text[|before| + i] == middle[i];
    if WordAt(fold, word, text, |before|) {
      assert forall i | 0 <= i < |word| :: FoldAll(fold, middle)[i] == FoldAll(fold, word)[i];
    }
    if FoldAll(fold, middle) == FoldAll(fold, word) {
      assert forall i | 0 <= i < |word| :: FoldAll(fold, middle)[i] == Folded(fold, text[|before| + i]);
      assert forall i | 0 <= i < |word| :: FoldAll(fold, word)[i] == Folded(fold, word[i]);
    }
  }

  predicate SpaceBetween(text: string, start: nat, end: nat) {
    start <= end <= |text| && forall i | start <= i < end :: Space(text[i])
  }

  /** Where the whitespace from a position on ends. */
  function SpaceEnd(text: string, at: nat): (end: nat)
    requires at <= |text|
    ensures SpaceBetween(text, at, end) && (end < |text| ==> !Space(text[end]))
    decreases |text| - at
  {
    if at < |text| && Space(text[at]) then SpaceEnd(text, at + 1) else at
  }

  /** The text from `start` to `end` is the words from the k-th on, in order, with nothing but whitespace between them. */
  ghost predicate OccursFrom(fold: Folding, tokens: seq<string>, k: nat, text: string, start: nat, end: nat)
    requires k < |tokens|
    decreases |tokens| - k
  {
    WordAt(fold, tokens[k], text, start) &&
    var after := start + |tokens[k]|;
    if k + 1 == |tokens| then end == after
    else exists gap: nat :: SpaceBetween(text, after, gap) && OccursFrom(fold, tokens, k + 1, text, gap, end)
  }

  ghost predicate Occurs(fold: Folding, tokens: seq<string>, text: string, start: nat, end: nat) {
    tokens != [] && OccursFrom(fold, tokens, 0, text, start, end)
  }

  /** The expression tried at one position: each word, then as much whitespace as there is. */
  function MatchFrom(fold: Folding, tokens: seq<string>, k: nat, text: string, at: nat): Option<nat>
    requires k < |tokens|
    decreases |tokens| - k
  {
    if !WordAt(fold, tokens[k], text, at) then None
    else
      var after := at + |tokens[k]|;
      if k + 1 == |tokens| then Some(after) else MatchFrom(fold, tokens, k + 1, text, SpaceEnd(text, after))
  }

  function MatchEnd(fold: Folding, tokens: seq<string>, text: string, at: nat): Option<nat>
    requires tokens != []
  {
    MatchFrom(fold, tokens, 0, text, at)
  }

  /** A match is never empty and stays in the text. */
  lemma {:induction false} MatchAdvances(fold: Folding, tokens: seq<string>, k: nat, text: string, at: nat)
    requires k < |tokens| && Words(tokens) && MatchFrom(fold, tokens, k, text, at).Some?
    ensures at < MatchFrom(fold, tokens, k, text, at).value <= |text|
    decreases |tokens| - k
  {
    assert tokens[k] in tokens;
    if k + 1 < |tokens| {
      MatchAdvances(fold, tokens, k + 1, text, SpaceEnd(text, at + |tokens[k]|));
    }
  }

  lemma WordStartsWithoutSpace(fold: Folding, word: string, text: string, at: nat)
    requires KeepsSpace(fold) && Word(word) && WordAt(fold, word, text, at)
    ensures at < |text| && !Space(text[at])
  {
    assert Folded(fold, text[at + 0]) == Folded(fold, word[0]);
    assert SpaceKept(fold, text[at]) && SpaceKept(fold, word[0]);
  }

  lemma {:induction false} SpaceEndIs(text: string, at: nat, end: nat)
    requires SpaceBetween(text, at, end) && end < |text| && !Space(text[end])
    ensures SpaceEnd(text, at) == end
    decreases end - at
  {
  }

  /** A word can only begin right where the whitespace ends: no other gap works. */
  lemma OnlyGap(fold: Folding, word: string, text: string, after: nat, gap: nat)
    requires KeepsSpace(fold) && Word(word) && SpaceBetween(text, after, gap) && WordAt(fold, word, text, gap)
    ensures SpaceEnd(text, after) == gap
  {
    WordStartsWithoutSpace(fold, word, text, gap);
    SpaceEndIs(text, after, gap);
  }

  lemma {:induction false} OccurrenceMatches(fold: Folding, tokens: seq<string>, k: nat, text: string, start: nat, end: nat)
    requires KeepsSpace(fold) && Words(tokens) && k < |tokens| && OccursFrom(fold, tokens, k, text, start, end)
    ensures MatchFrom(fold, tokens, k, text, start) == Some(end)
    decreases |tokens| - k
  {
    if k + 1 < |tokens| {
      var after := start + |tokens[k]|;
      var gap: nat :| SpaceBetween(text, after, gap) && OccursFrom(fold, tokens, k + 1, text, gap, end);
      assert tokens[k + 1] in tokens;
      OnlyGap(fold, tokens[k + 1], text, after, gap);
      OccurrenceMatches(fold, tokens, k + 1, text, gap, end);
    }
  }

  lemma {:induction false} MatchOccurs(fold: Folding, tokens: seq<string>, k: nat, text: string, start: nat, end: nat)
    requires k < |tokens| && MatchFrom(fold, tokens, k, text, start) == Some(end)
    ensures OccursFrom(fold, tokens, k, text, start, end)
    decreases |tokens| - k
  {
    if k + 1 < |tokens| {
      var gap := SpaceEnd(text, start + |tokens[k]|);
      MatchOccurs(fold, tokens, k + 1, text, gap, end);
    }
  }

  /** An occurrence begins somewhere exactly when the expression matches there, and then ends where it says. */
  lemma OccursIffMatches(fold: Folding, tokens: seq<string>, text: string, start: nat, end: nat)
    requires KeepsSpace(fold) && Words(tokens) && tokens != []
    ensures Occurs(fold, tokens, text, start, end) <==> MatchEnd(fold, tokens, text, start) == Some(end)
  {
    if Occurs(fold, tokens, text, start, end) {
      OccurrenceMatches(fold, tokens, 0, text, start, end);
    }
    if MatchEnd(fold, tokens, text, start) == Some(end) {
      MatchOccurs(fold, tokens, 0, text, start, end);
    }
  }

  /* ------------------------------------ matches --------------------------------------- */

  datatype PageMatch = PageMatch(page: nat, start: nat, end: nat)

  function Nth(matches: seq<PageMatch>, i: nat): PageMatch
    requires i < |matches|
  {
    matches[i]
  }

  /** Reported in order without overlap, each an occurrence, and none begins outside all of them. */
  ghost predicate Exactly(fold: Folding, tokens: seq<string>, page: nat, text: string, matches: seq<PageMatch>) {
    && (forall i {:trigger Nth(matches, i)} | 0 <= i < |matches| ::
          Nth(matches, i).page == page && Occurs(fold, tokens, text, Nth(matches, i).start, Nth(matches, i).end))
    && InOrder(matches)
    && (forall start, end | Occurs(fold, tokens, text, start, end) :: Inside(matches, start))
  }

  predicate InOrder(matches: seq<PageMatch>) {
    && (forall i | 0 <= i < |matches| :: matches[i].start < matches[i].end)
    && (forall i, k | 0 <= i < k < |matches| :: matches[i].end <= matches[k].start)
  }

  predicate Inside(matches: seq<PageMatch>, at: nat) {
    exists i :: 0 <= i < |matches| && matches[i].start <= at < matches[i].end
  }

  /** The leftmost match at or after a position. */
  method Exec(fold: Folding, tokens: seq<string>, text: string, lastIndex: nat) returns (found: Option<(nat, nat)>)
    requires Words(tokens) && tokens != []
    ensures found.None? ==> forall i: nat | lastIndex <= i :: MatchEnd(fold, tokens, text, i).None?
    ensures found.Some? ==>
              var (start, end) := found.value;
              && lastIndex <= start < end <= |text| && MatchEnd(fold, tokens, text, start) == Some(end)
              && forall i: nat | lastIndex <= i < start :: MatchEnd(fold, tokens, text, i).None?
  {
    var at := lastIndex;
    while at < |text|
      invariant lastIndex <= at
      invariant forall i: nat | lastIndex <= i < at :: MatchEnd(fold, tokens, text, i).None?
    {
      var end := MatchEnd(fold, tokens, text, at);
      if end.Some? {
        MatchAdvances(fold, tokens, 0, text, at);
        return Some((at, end.value));
      }
      at := at + 1;
    }
    forall i: nat | |text| <= i ensures MatchEnd(fold, tokens, text, i).None? {
      assert tokens[0] in tokens;
    }
    found := None;
  }

  /** All matches on one page's text: exactly the leftmost occurrences that do not overlap. */
  method FindMatchesOnPage(fold: Folding, tokens: seq<string>, page: nat, text: string) returns (matches: seq<PageMatch>)
    requires KeepsSpace(fold) && Words(tokens) && tokens != []
    ensures Exactly(fold, tokens, page, text, matches)
  {
    matches := [];
    var lastIndex := 0;
    var found := Exec(fold, tokens, text, 0);
    while found.Some?
      invariant Reported(fold, tokens, page, text, matches, lastIndex)
      invariant found.None? ==> forall i: nat | lastIndex <= i :: MatchEnd(fold, tokens, text, i).None?
      invariant found.Some? ==>
                  var (start, end) := found.value;
                  && lastIndex <= start < end <= |text| && MatchEnd(fold, tokens, text, start) == Some(end)
                  && forall i: nat | lastIndex <= i < start :: MatchEnd(fold, tokens, text, i).None?
      decreases |text| - lastIndex
    {
      var (start, end) := found.value;
      ReportedNext(fold, tokens, page, text, matches, lastIndex, start, end);
      matches := matches + [PageMatch(page, start, end)];
      lastIndex := end;
      found := Exec(fold, tokens, text, lastIndex);
    }
    ReportedAll(fold, tokens, page, text, matches, lastIndex);
  }

  /** What is reported once the scan has passed a position. */
  ghost predicate Reported(fold: Folding, tokens: seq<string>, page: nat, text: string, matches: seq<PageMatch>, lastIndex: nat)
    requires Words(tokens) && tokens != []
  {
    && (forall i | 0 <= i < |matches| ::
          matches[i].page == page && MatchEnd(fold, tokens, text, matches[i].start) == Some(matches[i].end)
          && matches[i].end <= lastIndex)
    && InOrder(matches)
    && (forall at: nat | at < lastIndex && MatchEnd(fold, tokens, text, at).Some? :: Inside(matches, at))
  }

  lemma ReportedNext(fold: Folding, tokens: seq<string>, page: nat, text: string, matches: seq<PageMatch>,
                     lastIndex: nat, start: nat, end: nat)
    requires Words(tokens) && tokens != [] && Reported(fold, tokens, page, text, matches, lastIndex)
    requires lastIndex <= start < end && MatchEnd(fold, tokens, text, start) == Some(end)
    requires forall i: nat | lastIndex <= i < start :: MatchEnd(fold, tokens, text, i).None?
    ensures Reported(fold, tokens, page, text, matches + [PageMatch(page, start, end)], end)
  {
    var m := PageMatch(page, start, end);
    forall at: nat | at < end && MatchEnd(fold, tokens, text, at).Some? ensures Inside(matches + [m], at) {
      if at < lastIndex {
        assert Inside(matches, at);
      }
      InsideGrows(matches, m, at);
    }
    InOrderGrows(matches, m, lastIndex);
  }

  lemma InsideGrows(matches: seq<PageMatch>, m: PageMatch, at: nat)
    ensures Inside(matches, at) || m.start <= at < m.end ==> Inside(matches + [m], at)
  {
    var next := matches + [m];
    if Inside(matches, at) {
      var i :| 0 <= i < |matches| && matches[i].start <= at < matches[i].end;
      assert next[i] == matches[i];
    } else if m.start <= at < m.end {
      assert next[|matches|] == m;
    }
  }

  lemma InOrderGrows(matches: seq<PageMatch>, m: PageMatch, lastIndex: nat)
    requires InOrder(matches) && lastIndex <= m.start < m.end
    requires forall i | 0 <= i < |matches| :: matches[i].end <= lastIndex
    ensures InOrder(matches + [m])
  {
  }

  lemma ReportedAll(fold: Folding, tokens: seq<string>, page: nat, text: string, matches: seq<PageMatch>, lastIndex: nat)
    requires KeepsSpace(fold) && Words(tokens) && tokens != [] && Reported(fold, tokens, page, text, matches, lastIndex)
    requires forall i: nat | lastIndex <= i :: MatchEnd(fold, tokens, text, i).None?
    ensures Exactly(fold, tokens, page, text, matches)
  {
    forall i | 0 <= i < |matches| ensures Occurs(fold, tokens, text, matches[i].start, matches[i].end) {
      OccursIffMatches(fold, tokens, text, matches[i].start, matches[i].end);
    }
    forall start: nat, end: nat | Occurs(fold, tokens, text, start, end) ensures Inside(matches, start) {
      OccursIffMatches(fold, tokens, text, start, end);
    }
  }

  /** Where two lists agree so far, the next match of one is not before the next of the other. */
  lemma NextAgrees(a: seq<PageMatch>, b: seq<PageMatch>, k: nat)
    requires InOrder(a) && InOrder(b) && k < |a| && k <= |b| && a[..k] == b[..k] && Inside(b, a[k].start)
    ensures k < |b| && b[k].start <= a[k].start
  {
  }

  /** The k-th matches are equal when their starts are. */
  lemma SameStartSameMatch(fold: Folding, tokens: seq<string>, page: nat, text: string, m: PageMatch, n: PageMatch)
    requires KeepsSpace(fold) && Words(tokens) && tokens != [] && m.page == n.page && m.start == n.start
    requires Occurs(fold, tokens, text, m.start, m.end) && Occurs(fold, tokens, text, n.start, n.end)
    ensures m == n
  {
    OccursIffMatches(fold, tokens, text, m.start, m.end);
    OccursIffMatches(fold, tokens, text, n.start, n.end);
  }

  /** Every match of one list begins inside a match of the other. */
  ghost predicate StartsInside(a: seq<PageMatch>, b: seq<PageMatch>) {
    forall i {:trigger Nth(a, i)} | 0 <= i < |a| :: Inside(b, Nth(a, i).start)
  }

  ghost predicate SameWhereTheyStart(a: seq<PageMatch>, b: seq<PageMatch>) {
    forall i, j {:trigger Nth(a, i), Nth(b, j)} | 0 <= i < |a| && 0 <= j < |b| ::
      Nth(a, i).start == Nth(b, j).start ==> Nth(a, i) == Nth(b, j)
  }

  /** Two ordered lists that begin inside each other and agree wherever they start together are one. */
  lemma {:induction false} ListsAgree(a: seq<PageMatch>, b: seq<PageMatch>, k: nat)
    requires InOrder(a) && InOrder(b) && k <= |a| && k <= |b| && a[..k] == b[..k]
    requires StartsInside(a, b) && StartsInside(b, a) && SameWhereTheyStart(a, b)
    ensures a == b
    decreases |a| - k
  {
    if k < |a| {
      assert Inside(b, Nth(a, k).start);
      NextAgrees(a, b, k);
      assert Inside(a, Nth(b, k).start);
      NextAgrees(b, a, k);
      assert Nth(a, k) == Nth(b, k);
      assert a[..k + 1] == a[..k] + [a[k]] && b[..k + 1] == b[..k] + [b[k]];
      ListsAgree(a, b, k + 1);
    } else if k < |b| {
      assert Inside(a, Nth(b, k).start);
      NextAgrees(b, a, k);
    }
  }

  lemma ExactlyStartsInside(fold: Folding, tokens: seq<string>, page: nat, text: string, a: seq<PageMatch>, b: seq<PageMatch>)
    requires Exactly(fold, tokens, page, text, a) && Exactly(fold, tokens, page, text, b)
    ensures StartsInside(a, b)
  {
  }

  /** Only one list of matches is exact, so the reported one is it. */
  lemma ExactlyOne(fold: Folding, tokens: seq<string>, page: nat, text: string, a: seq<PageMatch>, b: seq<PageMatch>)
    requires KeepsSpace(fold) && Words(tokens) && tokens != []
    requires Exactly(fold, tokens, page, text, a) && Exactly(fold, tokens, page, text, b)
    ensures a == b
  {
    ExactlyStartsInside(fold, tokens, page, text, a, b);
    ExactlyStartsInside(fold, tokens, page, text, b, a);
    forall i: nat, j: nat | i < |a| && j < |b| && Nth(a, i).start == Nth(b, j).start ensures Nth(a, i) == Nth(b, j) {
      SameStartSameMatch(fold, tokens, page, text, Nth(a, i), Nth(b, j));
    }
    ListsAgree(a, b, 0);
  }
}
