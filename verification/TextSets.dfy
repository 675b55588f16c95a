/**
 * Lists of texts compared as the setup compares them (apps/ledger-demo/setup/
 * converge.ts): sorted by code units and joined with newlines.
 */
module TextSets {
  import opened TextOrder
  import opened Tuples

  predicate Ascending(xs: seq<string>) {
    forall i, k | 0 <= i < k < |xs| :: TextLe(xs[i], xs[k])
  }

  function InsertText(x: string, xs: seq<string>): seq<string> {
    if xs == [] || TextLe(x, xs[0]) then [x] + xs else [xs[0]] + InsertText(x, xs[1..])
  }

  function SortTexts(xs: seq<string>): seq<string> {
    if xs == [] then [] else InsertText(xs[0], SortTexts(xs[1..]))
  }

  function Join(xs: seq<string>): string {
    if xs == [] then "" else if |xs| == 1 then xs[0] else xs[0] + ['\n'] + Join(xs[1..])
  }

  function Canonical(xs: seq<string>): string {
    Join(SortTexts(xs))
  }

  /** Texts a newline join cannot confuse. */
  predicate Plain(xs: seq<string>) {
    forall i | 0 <= i < |xs| :: xs[i] != "" && '\n' !in xs[i]
  }

  lemma PrependAscending(x: string, xs: seq<string>)
    requires Ascending(xs) && (xs != [] ==> TextLe(x, xs[0]))
    ensures Ascending([x] + xs)
  {
    forall k | 0 <= k < |xs| ensures TextLe(x, xs[k]) {
      TextLeTotal(xs[0], xs[0]);
      TextLeTransitive(x, xs[0], xs[k]);
    }
  }

  lemma {:induction false} InsertTextSorts(x: string, xs: seq<string>)
    requires Ascending(xs)
    ensures Ascending(InsertText(x, xs)) && multiset(InsertText(x, xs)) == multiset(xs) + multiset{x}
  {
    if xs == [] || TextLe(x, xs[0]) {
      PrependAscending(x, xs);
    } else {
      assert xs == [xs[0]] + xs[1..];
      InsertTextSorts(x, xs[1..]);
      var tail := InsertText(x, xs[1..]);
      assert tail[0] in multiset(tail);
      TextLeTotal(x, xs[0]);
      PrependAscending(xs[0], tail);
    }
  }

  lemma {:induction false} SortTextsSorts(xs: seq<string>)
    ensures Ascending(SortTexts(xs)) && multiset(SortTexts(xs)) == multiset(xs)
  {
    if xs != [] {
      SortTextsSorts(xs[1..]);
      InsertTextSorts(xs[0], SortTexts(xs[1..]));
      assert xs == [xs[0]] + xs[1..];
    }
  }

  lemma {:induction false} AscendingUnique(a: seq<string>, b: seq<string>)
    requires Ascending(a) && Ascending(b) && multiset(a) == multiset(b)
    ensures a == b
  {
    assert |multiset(a)| == |multiset(b)|;
    if a != [] {
      LeastHeads(a, b);
      TailsMatch(a, b);
      AscendingUnique(a[1..], b[1..]);
      assert a == [a[0]] + a[1..] && b == [b[0]] + b[1..];
    }
  }

  lemma LeastHeads(a: seq<string>, b: seq<string>)
    requires Ascending(a) && Ascending(b) && multiset(a) == multiset(b) && a != [] && b != []
    ensures a[0] == b[0]
  {
    assert a[0] in multiset(b) && b[0] in multiset(a);
    var k :| 0 <= k < |b| && b[k] == a[0];
    var i :| 0 <= i < |a| && a[i] == b[0];
    TextLeTotal(a[0], b[0]);
  }

  lemma {:induction false} JoinInjective(a: seq<string>, b: seq<string>)
    requires Plain(a) && Plain(b) && Join(a) == Join(b)
    ensures a == b
  {
    if a != [] && b != [] {
      JoinHead(a);
      JoinHead(b);
      if |a| > 1 && |b| > 1 {
        SplitUnique(a[0], Join(a[1..]), b[0], Join(b[1..]), '\n');
        JoinInjective(a[1..], b[1..]);
        assert a == [a[0]] + a[1..] && b == [b[0]] + b[1..];
      }
    } else {
      JoinHead(a);
      JoinHead(b);
    }
  }

  lemma JoinHead(xs: seq<string>)
    requires Plain(xs)
    ensures xs == [] <==> Join(xs) == ""
    ensures |xs| == 1 ==> '\n' !in Join(xs)
    ensures |xs| > 1 ==> '\n' in Join(xs)
  {
  }

  /** On plain texts the comparison ignores order and nothing else. */
  lemma CanonicalIff(a: seq<string>, b: seq<string>)
    requires Plain(a) && Plain(b)
    ensures Canonical(a) == Canonical(b) <==> multiset(a) == multiset(b)
  {
    SortTextsSorts(a);
    SortTextsSorts(b);
    if multiset(a) == multiset(b) {
      AscendingUnique(SortTexts(a), SortTexts(b));
    }
    if Canonical(a) == Canonical(b) {
      PlainSorted(a);
      PlainSorted(b);
      JoinInjective(SortTexts(a), SortTexts(b));
    }
  }

  lemma PlainSorted(xs: seq<string>)
    requires Plain(xs)
    ensures Plain(SortTexts(xs))
  {
    SortTextsSorts(xs);
    var sorted := SortTexts(xs);
    forall i | 0 <= i < |sorted| ensures sorted[i] != "" && '\n' !in sorted[i] {
      assert sorted[i] in multiset(sorted) && sorted[i] in multiset(xs);
      var k :| 0 <= k < |xs| && xs[k] == sorted[i];
    }
  }

  /** Other texts it can confuse: no text at all with the empty text. */
  lemma CanonicalConfuses()
    ensures var none: seq<string>, one := [], [""];
            Canonical(none) == Canonical(one) && multiset(none) != multiset(one)
  {
    assert SortTexts([""]) == [""];
    assert "" in multiset([""]);
  }
}
