/**
 * From a match's offsets to a range over the page's text nodes (apps/law/web/src/
 * pdf/highlight.ts). The nodes are their strings in order; the page text is the
 * strings with nothing between them.
 */
module Highlight {
  import opened Wrappers
  import opened FindInPage

  /** A range: a place in one node to a place in the same or a later one. */
  datatype Range = Range(startNode: nat, startAt: nat, endNode: nat, endAt: nat)

  /** How many characters stand before a node. */
  function Before(nodes: seq<string>, k: nat): nat
    requires k <= |nodes|
  {
    if k == 0 then 0 else Before(nodes, k - 1) + |nodes[k - 1]|
  }

  predicate ValidRange(nodes: seq<string>, r: Range) {
    && r.startNode <= r.endNode < |nodes|
    && r.startAt <= |nodes[r.startNode]| && r.endAt <= |nodes[r.endNode]|
    && (r.startNode == r.endNode ==> r.startAt <= r.endAt)
  }

  /** The text a range selects. */
  function Covered(nodes: seq<string>, r: Range): string
    requires ValidRange(nodes, r)
  {
    if r.startNode == r.endNode then nodes[r.startNode][r.startAt..r.endAt]
    else nodes[r.startNode][r.startAt..] + Concat(nodes[r.startNode + 1..r.endNode]) + nodes[r.endNode][..r.endAt]
  }

  lemma {:induction false} ConcatSplit(a: seq<string>, b: seq<string>)
    ensures Concat(a + b) == Concat(a) + Concat(b)
  {
    if a == [] {
      assert a + b == b;
    } else {
      assert (a + b)[1..] == a[1..] + b;
      ConcatSplit(a[1..], b);
      assert Concat(a + b) == a[0] + (Concat(a[1..]) + Concat(b));
      assert Concat(a) == a[0] + Concat(a[1..]);
    }
  }

  lemma {:induction false} BeforeIsLength(nodes: seq<string>, k: nat)
    requires k <= |nodes|
    ensures Before(nodes, k) == |Concat(nodes[..k])|
  {
    if k > 0 {
      BeforeIsLength(nodes, k - 1);
      assert nodes[..k] == nodes[..k - 1] + [nodes[k - 1]];
      ConcatSplit(nodes[..k - 1], [nodes[k - 1]]);
      assert [nodes[k - 1]][1..] == [];
    }
  }

  /** Whole nodes in the page text. */
  lemma NodesInText(nodes: seq<string>, i: nat, k: nat)
    requires i <= k <= |nodes|
    ensures Before(nodes, i) <= Before(nodes, k) <= |Concat(nodes)|
    ensures Concat(nodes)[Before(nodes, i)..Before(nodes, k)] == Concat(nodes[i..k])
  {
    BeforeIsLength(nodes, i);
    BeforeIsLength(nodes, k);
    assert nodes[..k] == nodes[..i] + nodes[i..k];
    ConcatSplit(nodes[..i], nodes[i..k]);
    assert nodes == nodes[..k] + nodes[k..];
    ConcatSplit(nodes[..k], nodes[k..]);
  }

  /** A node's characters in the page text. */
  lemma NodeInText(nodes: seq<string>, k: nat)
    requires k < |nodes|
    ensures Before(nodes, k) + |nodes[k]| <= |Concat(nodes)|
    ensures Concat(nodes)[Before(nodes, k)..Before(nodes, k) + |nodes[k]|] == nodes[k]
  {
    var one := nodes[k..k + 1];
    ConcatOne(one);
    NodesInText(nodes, k, k + 1);
  }

  lemma ConcatOne(parts: seq<string>)
    requires |parts| == 1
    ensures Concat(parts) == parts[0]
  {
  }

  lemma SliceOfSlice(text: string, first: nat, part: string, i: nat, j: nat)
    requires first + |part| <= |text| && text[first..first + |part|] == part && i <= j <= |part|
    ensures text[first + i..first + j] == part[i..j]
  {
    forall x | i <= x < j ensures text[first + x] == part[x] {
      assert text[first..first + |part|][x] == part[x];
    }
  }

  lemma ThreeSlices(text: string, a: nat, b: nat, c: nat, d: nat)
    requires a <= b <= c <= d <= |text|
    ensures text[a..d] == text[a..b] + text[b..c] + text[c..d]
  {
  }

  /** A range covers exactly the page text between its two offsets. */
  lemma CoveredIsSlice(nodes: seq<string>, r: Range)
    requires ValidRange(nodes, r)
    ensures Before(nodes, r.startNode) + r.startAt <= Before(nodes, r.endNode) + r.endAt <= |Concat(nodes)|
    ensures Covered(nodes, r) == Concat(nodes)[Before(nodes, r.startNode) + r.startAt..Before(nodes, r.endNode) + r.endAt]
  {
    if r.startNode == r.endNode {
      NodeInText(nodes, r.startNode);
      SliceOfSlice(Concat(nodes), Before(nodes, r.startNode), nodes[r.startNode], r.startAt, r.endAt);
    } else {
      CoveredAcross(nodes, r, Before(nodes, r.startNode), Before(nodes, r.endNode));
    }
  }

  /** The three pieces of a range across nodes: of its first node, the nodes between, and of its last. */
  lemma HeadPiece(nodes: seq<string>, k: nat, at: nat)
    requires k < |nodes| && at <= |nodes[k]|
    ensures Before(nodes, k + 1) == Before(nodes, k) + |nodes[k]| <= |Concat(nodes)|
    ensures Concat(nodes)[Before(nodes, k) + at..Before(nodes, k + 1)] == nodes[k][at..]
  {
    NodeInText(nodes, k);
    NodesInText(nodes, k, k + 1);
    ConcatOne(nodes[k..k + 1]);
    SliceOfSlice(Concat(nodes), Before(nodes, k), nodes[k], at, |nodes[k]|);
    assert nodes[k][at..|nodes[k]|] == nodes[k][at..];
  }

  lemma TailPiece(nodes: seq<string>, k: nat, at: nat)
    requires k < |nodes| && at <= |nodes[k]|
    ensures Before(nodes, k) + at <= |Concat(nodes)|
    ensures Concat(nodes)[Before(nodes, k)..Before(nodes, k) + at] == nodes[k][..at]
  {
    NodeInText(nodes, k);
    SliceOfSlice(Concat(nodes), Before(nodes, k), nodes[k], 0, at);
    assert nodes[k][0..at] == nodes[k][..at];
  }

  lemma CoveredAcross(nodes: seq<string>, r: Range, first: nat, last: nat)
    requires ValidRange(nodes, r) && r.startNode < r.endNode
    requires first == Before(nodes, r.startNode) && last == Before(nodes, r.endNode)
    ensures first + r.startAt <= last + r.endAt <= |Concat(nodes)|
    ensures Covered(nodes, r) == Concat(nodes)[first + r.startAt..last + r.endAt]
  {
    HeadPiece(nodes, r.startNode, r.startAt);
    NodesInText(nodes, r.startNode + 1, r.endNode);
    TailPiece(nodes, r.endNode, r.endAt);
    ThreeSlices(Concat(nodes), first + r.startAt, Before(nodes, r.startNode + 1), last, last + r.endAt);
  }

  lemma NodeEnds(nodes: seq<string>, i: nat)
    requires i < |nodes|
    ensures Before(nodes, i + 1) == Before(nodes, i) + |nodes[i]| <= |Concat(nodes)|
  {
    HeadPiece(nodes, i, 0);
  }

  lemma WholeLength(nodes: seq<string>)
    ensures Before(nodes, |nodes|) == |Concat(nodes)|
  {
    BeforeIsLength(nodes, |nodes|);
    assert nodes[..|nodes|] == nodes;
  }

  /** The range begins inside its first node and covers exactly the page text of the offsets. */
  predicate Resolves(nodes: seq<string>, r: Range, start: nat, end: nat)
    requires start <= end <= |Concat(nodes)|
  {
    && ValidRange(nodes, r)
    && Before(nodes, r.startNode) + r.startAt == start
    && Before(nodes, r.endNode) + r.endAt == end
    && r.startAt < |nodes[r.startNode]|
    && Covered(nodes, r) == Concat(nodes)[start..end]
  }

  lemma FoundHere(nodes: seq<string>, startNode: nat, startAt: nat, i: nat, start: nat, end: nat)
    requires startNode <= i < |nodes| && startAt < |nodes[startNode]| && Before(nodes, startNode) + startAt == start
    requires start <= end && Before(nodes, i) <= end <= Before(nodes, i) + |nodes[i]|
    ensures end <= |Concat(nodes)| && Resolves(nodes, Range(startNode, startAt, i, end - Before(nodes, i)), start, end)
  {
    NodeEnds(nodes, i);
    CoveredIsSlice(nodes, Range(startNode, startAt, i, end - Before(nodes, i)));
  }

  /**
   * The walk: a range whose two ends are exactly the match's offsets, and none
   * exactly when they fall outside the rendered text.
   */
  method ResolveMatch(nodes: seq<string>, start: nat, end: nat) returns (found: Option<Range>)
    requires start <= end
    ensures found.None? <==> start >= |Concat(nodes)| || end > |Concat(nodes)|
    ensures found.Some? ==> end <= |Concat(nodes)| && Resolves(nodes, found.value, start, end)
  {
    var consumed, startSet := 0, false;
    var startNode: nat, startAt: nat := 0, 0;
    for i := 0 to |nodes|
      invariant consumed == Before(nodes, i)
      invariant !startSet ==> consumed <= start
      invariant startSet ==>
                  && startNode < i && startAt < |nodes[startNode]|
                  && Before(nodes, startNode) + startAt == start && consumed < end
    {
      NodeEnds(nodes, i);
      var length := |nodes[i]|;
      if !startSet && start < consumed + length {
        startNode, startAt, startSet := i, start - consumed, true;
      }
      if startSet && end <= consumed + length {
        FoundHere(nodes, startNode, startAt, i, start, end);
        return Some(Range(startNode, startAt, i, end - consumed));
      }
      consumed := consumed + length;
    }
    WholeLength(nodes);
    found := None;
  }

  /** A run is drawn where its characters say when its scale is within the tolerance of one. */
  const SCALE_X_TOLERANCE := 0.02

  predicate Faithful(scale: real) {
    -SCALE_X_TOLERANCE <= scale - 1.0 <= SCALE_X_TOLERANCE
  }

  lemma FaithfulIff(scale: real)
    ensures Faithful(scale) <==> 0.98 <= scale <= 1.02
  {
  }

  predicate AllFaithful(scales: seq<real>, first: nat, last: nat)
    requires first <= last < |scales|
  {
    forall k | first <= k <= last :: Faithful(scales[k])
  }

  /**
   * The range that is safe to paint: the exact one when every run it touches is
   * faithful, otherwise exactly those runs whole. It always contains the match.
   */
  method AlignedRangeForMatch(nodes: seq<string>, scales: seq<real>, start: nat, end: nat) returns (found: Option<Range>)
    requires start <= end && |scales| == |nodes|
    ensures found.None? <==> start >= |Concat(nodes)| || end > |Concat(nodes)|
    ensures found.Some? ==>
              var r := found.value;
              && ValidRange(nodes, r)
              && Before(nodes, r.startNode) <= start < Before(nodes, r.startNode) + |nodes[r.startNode]|
              && Before(nodes, r.startNode) + r.startAt <= start && end <= Before(nodes, r.endNode) + r.endAt
              && (if AllFaithful(scales, r.startNode, r.endNode)
                  then Covered(nodes, r) == Concat(nodes)[start..end]
                  else Covered(nodes, r) == Concat(nodes[r.startNode..r.endNode + 1]))
  {
    var resolved := ResolveMatch(nodes, start, end);
    if resolved.None? {
      return None;
    }
    var r := resolved.value;
    var faithful := true;
    for k := r.startNode to r.endNode + 1
      invariant faithful <==> forall j | r.startNode <= j < k :: Faithful(scales[j])
    {
      faithful := faithful && Faithful(scales[k]);
    }
    if faithful {
      return Some(r);
    }
    var widened := Range(r.startNode, 0, r.endNode, |nodes[r.endNode]|);
    CoveredIsSlice(nodes, widened);
    NodesInText(nodes, r.startNode, r.endNode + 1);
    found := Some(widened);
  }

  /** A reported match lies in the rendered text, so it always resolves. */
  lemma ReportedMatchResolves(fold: Folding, tokens: seq<string>, page: nat, text: string, m: PageMatch)
    requires KeepsSpace(fold) && Words(tokens) && tokens != [] && Occurs(fold, tokens, text, m.start, m.end)
    ensures m.start < m.end <= |text|
  {
    OccursIffMatches(fold, tokens, text, m.start, m.end);
    MatchAdvances(fold, tokens, 0, text, m.start);
  }
}
