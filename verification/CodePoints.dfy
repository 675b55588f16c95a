/**
 * Slicing UTF-16 text by code-point offsets (apps/law/backend/src/ocr/
 * document-ai.ts): the index from code points to units, and the anchored slices
 * taken through it. Code points are decoded as in section 2.2 of RFC 2781; an
 * unpaired surrogate stands for itself.
 */
module CodePoints {
  import opened Wrappers

  type Unit = u: int | 0 <= u < 0x1_0000

  predicate High(u: Unit) {
    0xD800 <= u < 0xDC00
  }

  predicate Low(u: Unit) {
    0xDC00 <= u < 0xE000
  }

  /** The code point that begins at a position. */
  function CodePointAt(text: seq<Unit>, at: nat): nat
    requires at < |text|
  {
    if High(text[at]) && at + 1 < |text| && Low(text[at + 1]) then
      0x1_0000 + (text[at] as int - 0xD800) * 0x400 + (text[at + 1] as int - 0xDC00)
    else text[at]
  }

  /** The units of a code point, as section 2.1 of RFC 2781 encodes it. */
  function Encode(codePoint: nat): (units: seq<Unit>)
    requires codePoint < 0x11_0000
    ensures |units| == if codePoint > 0xFFFF then 2 else 1
  {
    if codePoint <= 0xFFFF then [codePoint]
    else [0xD800 + (codePoint - 0x1_0000) / 0x400, 0xDC00 + (codePoint - 0x1_0000) % 0x400]
  }

  function Width(text: seq<Unit>, at: nat): (w: nat)
    requires at < |text|
    ensures 1 <= w <= 2 && at + w <= |text|
  {
    if CodePointAt(text, at) > 0xFFFF then 2 else 1
  }

  /** A high surrogate with a low one after it is one code point of two units; any other unit is its own. */
  lemma PairIff(text: seq<Unit>, at: nat)
    requires at < |text|
    ensures Width(text, at) == 2 <==>
            0xD800 <= text[at] <= 0xDBFF && at < |text| - 1 && 0xDC00 <= text[at + 1] <= 0xDFFF
    ensures CodePointAt(text, at)
            == if Width(text, at) == 2 then (text[at] as int - 0xD800) * 1024 + (text[at + 1] as int - 0xDC00) + 65536
               else text[at]
  {
  }

  /** A decoded code point encodes back to exactly the units it was read from. */
  lemma DecodeEncode(text: seq<Unit>, at: nat)
    requires at < |text|
    ensures CodePointAt(text, at) < 0x11_0000
    ensures Encode(CodePointAt(text, at)) == text[at..at + Width(text, at)]
  {
    var c := CodePointAt(text, at);
    if c > 0xFFFF {
      var high: int, low: int := text[at] as int - 0xD800, text[at + 1] as int - 0xDC00;
      assert c - 0x1_0000 == high * 0x400 + low;
      assert (high * 0x400 + low) / 0x400 == high && (high * 0x400 + low) % 0x400 == low;
    }
  }

  /** The text cut into code points. */
  function Cut(text: seq<Unit>): seq<seq<Unit>> {
    if text == [] then [] else [text[..Width(text, 0)]] + Cut(text[Width(text, 0)..])
  }

  function Flatten(parts: seq<seq<Unit>>): seq<Unit> {
    if parts == [] then [] else parts[0] + Flatten(parts[1..])
  }

  lemma {:induction false} FlattenConcat(a: seq<seq<Unit>>, b: seq<seq<Unit>>)
    ensures Flatten(a + b) == Flatten(a) + Flatten(b)
  {
    if a == [] {
      assert a + b == b;
    } else {
      assert (a + b)[1..] == a[1..] + b;
      FlattenConcat(a[1..], b);
      assert Flatten(a + b) == a[0] + (Flatten(a[1..]) + Flatten(b));
      assert Flatten(a) == a[0] + Flatten(a[1..]);
    }
  }

  lemma FlattenAppends(parts: seq<seq<Unit>>, last: seq<Unit>)
    ensures Flatten(parts + [last]) == Flatten(parts) + last
  {
    FlattenConcat(parts, [last]);
    assert Flatten([last]) == last + Flatten([last][1..]);
  }

  /** Cutting loses nothing, and no cut has a code point of more or less than its units. */
  lemma {:induction false} CutIsWhole(text: seq<Unit>)
    ensures Flatten(Cut(text)) == text && |Cut(text)| <= |text|
    ensures forall k | 0 <= k < |Cut(text)| :: 1 <= |Cut(text)[k]| <= 2
  {
    if text != [] {
      CutIsWhole(text[Width(text, 0)..]);
    }
  }

  /** Where a code point begins, in units. */
  function Offset(text: seq<Unit>, k: nat): nat
    requires k <= |Cut(text)|
  {
    |Flatten(Cut(text)[..k])|
  }

  lemma CutAt(text: seq<Unit>, at: nat)
    requires at < |text|
    ensures Cut(text[at..]) == [text[at..at + Width(text, at)]] + Cut(text[at + Width(text, at)..])
  {
    assert Width(text[at..], 0) == Width(text, at);
    assert text[at..][..Width(text, at)] == text[at..at + Width(text, at)];
    assert text[at..][Width(text, at)..] == text[at + Width(text, at)..];
  }

  /** Reading `k` code points from the start takes `at` units. */
  ghost predicate Reached(text: seq<Unit>, k: nat, at: nat)
    decreases k
  {
    if k == 0 then at == 0
    else exists before: nat :: Reached(text, k - 1, before) && before < |text| && at == before + Width(text, before)
  }

  lemma ReachedStep(text: seq<Unit>, k: nat, at: nat)
    requires Reached(text, k, at) && at < |text|
    ensures Reached(text, k + 1, at + Width(text, at))
  {
  }

  /** The first `k` cuts and their units. */
  ghost predicate Behind(text: seq<Unit>, k: nat, at: nat) {
    at <= |text| && k <= |Cut(text)| && Cut(text)[k..] == Cut(text[at..]) && Flatten(Cut(text)[..k]) == text[..at]
  }

  lemma NothingBehind(text: seq<Unit>)
    ensures Behind(text, 0, 0)
  {
  }

  lemma NextCut(text: seq<Unit>, k: nat, at: nat)
    requires Behind(text, k, at) && at < |text|
    ensures Behind(text, k + 1, at + Width(text, at))
  {
    var width, parts := Width(text, at), Cut(text);
    CutAt(text, at);
    assert parts[k] == parts[k..][0] == text[at..at + width];
    FlattenAppends(parts[..k], parts[k]);
    assert parts[..k] + [parts[k]] == parts[..k + 1];
    assert text[..at] + text[at..at + width] == text[..at + width];
    assert parts[k + 1..] == parts[k..][1..];
  }

  lemma CutBehind(text: seq<Unit>, k: nat, before: nat, at: nat)
    requires k > 0 && Behind(text, k - 1, before) && before < |text| && at == before + Width(text, before)
    ensures Behind(text, k, at)
  {
    NextCut(text, k - 1, before);
  }

  lemma ReachedBefore(text: seq<Unit>, k: nat, at: nat) returns (before: nat)
    requires k > 0 && Reached(text, k, at)
    ensures Reached(text, k - 1, before) && before < |text| && at == before + Width(text, before)
  {
    before :| Reached(text, k - 1, before) && before < |text| && at == before + Width(text, before);
  }

  /** What reading so far has behind it: the first cuts, and their units. */
  lemma {:induction false} ReachedMeans(text: seq<Unit>, k: nat, at: nat)
    requires Reached(text, k, at)
    ensures Behind(text, k, at)
  {
    if k == 0 {
      NothingBehind(text);
    } else {
      var before := ReachedBefore(text, k, at);
      ReachedMeans(text, k - 1, before);
      CutBehind(text, k, before, at);
    }
  }

  /** Writes where each code point begins; answers how many there are. */
  method WriteOffsets(text: seq<Unit>, entries: array<nat>) returns (codePoints: nat)
    requires entries.Length == |text| + 1
    modifies entries
    ensures codePoints <= |text| && Reached(text, codePoints, |text|)
    ensures forall k | 0 <= k < codePoints :: Reached(text, k, entries[k])
  {
    var utf16 := 0;
    codePoints := 0;
    while utf16 < |text|
      invariant codePoints <= utf16 <= |text| && Reached(text, codePoints, utf16)
      invariant forall k | 0 <= k < codePoints :: Reached(text, k, entries[k])
    {
      ReachedStep(text, codePoints, utf16);
      entries[codePoints] := utf16;
      codePoints := codePoints + 1;
      utf16 := utf16 + Width(text, utf16);
    }
  }

  /** The index: one entry per code point, where it begins, and the text's length at the end. */
  method BuildCodePointIndex(text: seq<Unit>) returns (index: seq<nat>)
    ensures |index| == |Cut(text)| + 1
    ensures forall k | 0 <= k < |index| :: index[k] == Offset(text, k)
    ensures index[|index| - 1] == |text|
  {
    var entries := new nat[|text| + 1];
    var codePoints := WriteOffsets(text, entries);
    entries[codePoints] := |text|;
    index := entries[..codePoints + 1];
    ReachedMeans(text, codePoints, |text|);
    assert |Cut(text)[codePoints..]| == 0;
    forall k | 0 <= k < |index| ensures index[k] == Offset(text, k) {
      ReachedMeans(text, k, index[k]);
    }
  }

  lemma FlattenSplit(parts: seq<seq<Unit>>, i: nat, k: nat)
    requires i <= k <= |parts|
    ensures Flatten(parts[..k]) == Flatten(parts[..i]) + Flatten(parts[i..k])
  {
    assert parts[..k] == parts[..i] + parts[i..k];
    FlattenConcat(parts[..i], parts[i..k]);
  }

  /** The index strictly increases. */
  lemma OffsetsIncrease(text: seq<Unit>, i: nat, k: nat)
    requires i < k <= |Cut(text)|
    ensures Offset(text, i) < Offset(text, k) <= |text|
  {
    CutIsWhole(text);
    var parts := Cut(text);
    FlattenSplit(parts, i, k);
    assert parts[i..k][0] == parts[i];
    FlattenSplit(parts, k, |parts|);
    assert parts[..|parts|] == parts;
  }

  /* ------------------------------------ slices -------------------------------------- */

  /** The units of the code points from one offset up to another. */
  function Between(text: seq<Unit>, start: nat, end: nat): seq<Unit>
    requires start <= end <= |Cut(text)|
  {
    Flatten(Cut(text)[start..end])
  }

  /** Slicing the units between two index entries gives exactly those code points. */
  lemma SliceIsBetween(text: seq<Unit>, start: nat, end: nat)
    requires start <= end <= |Cut(text)|
    ensures Offset(text, start) <= Offset(text, end) <= |text|
    ensures text[Offset(text, start)..Offset(text, end)] == Between(text, start, end)
  {
    var parts := Cut(text);
    CutIsWhole(text);
    FlattenSplit(parts, start, end);
    FlattenSplit(parts, end, |parts|);
    assert parts[..|parts|] == parts;
    assert text[..Offset(text, end)] == Flatten(parts[..end]);
  }

  /** Adjacent slices join without loss or overlap. */
  lemma SlicesJoin(text: seq<Unit>, start: nat, mid: nat, end: nat)
    requires start <= mid <= end <= |Cut(text)|
    ensures Between(text, start, mid) + Between(text, mid, end) == Between(text, start, end)
    ensures Between(text, 0, |Cut(text)|) == text
  {
    FlattenConcat(Cut(text)[start..mid], Cut(text)[mid..end]);
    assert Cut(text)[start..mid] + Cut(text)[mid..end] == Cut(text)[start..end];
    CutIsWhole(text);
    assert Cut(text)[0..|Cut(text)|] == Cut(text);
  }

  /** An offset as the response carries it, parsed: a safe integer or anything else. */
  datatype Parsed = Safe(value: int) | NotSafe

  datatype Segment = Segment(startIndex: Option<Parsed>, endIndex: Option<Parsed>)

  /** An omitted offset is zero. */
  function OrZero(p: Option<Parsed>): Parsed {
    if p.None? then Safe(0) else p.value
  }

  function Clamp(value: int, count: nat): nat {
    if value < 0 then 0 else if value > count then count else value
  }

  /** The segment's code points after clamping; a segment that ends before it starts is empty. */
  function Anchored(text: seq<Unit>, s: Segment): seq<Unit>
    requires SafeSegment(s)
  {
    var count := |Cut(text)|;
    var start, end := Clamp(OrZero(s.startIndex).value, count), Clamp(OrZero(s.endIndex).value, count);
    if start <= end then Between(text, start, end) else []
  }

  /** `a` is the offset as it is used: an absent one is 0, and it is kept within the text. */
  predicate Within(p: Option<Parsed>, count: nat, a: nat) {
    var v := if p.Some? && p.value.Safe? then p.value.value else 0;
    (0 <= v <= count ==> a == v) && (v < 0 ==> a == 0) && (v > count ==> a == count)
  }

  /** The segment's text, by its two offsets as they are used. */
  lemma AnchoredIs(text: seq<Unit>, s: Segment, a: nat, b: nat)
    requires SafeSegment(s) && Within(s.startIndex, |Cut(text)|, a) && Within(s.endIndex, |Cut(text)|, b)
    ensures a <= |Cut(text)| && b <= |Cut(text)|
    ensures Anchored(text, s) == if a <= b then Between(text, a, b) else []
  {
  }

  predicate SafeSegment(s: Segment) {
    OrZero(s.startIndex).Safe? && OrZero(s.endIndex).Safe?
  }

  predicate Usable(segments: seq<Segment>) {
    forall s | s in segments :: SafeSegment(s)
  }

  function AnchoredAll(text: seq<Unit>, segments: seq<Segment>): seq<Unit>
    requires Usable(segments)
  {
    if segments == [] then []
    else AnchoredAll(text, segments[..|segments| - 1]) + Anchored(text, segments[|segments| - 1])
  }

  /** The units one segment takes through the index. */
  method SliceSegment(text: seq<Unit>, index: seq<nat>, s: Segment) returns (part: seq<Unit>)
    requires |index| == |Cut(text)| + 1 && forall k | 0 <= k < |index| :: index[k] == Offset(text, k)
    requires SafeSegment(s)
    ensures part == Anchored(text, s)
  {
    var first := Clamp(OrZero(s.startIndex).value, |index| - 1);
    var last := Clamp(OrZero(s.endIndex).value, |index| - 1);
    if first <= last {
      SliceIsBetween(text, first, last);
      part := text[index[first]..index[last]];
    } else {
      part := [];
    }
  }

  lemma AnchoredNext(text: seq<Unit>, before: seq<Segment>, s: Segment)
    requires Usable(before) && SafeSegment(s)
    ensures Usable(before + [s]) && AnchoredAll(text, before + [s]) == AnchoredAll(text, before) + Anchored(text, s)
  {
  }

  /** One page's text: the code points its segments name, in order; an unsafe offset is refused. */
  method SliceAnchoredText(text: seq<Unit>, index: seq<nat>, segments: seq<Segment>)
    returns (r: Result<seq<Unit>, string>)
    requires |index| == |Cut(text)| + 1 && forall k | 0 <= k < |index| :: index[k] == Offset(text, k)
    ensures r.Ok? <==> Usable(segments)
    ensures r.Ok? ==> r.value == AnchoredAll(text, segments)
  {
    var out := [];
    for i := 0 to |segments|
      invariant Usable(segments[..i]) && out == AnchoredAll(text, segments[..i])
    {
      if !SafeSegment(segments[i]) {
        return Err("non-safe-integer offset");
      }
      var part := SliceSegment(text, index, segments[i]);
      assert segments[..i + 1] == segments[..i] + [segments[i]];
      AnchoredNext(text, segments[..i], segments[i]);
      out := out + part;
    }
    assert segments[..|segments|] == segments;
    r := Ok(out);
  }
}
