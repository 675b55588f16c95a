/**
 * Reading a kind's rows (packages/resource-api/src/store/memory-store.ts): filter,
 * sort, page, count and sum; and reading every row page by page
 * (apps/law/backend/src/domain/authz/tuples.ts).
 */
module Listing {
  import opened Wrappers
  import opened TextOrder
  import opened Store
  import opened Filters

  datatype OrderBy = OrderBy(field: string, descending: bool, nullsLast: bool)

  /* -------------------------------- the comparator -------------------------------- */

  function CompareTexts(a: string, b: string): int {
    if TextLt(a, b) then -1 else if TextLt(b, a) then 1 else 0
  }

  /** Unset values as `nullsLast` says, then the texts by direction, then the ids. */
  function CompareRows(o: OrderBy, a: Row, b: Row): int {
    var av, bv := Rendered(a.fields, o.field), Rendered(b.fields, o.field);
    var primary :=
      if av.None? && bv.Some? then (if o.nullsLast then 1 else -1)
      else if bv.None? && av.Some? then (if o.nullsLast then -1 else 1)
      else if av.Some? && bv.Some? then
        (if o.descending then -CompareTexts(av.value, bv.value) else CompareTexts(av.value, bv.value))
      else 0;
    if primary != 0 then primary else CompareTexts(a.id, b.id)
  }

  /** Before, by field: unset values all last or all first whatever the direction, the others by direction. */
  lemma ComparedByField(o: OrderBy, a: Row, b: Row)
    ensures var av, bv := Rendered(a.fields, o.field), Rendered(b.fields, o.field);
            && (av.Some? && bv.None? ==> (CompareRows(o, a, b) < 0 <==> o.nullsLast))
            && (av.Some? && bv.Some? && av != bv ==>
                  (CompareRows(o, a, b) < 0 <==>
                   if o.descending then TextLe(bv.value, av.value) else TextLe(av.value, bv.value)))
            && (av == bv ==> (CompareRows(o, a, b) <= 0 <==> TextLe(a.id, b.id)))
  {
    var av, bv := Rendered(a.fields, o.field), Rendered(b.fields, o.field);
    TextsOrdered(a.id, b.id, a.id);
    TextLeTotal(a.id, b.id);
    if av.Some? && bv.Some? {
      TextsOrdered(av.value, bv.value, av.value);
      TextLeTotal(av.value, bv.value);
    }
  }

  lemma TextsOrdered(a: string, b: string, c: string)
    ensures CompareTexts(a, b) == -CompareTexts(b, a)
    ensures CompareTexts(a, b) == 0 <==> a == b
    ensures CompareTexts(a, b) <= 0 && CompareTexts(b, c) <= 0 ==> CompareTexts(a, c) <= 0
  {
    TextLeTotal(a, b);
    TextLeTotal(b, c);
    TextLeTotal(a, c);
    if TextLe(a, b) && TextLe(b, c) {
      TextLeTransitive(a, b, c);
    }
  }

  /** A total order: antisymmetric, transitive, and zero only between rows of one id. */
  lemma ComparatorIsTotalOrder(o: OrderBy, a: Row, b: Row, c: Row)
    ensures CompareRows(o, a, b) == -CompareRows(o, b, a)
    ensures CompareRows(o, a, b) == 0 ==> a.id == b.id
    ensures a == b ==> CompareRows(o, a, b) == 0
    ensures CompareRows(o, a, b) <= 0 && CompareRows(o, b, c) <= 0 ==> CompareRows(o, a, c) <= 0
  {
    var av, bv, cv := Rendered(a.fields, o.field), Rendered(b.fields, o.field), Rendered(c.fields, o.field);
    TextsOrdered(a.id, b.id, c.id);
    if av.Some? && bv.Some? {
      TextsOrdered(av.value, bv.value, if cv.Some? then cv.value else "");
      TextsOrdered(bv.value, av.value, if cv.Some? then cv.value else "");
    }
    if cv.Some? && bv.Some? && av.Some? {
      TextsOrdered(cv.value, bv.value, av.value);
      TextsOrdered(bv.value, cv.value, av.value);
      TextsOrdered(av.value, cv.value, bv.value);
    }
  }

  predicate SortedBy(o: OrderBy, rows: seq<Row>) {
    forall i, k | 0 <= i < k < |rows| :: CompareRows(o, rows[i], rows[k]) <= 0
  }

  lemma LeastIsFirst(o: OrderBy, a: seq<Row>, b: seq<Row>)
    requires SortedBy(o, a) && SortedBy(o, b) && multiset(a) == multiset(b) && UniqueIds(a) && a != [] && b != []
    ensures a[0] == b[0]
  {
    assert a[0] in multiset(b) && b[0] in multiset(a);
    var k :| 0 <= k < |b| && b[k] == a[0];
    var i :| 0 <= i < |a| && a[i] == b[0];
    ComparatorIsTotalOrder(o, a[0], b[0], a[0]);
  }

  /** With distinct ids there is one sorted arrangement, however the sort goes about it. */
  lemma {:induction false} SortedUnique(o: OrderBy, a: seq<Row>, b: seq<Row>)
    requires SortedBy(o, a) && SortedBy(o, b) && multiset(a) == multiset(b) && UniqueIds(a)
    ensures a == b
    decreases |a|
  {
    assert |multiset(a)| == |multiset(b)|;
    if a != [] {
      LeastIsFirst(o, a, b);
      TailsMatch(a, b);
      SortedUnique(o, a[1..], b[1..]);
      assert a == [a[0]] + a[1..] && b == [b[0]] + b[1..];
    }
  }

  function InsertSorted(o: OrderBy, row: Row, rows: seq<Row>): seq<Row> {
    if rows == [] || CompareRows(o, row, rows[0]) <= 0 then [row] + rows
    else [rows[0]] + InsertSorted(o, row, rows[1..])
  }

  function SortRows(o: OrderBy, rows: seq<Row>): seq<Row> {
    if rows == [] then [] else InsertSorted(o, rows[0], SortRows(o, rows[1..]))
  }

  lemma PrependSorted(o: OrderBy, row: Row, rows: seq<Row>)
    requires SortedBy(o, rows) && forall r | r in rows :: CompareRows(o, row, r) <= 0
    ensures SortedBy(o, [row] + rows)
  {
  }

  lemma BelowFirst(o: OrderBy, row: Row, rows: seq<Row>)
    requires SortedBy(o, rows) && rows != [] && CompareRows(o, row, rows[0]) <= 0
    ensures forall r | r in rows :: CompareRows(o, row, r) <= 0
  {
    forall r | r in rows ensures CompareRows(o, row, r) <= 0 {
      var k :| 0 <= k < |rows| && rows[k] == r;
      if k > 0 {
        ComparatorIsTotalOrder(o, row, rows[0], rows[k]);
      }
    }
  }

  lemma {:induction false} InsertSortedSorts(o: OrderBy, row: Row, rows: seq<Row>)
    requires SortedBy(o, rows)
    ensures SortedBy(o, InsertSorted(o, row, rows))
    ensures multiset(InsertSorted(o, row, rows)) == multiset(rows) + multiset{row}
  {
    if rows == [] {
    } else if CompareRows(o, row, rows[0]) <= 0 {
      BelowFirst(o, row, rows);
      PrependSorted(o, row, rows);
    } else {
      assert rows == [rows[0]] + rows[1..];
      InsertSortedSorts(o, row, rows[1..]);
      var tail := InsertSorted(o, row, rows[1..]);
      forall r | r in tail ensures CompareRows(o, rows[0], r) <= 0 {
        assert r in multiset(tail);
        ComparatorIsTotalOrder(o, row, rows[0], row);
        assert r != row ==> r in rows[1..];
      }
      PrependSorted(o, rows[0], tail);
    }
  }

  lemma {:induction false} SortRowsSorts(o: OrderBy, rows: seq<Row>)
    ensures SortedBy(o, SortRows(o, rows)) && multiset(SortRows(o, rows)) == multiset(rows)
  {
    if rows != [] {
      SortRowsSorts(o, rows[1..]);
      InsertSortedSorts(o, rows[0], SortRows(o, rows[1..]));
      assert rows == [rows[0]] + rows[1..];
    }
  }

  lemma SortKeepsLength(o: OrderBy, rows: seq<Row>)
    ensures |SortRows(o, rows)| == |rows|
  {
    SortRowsSorts(o, rows);
    assert |multiset(SortRows(o, rows))| == |multiset(rows)|;
  }

  /** The listing does not depend on the order the rows were inserted in. */
  lemma SortIgnoresInsertionOrder(o: OrderBy, a: seq<Row>, b: seq<Row>)
    requires multiset(a) == multiset(b) && UniqueIds(a)
    ensures SortRows(o, a) == SortRows(o, b)
  {
    SortRowsSorts(o, a);
    SortRowsSorts(o, b);
    SameIdsDistinct(a, SortRows(o, a));
    SortedUnique(o, SortRows(o, a), SortRows(o, b));
  }

  lemma SameIdsDistinct(a: seq<Row>, b: seq<Row>)
    requires UniqueIds(a) && multiset(a) == multiset(b)
    ensures UniqueIds(b)
  {
    forall i, k | 0 <= i < k < |b| ensures b[i].id != b[k].id {
      if b[i].id == b[k].id {
        assert b[i] in multiset(b) && b[k] in multiset(b);
        assert b[i] in multiset(a) && b[k] in multiset(a);
        SameRow(a, b[i], b[k]);
        TwiceInMultiset(b, i, k);
        DistinctOnce(a, b[i]);
      }
    }
  }

  lemma TwiceInMultiset(b: seq<Row>, i: int, k: int)
    requires 0 <= i < k < |b| && b[i] == b[k]
    ensures multiset(b)[b[i]] >= 2
  {
    assert b == b[..i] + [b[i]] + b[i + 1..k] + [b[k]] + b[k + 1..];
  }

  lemma {:induction false} DistinctOnce(a: seq<Row>, row: Row)
    requires UniqueIds(a)
    ensures multiset(a)[row] <= 1
  {
    if a != [] {
      assert a == [a[0]] + a[1..];
      DistinctOnce(a[1..], row);
      assert a[0] !in a[1..];
    }
  }

  /* ----------------------------------- filtering ---------------------------------- */

  /** The rows the filter keeps, in table order. */
  function Kept(filter: Filter, rows: seq<Row>): seq<Row> {
    if rows == [] then []
    else (if MemoryKeeps(filter, rows[0].fields) then [rows[0]] else []) + Kept(filter, rows[1..])
  }

  lemma {:induction false} KeptContents(filter: Filter, rows: seq<Row>)
    ensures |Kept(filter, rows)| <= |rows|
    ensures forall r :: r in Kept(filter, rows) <==> r in rows && MemoryKeeps(filter, r.fields)
    ensures UniqueIds(rows) ==> UniqueIds(Kept(filter, rows))
  {
    if rows != [] {
      KeptContents(filter, rows[1..]);
    }
  }

  lemma {:induction false} KeptAppends(filter: Filter, a: seq<Row>, b: seq<Row>)
    ensures Kept(filter, a + b) == Kept(filter, a) + Kept(filter, b)
  {
    if a == [] {
      assert a + b == b;
    } else {
      var head := if MemoryKeeps(filter, a[0].fields) then [a[0]] else [];
      assert (a + b)[1..] == a[1..] + b;
      KeptAppends(filter, a[1..], b);
      assert Kept(filter, a + b) == head + (Kept(filter, a[1..]) + Kept(filter, b));
      assert Kept(filter, a) == head + Kept(filter, a[1..]);
    }
  }

  /** One pass per condition keeps what one pass over all of them keeps. */
  lemma {:induction false} KeptTwice(filter: Filter, f: (string, Condition), rows: seq<Row>)
    ensures Kept([f], Kept(filter, rows)) == Kept(filter + [f], rows)
  {
    if rows != [] {
      KeptTwice(filter, f, rows[1..]);
      KeptAppends([f], if MemoryKeeps(filter, rows[0].fields) then [rows[0]] else [], Kept(filter, rows[1..]));
      assert forall g | g in filter + [f] :: g in filter || g == f;
    }
  }

  lemma {:induction false} KeptAll(rows: seq<Row>)
    ensures Kept([], rows) == rows
  {
    if rows != [] {
      KeptAll(rows[1..]);
    }
  }

  method FilteredRows(table: Table, filter: Filter) returns (rows: seq<Row>)
    ensures rows == Kept(filter, table)
  {
    rows := table;
    KeptAll(table);
    for i := 0 to |filter|
      invariant rows == Kept(filter[..i], table)
    {
      KeptTwice(filter[..i], filter[i], table);
      assert filter[..i] + [filter[i]] == filter[..i + 1];
      rows := Kept([filter[i]], rows);
    }
    assert filter[..|filter|] == filter;
  }

  /* ------------------------------------ pages -------------------------------------- */

  function Slice<T>(rows: seq<T>, offset: nat, limit: nat): seq<T> {
    if offset >= |rows| then []
    else if offset + limit >= |rows| then rows[offset..]
    else rows[offset..offset + limit]
  }

  function Arranged(table: Table, filter: Filter, orderBy: Option<OrderBy>): seq<Row> {
    if orderBy.Some? then SortRows(orderBy.value, Kept(filter, table)) else Kept(filter, table)
  }

  method List(table: Table, filter: Filter, orderBy: Option<OrderBy>, limit: nat, offset: nat)
    returns (items: seq<Row>, totalCount: nat)
    ensures items == Slice(Arranged(table, filter, orderBy), offset, limit)
    ensures totalCount == |Kept(filter, table)|
  {
    var rows := FilteredRows(table, filter);
    totalCount := |rows|;
    if orderBy.Some? {
      rows := SortRows(orderBy.value, rows);
    }
    items := Slice(rows, offset, limit);
  }

  function FirstPages<T>(rows: seq<T>, limit: nat, pages: nat): seq<T> {
    if pages == 0 then [] else FirstPages(rows, limit, pages - 1) + Slice(rows, (pages - 1) * limit, limit)
  }

  /** Fixed-size pages concatenate to the whole sequence: no row twice, none missed. */
  lemma {:induction false} PagesConcatenate<T>(rows: seq<T>, limit: nat, pages: nat)
    requires limit > 0
    ensures FirstPages(rows, limit, pages) == Slice(rows, 0, pages * limit)
    ensures pages * limit >= |rows| ==> FirstPages(rows, limit, pages) == rows
  {
    if pages > 0 {
      PagesConcatenate(rows, limit, pages - 1);
      assert pages * limit == (pages - 1) * limit + limit;
      SliceJoin(rows, (pages - 1) * limit, limit);
    }
  }

  lemma SliceJoin<T>(rows: seq<T>, offset: nat, limit: nat)
    ensures Slice(rows, 0, offset) + Slice(rows, offset, limit) == Slice(rows, 0, offset + limit)
  {
  }

  const PAGE := 100
  const BY_CREATION := OrderBy("createdAt", false, true)

  /**
   * Every row of the kind, page by page, stopping at the first short page: the
   * whole table in creation order, each row exactly once.
   */
  method ListAll(table: Table) returns (all: seq<Row>)
    ensures all == SortRows(BY_CREATION, table)
    ensures multiset(all) == multiset(table) && SortedBy(OrderBy("createdAt", false, true), all)
  {
    SortRowsSorts(BY_CREATION, table);
    SortKeepsLength(BY_CREATION, table);
    KeptAll(table);
    var offset := 0;
    all := [];
    while true
      invariant offset <= |table| + PAGE
      invariant all == Slice(SortRows(BY_CREATION, table), 0, offset)
      decreases |table| + PAGE - offset
    {
      var items, total := List(table, [], Some(BY_CREATION), PAGE, offset);
      SliceJoin(SortRows(BY_CREATION, table), offset, PAGE);
      all := all + items;
      if |items| < PAGE {
        return;
      }
      offset := offset + PAGE;
    }
  }

  /* ------------------------------- counts and sums ----------------------------------- */

  /** The list filtered further to one value of a field. */
  function Group(filter: Filter, field: string, value: string): Filter {
    filter + [(field, Eq(value))]
  }

  predicate InGroup(row: Row, field: string, value: string) {
    Rendered(row.fields, field) == Some(value)
  }

  lemma KeptLast(filter: Filter, rows: seq<Row>, row: Row)
    ensures Kept(filter, rows + [row]) == Kept(filter, rows) + if MemoryKeeps(filter, row.fields) then [row] else []
  {
    KeptAppends(filter, rows, [row]);
  }

  function Members(rows: seq<Row>, field: string, value: string): seq<Row> {
    Kept([(field, Eq(value))], rows)
  }

  /** A row joins its own group and no other. */
  lemma MembersGrow(rows: seq<Row>, row: Row, field: string, value: string)
    ensures Members(rows + [row], field, value)
            == Members(rows, field, value) + if InGroup(row, field, value) then [row] else []
  {
    var f: Filter := [(field, Eq(value))];
    KeptLast(f, rows, row);
    assert MemoryKeeps(f, row.fields) <==> InGroup(row, field, value) by {
      assert f[0] in f;
    }
  }

  ghost predicate Counts(counts: map<string, nat>, values: seq<string>, rows: seq<Row>, field: string) {
    && (forall v | v in counts :: v in values && counts[v] == |Members(rows, field, v)| > 0)
    && (forall v | v in values && v !in counts :: Members(rows, field, v) == [])
  }

  function CountRow(counts: map<string, nat>, values: seq<string>, row: Row, field: string): map<string, nat> {
    var value := Rendered(row.fields, field);
    if value.Some? && value.value in values then
      counts[value.value := (if value.value in counts then counts[value.value] else 0) + 1]
    else counts
  }

  lemma CountsGrow(counts: map<string, nat>, values: seq<string>, rows: seq<Row>, row: Row, field: string)
    requires Counts(counts, values, rows, field)
    ensures Counts(CountRow(counts, values, row, field), values, rows + [row], field)
  {
    forall v ensures Members(rows + [row], field, v) == Members(rows, field, v) + if InGroup(row, field, v) then [row] else [] {
      MembersGrow(rows, row, field, v);
    }
  }

  /**
   * The count of each wanted value is the total of the list filtered to it; a
   * value without rows has no entry.
   */
  method CountBy(table: Table, field: string, values: seq<string>, filter: Filter) returns (counts: map<string, nat>)
    ensures forall v | v in counts :: v in values && counts[v] == |Kept(Group(filter, field, v), table)| > 0
    ensures forall v | v in values && v !in counts :: Kept(Group(filter, field, v), table) == []
  {
    counts := map[];
    var rows := FilteredRows(table, filter);
    for i := 0 to |rows|
      invariant Counts(counts, values, rows[..i], field)
    {
      CountsGrow(counts, values, rows[..i], rows[i], field);
      assert rows[..i] + [rows[i]] == rows[..i + 1];
      counts := CountRow(counts, values, rows[i], field);
    }
    assert rows[..|rows|] == rows;
    GroupsOfList(table, filter, field);
  }

  lemma GroupsOfList(table: Table, filter: Filter, field: string)
    ensures forall v :: Members(Kept(filter, table), field, v) == Kept(Group(filter, field, v), table)
  {
    forall v ensures Members(Kept(filter, table), field, v) == Kept(Group(filter, field, v), table) {
      KeptTwice(filter, (field, Eq(v)), table);
    }
  }

  /* ------------------------------------- sums ----------------------------------------- */

  predicate IsDigits(text: string) {
    forall i | 0 <= i < |text| :: '0' <= text[i] <= '9'
  }

  predicate IsInteger(text: string) {
    if text != "" && text[0] == '-' then |text| > 1 && IsDigits(text[1..]) else text != "" && IsDigits(text)
  }

  function DigitsOf(text: string): nat
    requires IsDigits(text)
  {
    if text == "" then 0 else DigitsOf(text[..|text| - 1]) * 10 + (text[|text| - 1] - '0') as nat
  }

  function IntegerOf(text: string): int
    requires IsInteger(text)
  {
    if text[0] == '-' then 0 - DigitsOf(text[1..]) else DigitsOf(text)
  }

  /** What counts as an integer: one or more digits, with or without a minus before them. */
  lemma IsIntegerIff(text: string)
    ensures IsInteger(text) <==>
            || (text != "" && forall i | 0 <= i < |text| :: text[i] in "0123456789")
            || (|text| > 1 && text[0] == '-' && forall i | 1 <= i < |text| :: text[i] in "0123456789")
  {
    if text != "" && text[0] == '-' {
      assert forall i | 1 <= i < |text| :: text[i] == text[1..][i - 1];
    }
    assert forall c: char :: c in "0123456789" <==> '0' <= c <= '9';
  }

  function Printed(n: nat): string {
    if n < 10 then [Digit(n)] else Printed(n / 10) + [Digit(n % 10)]
  }

  function Digit(n: nat): char
    requires n < 10
  {
    "0123456789"[n]
  }

  lemma DigitIs(n: nat)
    requires n < 10
    ensures '0' <= Digit(n) <= '9' && (Digit(n) - '0') as nat == n
  {
  }

  lemma OneMoreDigit(text: string, n: nat)
    requires IsDigits(text) && n < 10
    ensures IsDigits(text + [Digit(n)]) && DigitsOf(text + [Digit(n)]) == DigitsOf(text) * 10 + n
  {
    DigitIs(n);
    assert (text + [Digit(n)])[..|text|] == text;
  }

  lemma {:induction false} DigitsOfPrinted(n: nat)
    ensures IsDigits(Printed(n)) && Printed(n) != "" && DigitsOf(Printed(n)) == n
  {
    if n < 10 {
      OneMoreDigit("", n);
      assert "" + [Digit(n)] == [Digit(n)];
    } else {
      DigitsOfPrinted(n / 10);
      OneMoreDigit(Printed(n / 10), n % 10);
    }
  }

  /** A printed integer, of either sign, is read as the integer it prints. */
  lemma IntegerOfPrinted(n: nat)
    ensures IsInteger(Printed(n)) && IntegerOf(Printed(n)) == n
    ensures IsInteger("-" + Printed(n)) && IntegerOf("-" + Printed(n)) + n == 0
  {
    DigitsOfPrinted(n);
    assert Printed(n)[0] != '-';
    assert ("-" + Printed(n))[1..] == Printed(n);
  }

  /** The rows that carry a value; only these contribute to a sum. */
  function Carrying(rows: seq<Row>, valueField: string): seq<Row> {
    if rows == [] then []
    else Carrying(rows[..|rows| - 1], valueField)
         + if Rendered(rows[|rows| - 1].fields, valueField).Some? then [rows[|rows| - 1]] else []
  }

  predicate Summable(rows: seq<Row>, valueField: string) {
    forall r | r in rows :: Rendered(r.fields, valueField).Some? ==> IsInteger(Rendered(r.fields, valueField).value)
  }

  function Total(rows: seq<Row>, valueField: string): int
    requires Summable(rows, valueField)
  {
    if rows == [] then 0
    else
      var last := Rendered(rows[|rows| - 1].fields, valueField);
      Total(rows[..|rows| - 1], valueField) + if last.Some? then IntegerOf(last.value) else 0
  }

  lemma TotalGrows(rows: seq<Row>, row: Row, valueField: string)
    requires Summable(rows + [row], valueField)
    ensures Summable(rows, valueField)
    ensures var last := Rendered(row.fields, valueField);
            && Total(rows + [row], valueField) == Total(rows, valueField) + (if last.Some? then IntegerOf(last.value) else 0)
            && Carrying(rows + [row], valueField) == Carrying(rows, valueField) + if last.Some? then [row] else []
  {
  }

  ghost predicate Sums(sums: map<string, int>, values: seq<string>, rows: seq<Row>, groupField: string, valueField: string) {
    && (forall v | v in values :: Summable(Members(rows, groupField, v), valueField))
    && (forall v | v in sums ::
          v in values && Carrying(Members(rows, groupField, v), valueField) != []
          && sums[v] == Total(Members(rows, groupField, v), valueField))
    && (forall v | v in values && v !in sums :: Carrying(Members(rows, groupField, v), valueField) == [])
  }

  /** The row is of some group and carries an integer. */
  predicate Adds(row: Row, groupField: string, valueField: string) {
    && Rendered(row.fields, groupField).Some?
    && Rendered(row.fields, valueField).Some? && IsInteger(Rendered(row.fields, valueField).value)
  }

  predicate Wanted(row: Row, values: seq<string>, groupField: string, valueField: string) {
    && Rendered(row.fields, groupField).Some? && Rendered(row.fields, groupField).value in values
    && Rendered(row.fields, valueField).Some?
  }

  function SumRow(sums: map<string, int>, row: Row, groupField: string, valueField: string): map<string, int>
    requires Adds(row, groupField, valueField)
  {
    var group := Rendered(row.fields, groupField).value;
    sums[group := (if group in sums then sums[group] else 0) + IntegerOf(Rendered(row.fields, valueField).value)]
  }

  lemma NoCarrierNoTotal(rows: seq<Row>, valueField: string)
    requires Summable(rows, valueField) && Carrying(rows, valueField) == []
    ensures Total(rows, valueField) == 0
  {
  }

  lemma GroupSumGrows(sums: map<string, int>, values: seq<string>, rows: seq<Row>, row: Row, groupField: string, valueField: string, v: string)
    requires Sums(sums, values, rows, groupField, valueField) && v in values
    requires InGroup(row, groupField, v) && Adds(row, groupField, valueField)
    ensures var grown := Members(rows + [row], groupField, v);
            && Summable(grown, valueField) && Carrying(grown, valueField) != []
            && SumRow(sums, row, groupField, valueField)[v] == Total(grown, valueField)
  {
    var members := Members(rows, groupField, v);
    MembersGrow(rows, row, groupField, v);
    assert Summable(members + [row], valueField);
    TotalGrows(members, row, valueField);
    if v !in sums {
      NoCarrierNoTotal(members, valueField);
    }
  }

  lemma SumsGrow(sums: map<string, int>, values: seq<string>, rows: seq<Row>, row: Row, groupField: string, valueField: string)
    requires Sums(sums, values, rows, groupField, valueField)
    requires Wanted(row, values, groupField, valueField) && Adds(row, groupField, valueField)
    ensures Sums(SumRow(sums, row, groupField, valueField), values, rows + [row], groupField, valueField)
  {
    var own := Rendered(row.fields, groupField).value;
    GroupSumGrows(sums, values, rows, row, groupField, valueField, own);
    forall v | v != own ensures Members(rows + [row], groupField, v) == Members(rows, groupField, v) {
      MembersGrow(rows, row, groupField, v);
    }
  }

  /** A row of no wanted group, or without a value, changes no sum. */
  lemma SumsSkip(sums: map<string, int>, values: seq<string>, rows: seq<Row>, row: Row, groupField: string, valueField: string)
    requires Sums(sums, values, rows, groupField, valueField)
    requires !Wanted(row, values, groupField, valueField)
    ensures Sums(sums, values, rows + [row], groupField, valueField)
  {
    forall v | v in values
      ensures var grown := Members(rows + [row], groupField, v);
              && Summable(grown, valueField)
              && Total(grown, valueField) == Total(Members(rows, groupField, v), valueField)
              && Carrying(grown, valueField) == Carrying(Members(rows, groupField, v), valueField)
    {
      MembersGrow(rows, row, groupField, v);
      if InGroup(row, groupField, v) {
        assert Summable(Members(rows, groupField, v) + [row], valueField);
        TotalGrows(Members(rows, groupField, v), row, valueField);
      } else {
        assert Members(rows + [row], groupField, v) == Members(rows, groupField, v);
      }
    }
  }

  /** The sums over the groups of a list are the totals of the lists filtered to each group. */
  lemma SumsAreListTotals(sums: map<string, int>, values: seq<string>, table: Table, filter: Filter,
                          groupField: string, valueField: string, v: string)
    requires Sums(sums, values, Kept(filter, table), groupField, valueField) && v in values
    ensures var group := Kept(Group(filter, groupField, v), table);
            && Summable(group, valueField)
            && (v in sums <==> Carrying(group, valueField) != [])
            && (v in sums ==> sums[v] == Total(group, valueField))
  {
    KeptTwice(filter, (groupField, Eq(v)), table);
    assert Members(Kept(filter, table), groupField, v) == Kept(Group(filter, groupField, v), table);
  }

  /**
   * The sum of each wanted group is the total over its rows; a group whose rows
   * carry no value has no entry, and a value that is no integer is an error.
   */
  method SumBy(table: Table, groupField: string, valueField: string, values: seq<string>, filter: Filter)
    returns (r: Result<map<string, int>, string>)
    ensures r.Ok? ==> Sums(r.value, values, Kept(filter, table), groupField, valueField)
    ensures r.Err? ==> exists v :: v in values && !Summable(Members(Kept(filter, table), groupField, v), valueField)
  {
    var rows := FilteredRows(table, filter);
    r := SumRows(rows, groupField, valueField, values);
  }

  method SumRows(rows: seq<Row>, groupField: string, valueField: string, values: seq<string>)
    returns (r: Result<map<string, int>, string>)
    ensures r.Ok? ==> Sums(r.value, values, rows, groupField, valueField)
    ensures r.Err? ==> exists v :: v in values && !Summable(Members(rows, groupField, v), valueField)
  {
    var sums := map[];
    for i := 0 to |rows|
      invariant Sums(sums, values, rows[..i], groupField, valueField)
    {
      assert rows[..i] + [rows[i]] == rows[..i + 1];
      if !Wanted(rows[i], values, groupField, valueField) {
        SumsSkip(sums, values, rows[..i], rows[i], groupField, valueField);
      } else if !Adds(rows[i], groupField, valueField) {
        BadValueFound(rows, i, groupField, valueField);
        return Err("value is not an integer");
      } else {
        SumsGrow(sums, values, rows[..i], rows[i], groupField, valueField);
        sums := SumRow(sums, rows[i], groupField, valueField);
      }
    }
    assert rows[..|rows|] == rows;
    r := Ok(sums);
  }

  lemma BadValueFound(rows: seq<Row>, i: nat, groupField: string, valueField: string)
    requires i < |rows| && Rendered(rows[i].fields, groupField).Some? && Rendered(rows[i].fields, valueField).Some?
    requires !Adds(rows[i], groupField, valueField)
    ensures !Summable(Members(rows, groupField, Rendered(rows[i].fields, groupField).value), valueField)
  {
    MemberOfGroup(rows, i, groupField, Rendered(rows[i].fields, groupField).value);
  }

  lemma MemberOfGroup(rows: seq<Row>, i: nat, field: string, value: string)
    requires i < |rows| && InGroup(rows[i], field, value)
    ensures rows[i] in Members(rows, field, value)
  {
    var f: Filter := [(field, Eq(value))];
    KeptContents(f, rows);
  }
}
