/**
 * The filter vocabulary and its two adapters (packages/resource-api/src): the
 * normal form of a filter value (store/store.ts), what the in-memory store keeps
 * (store/memory-store.ts), and the conditions with numbered placeholders the
 * Postgres store renders (postgres/store.ts), evaluated in SQL's three-valued
 * logic.
 */
module Filters {
  import opened Wrappers
  import opened TextOrder
  import opened Like

  datatype Comparator = Gte | Gt | Lte | Lt

  datatype RangeBound = RangeBound(cmp: Comparator, value: string)

  datatype Condition = Eq(value: string) | In(values: seq<string>) | Range(bounds: seq<RangeBound>) | Absent

  /** A key of a filter object: not there, there without a value, or there with one. */
  datatype Entry = Missing | Undefined | Given(value: string)

  /** What a caller may pass: a text, or an object with any keys. */
  datatype FilterValue =
    | Text(text: string)
    | Shape(inValues: Option<seq<string>>, absent: Option<bool>, bound: Comparator -> Entry, otherKeys: nat)

  const COMPARATORS: seq<Comparator> := [Gte, Gt, Lte, Lt]

  predicate Compare(cmp: Comparator, actual: string, value: string) {
    match cmp
    case Gte => TextLe(value, actual)
    case Gt => TextLt(value, actual)
    case Lte => TextLe(actual, value)
    case Lt => TextLt(actual, value)
  }

  /** The strict comparators leave equal texts out and the others keep them; each has its opposite. */
  lemma CompareIff(actual: string, value: string)
    ensures Compare(Gt, actual, value) <==> TextLe(value, actual) && actual != value
    ensures Compare(Lt, actual, value) <==> TextLe(actual, value) && actual != value
    ensures Compare(Gte, actual, value) <==> !Compare(Lt, actual, value)
    ensures Compare(Lte, actual, value) <==> !Compare(Gt, actual, value)
  {
    TextLeTotal(actual, value);
  }

  /* --------------------------------- normal form --------------------------------- */

  /** One condition shape and nothing beside it. */
  predicate WellFormedFilter(v: FilterValue) {
    match v
    case Text(_) => true
    case Shape(inValues, absent, bound, otherKeys) =>
      var bounds := exists c :: bound(c).Given?;
      var present := exists c :: !bound(c).Missing?;
      && otherKeys == 0
      && (inValues.Some? ==> absent.None? && !present)
      && (absent.Some? ==> absent == Some(true) && inValues.None? && !present)
      && (inValues.None? && absent.None? ==> bounds && forall c :: !bound(c).Undefined?)
  }

  /** What the caller means by it, for a field's value or its absence. */
  predicate Means(v: FilterValue, actual: Option<string>) {
    match v
    case Text(text) => actual == Some(text)
    case Shape(inValues, absent, bound, _) =>
      if inValues.Some? then actual.Some? && actual.value in inValues.value
      else if absent.Some? then actual.None?
      else actual.Some? && forall c :: bound(c).Given? ==> Compare(c, actual.value, bound(c).value)
  }

  /** One condition against one rendered value, as the in-memory store evaluates it. */
  predicate Matches(c: Condition, actual: Option<string>) {
    match c
    case Eq(value) => actual == Some(value)
    case In(values) => actual.Some? && actual.value in values
    case Range(bounds) => actual.Some? && forall b | b in bounds :: Compare(b.cmp, actual.value, b.value)
    case Absent => actual.None?
  }

  function KeyCount(bound: Comparator -> Entry): nat {
    (if bound(Gte).Missing? then 0 else 1) + (if bound(Gt).Missing? then 0 else 1)
    + (if bound(Lte).Missing? then 0 else 1) + (if bound(Lt).Missing? then 0 else 1)
  }

  function GivenCount(bound: Comparator -> Entry): nat {
    (if bound(Gte).Given? then 1 else 0) + (if bound(Gt).Given? then 1 else 0)
    + (if bound(Lte).Given? then 1 else 0) + (if bound(Lt).Given? then 1 else 0)
  }

  lemma CountsIff(bound: Comparator -> Entry)
    ensures KeyCount(bound) == 0 <==> forall c :: bound(c).Missing?
    ensures GivenCount(bound) == 0 <==> forall c :: !bound(c).Given?
    ensures GivenCount(bound) <= KeyCount(bound)
    ensures GivenCount(bound) == KeyCount(bound) <==> forall c :: !bound(c).Undefined?
  {
    forall c
      ensures KeyCount(bound) == 0 ==> bound(c).Missing?
      ensures GivenCount(bound) == 0 ==> !bound(c).Given?
      ensures GivenCount(bound) == KeyCount(bound) ==> !bound(c).Undefined?
    {
      match c
      case Gte =>
      case Gt =>
      case Lte =>
      case Lt =>
    }
  }

  /** A value is accepted exactly when it is well formed, and then keeps its meaning. */
  method NormalizeFilterValue(v: FilterValue) returns (r: Result<Condition, string>)
    ensures r.Ok? <==> WellFormedFilter(v)
    ensures r.Ok? ==> forall actual :: Matches(r.value, actual) <==> Means(v, actual)
    ensures r.Ok? && r.value.Range? ==> r.value.bounds != []
  {
    if v.Text? {
      return Ok(Eq(v.text));
    }
    var bound := v.bound;
    CountsIff(bound);
    var keys := v.otherKeys + KeyCount(bound)
      + (if v.inValues.Some? then 1 else 0) + (if v.absent.Some? then 1 else 0);
    if v.inValues.Some? {
      if keys != 1 {
        return Err("mixes 'in' with other conditions");
      }
      return Ok(In(v.inValues.value));
    }
    if v.absent.Some? {
      if keys != 1 || v.absent != Some(true) {
        return Err("misuses 'absent'");
      }
      return Ok(Absent);
    }
    var bounds: seq<RangeBound> := [];
    for i := 0 to 4
      invariant |bounds| <= i
      invariant forall b | b in bounds :: bound(b.cmp) == Given(b.value)
      invariant forall k | 0 <= k < i :: bound(COMPARATORS[k]).Given? ==>
                  RangeBound(COMPARATORS[k], bound(COMPARATORS[k]).value) in bounds
      invariant |bounds| == (if i > 0 && bound(Gte).Given? then 1 else 0) + (if i > 1 && bound(Gt).Given? then 1 else 0)
                            + (if i > 2 && bound(Lte).Given? then 1 else 0) + (if i > 3 && bound(Lt).Given? then 1 else 0)
    {
      var cmp := COMPARATORS[i];
      if bound(cmp).Given? {
        bounds := bounds + [RangeBound(cmp, bound(cmp).value)];
      }
    }
    assert |bounds| == GivenCount(bound);
    if |bounds| == 0 || |bounds| != keys {
      return Err("is not a valid range");
    }
    r := Ok(Range(bounds));
    RangeMeans(bounds, v);
  }

  lemma RangeMeans(bounds: seq<RangeBound>, v: FilterValue)
    requires v.Shape? && v.inValues.None? && v.absent.None?
    requires forall b | b in bounds :: v.bound(b.cmp) == Given(b.value)
    requires forall k | 0 <= k < 4 :: v.bound(COMPARATORS[k]).Given? ==>
               RangeBound(COMPARATORS[k], v.bound(COMPARATORS[k]).value) in bounds
    ensures forall actual :: Matches(Range(bounds), actual) <==> Means(v, actual)
  {
    forall c: Comparator | v.bound(c).Given? ensures RangeBound(c, v.bound(c).value) in bounds {
      match c
      case Gte => assert COMPARATORS[0] == c;
      case Gt => assert COMPARATORS[1] == c;
      case Lte => assert COMPARATORS[2] == c;
      case Lt => assert COMPARATORS[3] == c;
    }
  }

  /* ------------------------------------ rows ------------------------------------- */

  /** A stored row's text columns; a column not in the map is NULL. */
  type StoredRow = map<string, string>

  type Filter = seq<(string, Condition)>

  function Column(row: StoredRow, column: string): Option<string> {
    if column in row then Some(row[column]) else None
  }

  /** How the in-memory store reads a field: an empty text is an absent one. */
  function Rendered(row: StoredRow, field: string): Option<string> {
    if Column(row, field) == Some("") then None else Column(row, field)
  }

  predicate ColumnsMatch(filter: Filter, row: StoredRow) {
    forall f | f in filter :: Matches(f.1, Column(row, f.0))
  }

  predicate MemoryKeeps(filter: Filter, row: StoredRow) {
    forall f | f in filter :: Matches(f.1, Rendered(row, f.0))
  }

  /** The condition tells a stored empty text from an absent one. */
  predicate SeesEmpty(c: Condition) {
    match c
    case Eq(value) => value == ""
    case In(values) => "" in values
    case Range(bounds) => forall b | b in bounds :: Compare(b.cmp, "", b.value)
    case Absent => true
  }

  /** One condition means the same to both stores exactly when the text is not empty or cannot be told from absent. */
  lemma ConditionAgreesIff(c: Condition, row: StoredRow, field: string)
    ensures (Matches(c, Rendered(row, field)) <==> Matches(c, Column(row, field))) <==>
            Column(row, field) != Some("") || !SeesEmpty(c)
  {
  }

  /** What each condition keeps, by the row's own texts: a condition of its own, and several together. */
  lemma KeptIff(row: StoredRow, field: string, value: string, values: seq<string>, bounds: seq<RangeBound>,
                filter: Filter, more: Filter)
    ensures MemoryKeeps([(field, Eq(value))], row) <==> field in row && row[field] == value && value != ""
    ensures MemoryKeeps([(field, In(values))], row) <==> field in row && row[field] in values && row[field] != ""
    ensures MemoryKeeps([(field, Absent)], row) <==> field !in row || row[field] == ""
    ensures MemoryKeeps([(field, Range(bounds))], row) <==>
            field in row && row[field] != "" && forall b | b in bounds :: Compare(b.cmp, row[field], b.value)
    ensures ColumnsMatch([(field, Eq(value))], row) <==> field in row && row[field] == value
    ensures ColumnsMatch([(field, In(values))], row) <==> field in row && row[field] in values
    ensures ColumnsMatch([(field, Absent)], row) <==> field !in row
    ensures ColumnsMatch([(field, Range(bounds))], row) <==>
            field in row && forall b | b in bounds :: Compare(b.cmp, row[field], b.value)
    ensures MemoryKeeps(filter + more, row) <==> MemoryKeeps(filter, row) && MemoryKeeps(more, row)
    ensures ColumnsMatch(filter + more, row) <==> ColumnsMatch(filter, row) && ColumnsMatch(more, row)
  {
    OneConditionKept(row, field, Eq(value));
    OneConditionKept(row, field, In(values));
    OneConditionKept(row, field, Absent);
    OneConditionKept(row, field, Range(bounds));
  }

  lemma OneConditionKept(row: StoredRow, field: string, c: Condition)
    ensures MemoryKeeps([(field, c)], row) <==> Matches(c, Rendered(row, field))
    ensures ColumnsMatch([(field, c)], row) <==> Matches(c, Column(row, field))
  {
    assert (field, c) in [(field, c)];
  }

  /** On rows whose texts are not empty, the two stores keep the same rows for every filter. */
  lemma AdaptersAgree(filter: Filter, row: StoredRow)
    requires forall column | column in row :: row[column] != ""
    ensures MemoryKeeps(filter, row) <==> ColumnsMatch(filter, row)
  {
    forall f | f in filter ensures Matches(f.1, Rendered(row, f.0)) <==> Matches(f.1, Column(row, f.0)) {
      ConditionAgreesIff(f.1, row, f.0);
    }
  }

  /* ------------------------------- SQL conditions --------------------------------- */

  datatype Truth = Yes | No | Unknown

  datatype Param = TextParam(text: string) | ListParam(texts: seq<string>) | NumberParam(number: int)

  /** A condition on a column; `n` is its placeholder's number, counted from one. */
  datatype Sql =
    | Equals(column: string, n: nat)
    | Compares(column: string, cmp: Comparator, n: nat)
    | AnyOf(column: string, n: nat)
    | ILike(column: string, n: nat)
    | IsNull(column: string)

  /** The placeholder names a bound value of the kind the condition needs. */
  predicate Resolves(c: Sql, params: seq<Param>) {
    c.IsNull? || (1 <= c.n <= |params| && if c.AnyOf? then params[c.n - 1].ListParam? else params[c.n - 1].TextParam?)
  }

  function Decided(b: bool): Truth {
    if b then Yes else No
  }

  /** Comparisons with NULL are unknown; nothing is in an empty list, not even NULL. */
  function Eval(fold: char -> char, c: Sql, row: StoredRow, params: seq<Param>): Truth
    requires Resolves(c, params)
  {
    var actual := Column(row, c.column);
    if c.IsNull? then Decided(actual.None?)
    else
      var p := params[c.n - 1];
      if c.AnyOf? && p.texts == [] then No
      else if actual.None? then Unknown
      else
        match c
        case Equals(_, _) => Decided(actual.value == p.text)
        case Compares(_, cmp, _) => Decided(Compare(cmp, actual.value, p.text))
        case AnyOf(_, _) => Decided(actual.value in p.texts)
        case ILike(_, _) => Decided(ILikeMatches(fold, p.text, actual.value))
  }

  function And(a: Truth, b: Truth): Truth {
    if a == No || b == No then No else if a == Unknown || b == Unknown then Unknown else Yes
  }

  predicate AllResolve(where: seq<Sql>, params: seq<Param>) {
    forall c | c in where :: Resolves(c, params)
  }

  function Conjunction(fold: char -> char, where: seq<Sql>, row: StoredRow, params: seq<Param>): Truth
    requires AllResolve(where, params)
  {
    if where == [] then Yes
    else And(Eval(fold, where[0], row, params), Conjunction(fold, where[1..], row, params))
  }

  /** A WHERE clause keeps the rows for which it is true, not those for which it is unknown. */
  predicate Keeps(fold: char -> char, where: seq<Sql>, row: StoredRow, params: seq<Param>)
    requires AllResolve(where, params)
  {
    Conjunction(fold, where, row, params) == Yes
  }

  lemma {:induction false} KeepsIff(fold: char -> char, where: seq<Sql>, row: StoredRow, params: seq<Param>)
    requires AllResolve(where, params)
    ensures Keeps(fold, where, row, params) <==> forall c | c in where :: Eval(fold, c, row, params) == Yes
  {
    if where != [] {
      KeepsIff(fold, where[1..], row, params);
      assert where == [where[0]] + where[1..];
    }
  }

  /** Parameters bound later change no condition's value. */
  lemma KeepsStays(fold: char -> char, where: seq<Sql>, row: StoredRow, params: seq<Param>, longer: seq<Param>)
    requires AllResolve(where, params) && params <= longer
    ensures AllResolve(where, longer)
    ensures Keeps(fold, where, row, params) <==> Keeps(fold, where, row, longer)
  {
    KeepsIff(fold, where, row, params);
    KeepsIff(fold, where, row, longer);
  }

  lemma KeepsBoth(fold: char -> char, a: seq<Sql>, b: seq<Sql>, row: StoredRow, params: seq<Param>)
    requires AllResolve(a, params) && AllResolve(b, params)
    ensures AllResolve(a + b, params)
    ensures Keeps(fold, a + b, row, params) <==> Keeps(fold, a, row, params) && Keeps(fold, b, row, params)
  {
    KeepsIff(fold, a, row, params);
    KeepsIff(fold, b, row, params);
    KeepsIff(fold, a + b, row, params);
  }

  /* --------------------------------- the compiler --------------------------------- */

  /** What a rendered filter promises under every reading of its parameters that extends them. */
  ghost predicate Renders(where: seq<Sql>, params: seq<Param>, filter: Filter) {
    && AllResolve(where, params)
    && forall fold: char -> char, row: StoredRow ::
         Keeps(fold, where, row, params) <==> ColumnsMatch(filter, row)
  }

  /** The conditions of one field, appended to those before it. */
  lemma RendersNext(where: seq<Sql>, params: seq<Param>, filter: Filter,
                    more: seq<Sql>, longer: seq<Param>, f: (string, Condition))
    requires Renders(where, params, filter) && params <= longer && AllResolve(more, longer)
    requires forall fold: char -> char, row: StoredRow ::
               Keeps(fold, more, row, longer) <==> Matches(f.1, Column(row, f.0))
    ensures Renders(where + more, longer, filter + [f])
  {
    KeepsStays(c => c, where, map[], params, longer);
    forall fold: char -> char, row: StoredRow
      ensures AllResolve(where + more, longer)
      ensures Keeps(fold, where + more, row, longer) <==> ColumnsMatch(filter + [f], row)
    {
      KeepsStays(fold, where, row, params, longer);
      KeepsBoth(fold, where, more, row, longer);
      assert forall g | g in filter + [f] :: g in filter || g == f;
    }
  }

  /** A range renders one condition per bound, each on its own placeholder. */
  method RenderRange(column: string, bounds: seq<RangeBound>, params: seq<Param>)
    returns (where: seq<Sql>, longer: seq<Param>)
    requires bounds != []
    ensures params <= longer && AllResolve(where, longer)
    ensures forall fold: char -> char, row: StoredRow ::
              Keeps(fold, where, row, longer) <==> Matches(Range(bounds), Column(row, column))
  {
    where, longer := [], params;
    for i := 0 to |bounds|
      invariant |where| == i && |longer| == |params| + i && params <= longer
      invariant forall k | 0 <= k < i ::
                  where[k] == Compares(column, bounds[k].cmp, |params| + k + 1)
                  && longer[|params| + k] == TextParam(bounds[k].value)
    {
      longer := longer + [TextParam(bounds[i].value)];
      where := where + [Compares(column, bounds[i].cmp, |longer|)];
    }
    forall c | c in where ensures Resolves(c, longer) {
      var k :| 0 <= k < |where| && where[k] == c;
    }
    forall fold: char -> char, row: StoredRow
      ensures Keeps(fold, where, row, longer) <==> Matches(Range(bounds), Column(row, column))
    {
      KeepsIff(fold, where, row, longer);
      var actual := Column(row, column);
      assert forall k | 0 <= k < |bounds| ::
        Eval(fold, where[k], row, longer) == Yes <==> actual.Some? && Compare(bounds[k].cmp, actual.value, bounds[k].value);
      assert forall c | c in where :: exists k :: 0 <= k < |where| && where[k] == c;
      assert where[0] in where;
    }
  }

  /** One field's conditions with their parameters appended. */
  method RenderCondition(column: string, c: Condition, params: seq<Param>)
    returns (where: seq<Sql>, longer: seq<Param>)
    requires c.Range? ==> c.bounds != []
    ensures params <= longer && AllResolve(where, longer)
    ensures forall fold: char -> char, row: StoredRow ::
              Keeps(fold, where, row, longer) <==> Matches(c, Column(row, column))
  {
    match c {
      case Eq(value) =>
        longer := params + [TextParam(value)];
        where := [Equals(column, |longer|)];
      case In(values) =>
        longer := params + [ListParam(values)];
        where := [AnyOf(column, |longer|)];
      case Range(bounds) =>
        where, longer := RenderRange(column, bounds, params);
        return;
      case Absent =>
        longer := params;
        where := [IsNull(column)];
    }
    forall fold: char -> char, row: StoredRow
      ensures Keeps(fold, where, row, longer) <==> Matches(c, Column(row, column))
    {
      KeepsIff(fold, where, row, longer);
      assert where[0] in where;
    }
  }

  predicate RangesBounded(filter: Filter) {
    forall f | f in filter :: f.1.Range? ==> f.1.bounds != []
  }

  /**
   * The whole filter after whatever parameters are bound already: every placeholder
   * resolves, and the conditions together keep exactly the rows the filter matches.
   */
  method FilterConditions(filter: Filter, params: seq<Param>) returns (where: seq<Sql>, longer: seq<Param>)
    requires RangesBounded(filter)
    ensures params <= longer && Renders(where, longer, filter)
  {
    where, longer := [], params;
    for i := 0 to |filter|
      invariant params <= longer && Renders(where, longer, filter[..i])
    {
      var more, grown := RenderCondition(filter[i].0, filter[i].1, longer);
      RendersNext(where, longer, filter[..i], more, grown, filter[i]);
      assert filter[..i] + [filter[i]] == filter[..i + 1];
      where, longer := where + more, grown;
    }
    assert filter[..|filter|] == filter;
  }

  /* ------------------------------- the statements ---------------------------------- */

  /**
   * `list`: the page and its count keep the same rows, the filter's; limit and
   * offset sit on their own placeholders, which the count leaves out.
   */
  method List(filter: Filter, limit: int, offset: int)
    returns (where: seq<Sql>, params: seq<Param>, limitAt: nat, offsetAt: nat, countParams: seq<Param>)
    requires RangesBounded(filter)
    ensures Renders(where, params, filter) && Renders(where, countParams, filter)
    ensures 1 <= limitAt <= |params| && params[limitAt - 1] == NumberParam(limit)
    ensures 1 <= offsetAt <= |params| && params[offsetAt - 1] == NumberParam(offset)
    ensures forall c | c in where :: !c.IsNull? ==> c.n != limitAt && c.n != offsetAt
  {
    where, countParams := FilterConditions(filter, []);
    params := countParams + [NumberParam(limit), NumberParam(offset)];
    limitAt, offsetAt := |params| - 1, |params|;
    RendersStays(where, countParams, params, filter);
    assert params[..|params| - 2] == countParams;
  }

  lemma RendersStays(where: seq<Sql>, params: seq<Param>, longer: seq<Param>, filter: Filter)
    requires Renders(where, params, filter) && params <= longer
    ensures Renders(where, longer, filter)
  {
    forall fold: char -> char, row: StoredRow
      ensures AllResolve(where, longer) && (Keeps(fold, where, row, longer) <==> ColumnsMatch(filter, row))
    {
      KeepsStays(fold, where, row, params, longer);
    }
    assert AllResolve(where, longer);
  }

  /** The WHERE shared by `countBy` and `sumBy`: the wanted groups, then the filter. */
  method Grouped(column: string, values: seq<string>, filter: Filter)
    returns (where: seq<Sql>, params: seq<Param>)
    requires RangesBounded(filter)
    ensures AllResolve(where, params) && 1 <= |params| && params[0] == ListParam(values)
    ensures forall fold: char -> char, row: StoredRow ::
              Keeps(fold, where, row, params) <==>
              Column(row, column).Some? && Column(row, column).value in values && ColumnsMatch(filter, row)
  {
    var rest: seq<Sql>;
    rest, params := FilterConditions(filter, [ListParam(values)]);
    assert params[0] == ListParam(values);
    where := [AnyOf(column, 1)] + rest;
    forall fold: char -> char, row: StoredRow
      ensures AllResolve(where, params)
      ensures Keeps(fold, where, row, params) <==>
              Column(row, column).Some? && Column(row, column).value in values && ColumnsMatch(filter, row)
    {
      KeepsBoth(fold, [AnyOf(column, 1)], rest, row, params);
      KeepsIff(fold, [AnyOf(column, 1)], row, params);
    }
  }

  /**
   * `searchText`: keeps the rows of the filter whose text contains the query with
   * case folded, wildcards of the query included; refuses an empty query.
   */
  method SearchText(column: string, query: string, limit: int, filter: Filter)
    returns (r: Result<(seq<Sql>, seq<Param>, nat), string>)
    requires RangesBounded(filter)
    ensures r.Err? <==> query == ""
    ensures r.Ok? ==>
              var (where, params, limitAt) := r.value;
              && AllResolve(where, params)
              && 1 <= limitAt <= |params| && params[limitAt - 1] == NumberParam(if limit < 0 then 0 else limit)
              && forall fold: char -> char, row: StoredRow | FoldsApart(fold) ::
                   Keeps(fold, where, row, params) <==>
                   && Column(row, column).Some?
                   && Contains(Fold(fold, Column(row, column).value), Fold(fold, query))
                   && ColumnsMatch(filter, row)
  {
    if query == "" {
      return Err("query must not be empty");
    }
    var rest, bound := FilterConditions(filter, [TextParam(SearchPattern(query))]);
    var where := [ILike(column, 1)] + rest;
    var params := bound + [NumberParam(if limit < 0 then 0 else limit)];
    assert params[0] == TextParam(SearchPattern(query));
    RendersStays(rest, bound, params, filter);
    forall fold: char -> char, row: StoredRow | FoldsApart(fold)
      ensures AllResolve(where, params)
      ensures Keeps(fold, where, row, params) <==>
              && Column(row, column).Some?
              && Contains(Fold(fold, Column(row, column).value), Fold(fold, query))
              && ColumnsMatch(filter, row)
    {
      KeepsBoth(fold, [ILike(column, 1)], rest, row, params);
      KeepsIff(fold, [ILike(column, 1)], row, params);
      if Column(row, column).Some? {
        SearchesAgree(fold, query, Column(row, column).value);
      }
    }
    KeepsBoth(c => c, [ILike(column, 1)], rest, map[], params);
    r := Ok((where, params, |params|));
  }
}
