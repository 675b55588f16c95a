/**
 * Comparing authorization models up to padding (packages/authorization/src/
 * bootstrap.ts): a JSON value is normalised by dropping insignificant fields from
 * the bottom up and sorting keys; arrays keep every element in place.
 */
module ModelNormal {
  import opened TextOrder

  datatype Json =
    | Undefined
    | Null
    | Bool(b: bool)
    | Number(n: int)
    | Text(text: string)
    | Arr(items: seq<Json>)
    | Obj(fields: seq<Field>)

  datatype Field = Field(key: string, value: Json)

  /** Keys are unique in every object, as in any parsed one. */
  predicate WellFormed(v: Json) {
    match v
    case Arr(items) => forall i | 0 <= i < |items| :: WellFormed(items[i])
    case Obj(fields) => UniqueKeys(fields) && forall i | 0 <= i < |fields| :: WellFormed(fields[i].value)
    case _ => true
  }

  /** Every plain value is well formed, and an object of one field when its value is. */
  lemma SmallIsWellFormed(v: Json, key: string)
    ensures !v.Arr? && !v.Obj? ==> WellFormed(v)
    ensures WellFormed(Obj([Field(key, v)])) <==> WellFormed(v)
    ensures WellFormed(Arr([v])) <==> WellFormed(v)
  {
    assert [Field(key, v)][0].value == v && [v][0] == v;
  }

  predicate UniqueKeys(fields: seq<Field>) {
    forall i, k | 0 <= i < k < |fields| :: fields[i].key != fields[k].key
  }

  predicate Insignificant(v: Json) {
    v.Undefined? || v.Null? || v == Text("") || v == Arr([]) || v == Obj([])
  }

  function InsertField(f: Field, fields: seq<Field>): seq<Field> {
    if fields == [] || TextLe(f.key, fields[0].key) then [f] + fields
    else [fields[0]] + InsertField(f, fields[1..])
  }

  function Normalize(v: Json): Json {
    match v
    case Arr(items) => Arr(NormalizeItems(items))
    case Obj(fields) => Obj(NormalizeFields(fields))
    case _ => v
  }

  function NormalizeItems(items: seq<Json>): seq<Json> {
    if items == [] then [] else [Normalize(items[0])] + NormalizeItems(items[1..])
  }

  function NormalizeFields(fields: seq<Field>): seq<Field> {
    if fields == [] then []
    else
      var rest := NormalizeFields(fields[1..]);
      var child := Normalize(fields[0].value);
      if Insignificant(child) then rest else InsertField(Field(fields[0].key, child), rest)
  }

  /* -------------------------------- what it ignores ---------------------------------- */

  /** A value that says nothing: empty, or an object of nothing else at any depth. */
  predicate Padding(v: Json) {
    match v
    case Undefined => true
    case Null => true
    case Text(text) => text == ""
    case Arr(items) => items == []
    case Obj(fields) => forall i | 0 <= i < |fields| :: Padding(fields[i].value)
    case _ => false
  }

  /**
   * Two values that differ only in padding fields and in the order of keys, at any
   * depth: arrays agree position by position, objects field by field once padding
   * fields are left out, everything else is equal.
   */
  predicate SameButPadding(a: Json, b: Json) {
    match a
    case Arr(items) =>
      b.Arr? && |items| == |b.items| && forall i | 0 <= i < |items| :: SameButPadding(items[i], b.items[i])
    case Obj(fields) =>
      b.Obj?
      && (forall i | 0 <= i < |fields| :: !Padding(fields[i].value) ==>
            exists k | 0 <= k < |b.fields| ::
              b.fields[k].key == fields[i].key && !Padding(b.fields[k].value)
              && SameButPadding(fields[i].value, b.fields[k].value))
      && (forall k | 0 <= k < |b.fields| :: !Padding(b.fields[k].value) ==> SaysKey(fields, b.fields[k].key))
    case _ => a == b
  }

  /** The object has a field of this key that is not padding. */
  predicate SaysKey(fields: seq<Field>, key: string) {
    exists i | 0 <= i < |fields| :: fields[i].key == key && !Padding(fields[i].value)
  }

  /** Padding is exactly what normalises to something insignificant. */
  lemma {:induction false} InsignificantIffPadding(v: Json)
    ensures Insignificant(Normalize(v)) <==> Padding(v)
    decreases v, 0
  {
    match v
    case Obj(fields) =>
      NoFieldsIffPadding(fields);
    case Arr(items) =>
    case _ =>
  }

  lemma {:induction false} NoFieldsIffPadding(fields: seq<Field>)
    ensures NormalizeFields(fields) == [] <==> forall i | 0 <= i < |fields| :: Padding(fields[i].value)
    decreases fields
  {
    if fields != [] {
      InsignificantIffPadding(fields[0].value);
      NoFieldsIffPadding(fields[1..]);
      assert forall i | 0 <= i < |fields[1..]| :: fields[1..][i] == fields[i + 1];
      if forall i | 0 <= i < |fields[1..]| :: Padding(fields[1..][i].value) {
        assert forall i | 1 <= i < |fields| :: fields[i] == fields[1..][i - 1];
      }
    }
  }

  /* ------------------------------------ arrays --------------------------------------- */

  /** Arrays keep their length and every element its position. */
  lemma {:induction false} ItemsStay(items: seq<Json>)
    ensures |NormalizeItems(items)| == |items|
    ensures forall i | 0 <= i < |items| :: NormalizeItems(items)[i] == Normalize(items[i])
  {
    if items != [] {
      ItemsStay(items[1..]);
    }
  }

  /* ------------------------------------ objects -------------------------------------- */

  /** Sorted by key, each key once. */
  predicate Ascending(fields: seq<Field>) {
    forall i, k | 0 <= i < k < |fields| :: TextLe(fields[i].key, fields[k].key) && fields[i].key != fields[k].key
  }

  lemma AscendingCons(f: Field, fields: seq<Field>)
    requires Ascending(fields) && forall g | g in fields :: TextLe(f.key, g.key) && f.key != g.key
    ensures Ascending([f] + fields)
  {
  }

  lemma BelowFirst(f: Field, fields: seq<Field>)
    requires Ascending(fields) && fields != [] && TextLe(f.key, fields[0].key)
    ensures forall g | g in fields :: TextLe(f.key, g.key)
  {
    forall g | g in fields ensures TextLe(f.key, g.key) {
      var i :| 0 <= i < |fields| && fields[i] == g;
      if i > 0 {
        TextLeTransitive(f.key, fields[0].key, fields[i].key);
      }
    }
  }

  lemma AboveFirst(fields: seq<Field>)
    requires Ascending(fields) && fields != []
    ensures forall g | g in fields[1..] :: TextLe(fields[0].key, g.key) && fields[0].key != g.key
  {
  }

  lemma {:induction false} InsertContents(f: Field, fields: seq<Field>)
    ensures forall g :: g in InsertField(f, fields) <==> g == f || g in fields
  {
    if fields != [] && !TextLe(f.key, fields[0].key) {
      InsertContents(f, fields[1..]);
      assert fields == [fields[0]] + fields[1..];
    }
  }

  lemma {:induction false} InsertKeepsAscending(f: Field, fields: seq<Field>)
    requires Ascending(fields) && forall g | g in fields :: g.key != f.key
    ensures Ascending(InsertField(f, fields))
  {
    if fields == [] {
    } else if TextLe(f.key, fields[0].key) {
      BelowFirst(f, fields);
      AscendingCons(f, fields);
    } else {
      InsertKeepsAscending(f, fields[1..]);
      InsertContents(f, fields[1..]);
      TextLeTotal(f.key, fields[0].key);
      AboveFirst(fields);
      AscendingCons(fields[0], InsertField(f, fields[1..]));
    }
  }

  /** `g` is one of the object's fields, normalised, and says something. */
  ghost predicate Kept(fields: seq<Field>, g: Field) {
    exists i :: 0 <= i < |fields| && !Padding(fields[i].value) && g == Field(fields[i].key, Normalize(fields[i].value))
  }

  lemma KeptCons(fields: seq<Field>, g: Field)
    requires fields != []
    ensures Kept(fields, g) <==>
            (!Padding(fields[0].value) && g == Field(fields[0].key, Normalize(fields[0].value))) || Kept(fields[1..], g)
  {
  }

  /** The normalised fields are exactly the original ones that say something, normalised. */
  lemma {:induction false} FieldsAre(fields: seq<Field>, g: Field)
    ensures g in NormalizeFields(fields) <==> Kept(fields, g)
  {
    if fields != [] {
      FieldsAre(fields[1..], g);
      KeptCons(fields, g);
      InsignificantIffPadding(fields[0].value);
      InsertContents(Field(fields[0].key, Normalize(fields[0].value)), NormalizeFields(fields[1..]));
    }
  }

  lemma {:induction false} FieldsAscend(fields: seq<Field>)
    requires UniqueKeys(fields)
    ensures Ascending(NormalizeFields(fields))
  {
    if fields != [] {
      FieldsAscend(fields[1..]);
      var f := Field(fields[0].key, Normalize(fields[0].value));
      forall g | g in NormalizeFields(fields[1..]) ensures g.key != f.key {
        FieldsAre(fields[1..], g);
        var i :| 0 <= i < |fields[1..]| && g.key == fields[1..][i].key;
        assert fields[i + 1].key == g.key;
      }
      InsertKeepsAscending(f, NormalizeFields(fields[1..]));
    }
  }

  lemma {:induction false} SameFieldsEqual(a: seq<Field>, b: seq<Field>)
    requires Ascending(a) && Ascending(b) && forall g :: g in a <==> g in b
    ensures a == b
  {
    if a == [] {
      EmptyOrInhabited(b);
    } else {
      assert a[0] in b && a[0] in a;
      assert b[0] in b && b[0] in a;
      HeadsMeet(a, b);
      AboveFirst(a);
      AboveFirst(b);
      forall g ensures g in a[1..] <==> g in b[1..] {
        assert a == [a[0]] + a[1..] && b == [b[0]] + b[1..];
        assert g in a <==> g in b;
      }
      SameFieldsEqual(a[1..], b[1..]);
      assert a == [a[0]] + a[1..] && b == [b[0]] + b[1..];
    }
  }

  lemma EmptyOrInhabited(fields: seq<Field>)
    ensures fields == [] || exists g :: g in fields
  {
    if fields != [] {
      assert fields[0] in fields;
    }
  }

  lemma HeadsMeet(a: seq<Field>, b: seq<Field>)
    requires Ascending(a) && Ascending(b) && a != [] && b != [] && a[0] in b && b[0] in a
    ensures a[0] == b[0]
  {
    var k :| 0 <= k < |b| && b[k] == a[0];
    var i :| 0 <= i < |a| && a[i] == b[0];
    TextLeTotal(a[0].key, b[0].key);
  }

  /* ------------------------------- the comparison itself ----------------------------- */

  /**
   * Two models normalise to the same value exactly when they differ only in padding
   * fields and key order.
   */
  lemma {:induction false} NormalizesEqualIff(a: Json, b: Json)
    requires WellFormed(a) && WellFormed(b)
    ensures Normalize(a) == Normalize(b) <==> SameButPadding(a, b)
    decreases a, 2
  {
    if a.Arr? && b.Arr? {
      ItemsEqualIff(a.items, b.items);
      ItemsStay(a.items);
      ItemsStay(b.items);
    } else if a.Obj? && b.Obj? {
      ObjectsEqualIff(a, b);
    }
  }

  lemma {:induction false} ItemsEqualIff(xs: seq<Json>, ys: seq<Json>)
    requires forall i | 0 <= i < |xs| :: WellFormed(xs[i])
    requires forall i | 0 <= i < |ys| :: WellFormed(ys[i])
    ensures NormalizeItems(xs) == NormalizeItems(ys) <==>
            |xs| == |ys| && forall i | 0 <= i < |xs| :: SameButPadding(xs[i], ys[i])
    decreases xs
  {
    ItemsStay(xs);
    ItemsStay(ys);
    if |xs| == |ys| {
      forall i | 0 <= i < |xs| ensures Normalize(xs[i]) == Normalize(ys[i]) <==> SameButPadding(xs[i], ys[i]) {
        NormalizesEqualIff(xs[i], ys[i]);
      }
      if NormalizeItems(xs) == NormalizeItems(ys) {
        forall i | 0 <= i < |xs| ensures SameButPadding(xs[i], ys[i]) {
          assert NormalizeItems(xs)[i] == NormalizeItems(ys)[i];
        }
      }
    }
  }

  /** Field by field: `f` has a partner in `fields` that normalises alike. */
  ghost predicate Partnered(f: Field, fields: seq<Field>) {
    exists k :: 0 <= k < |fields| && fields[k].key == f.key && !Padding(fields[k].value)
                && Normalize(fields[k].value) == Normalize(f.value)
  }

  lemma {:induction false} ObjectsEqualIff(a: Json, b: Json)
    requires a.Obj? && b.Obj? && WellFormed(a) && WellFormed(b)
    ensures Normalize(a) == Normalize(b) <==> SameButPadding(a, b)
    decreases a, 1
  {
    var xs, ys := a.fields, b.fields;
    forall i, k | 0 <= i < |xs| && 0 <= k < |ys|
      ensures Normalize(xs[i].value) == Normalize(ys[k].value) <==> SameButPadding(xs[i].value, ys[k].value)
    {
      NormalizesEqualIff(xs[i].value, ys[k].value);
    }
    FieldsAscend(xs);
    FieldsAscend(ys);
    if SameButPadding(a, b) {
      forall g ensures g in NormalizeFields(xs) <==> g in NormalizeFields(ys) {
        FieldsAre(xs, g);
        FieldsAre(ys, g);
        if Kept(xs, g) {
          KeptForward(a, b, g);
        }
        if Kept(ys, g) {
          KeptBackward(a, b, g);
        }
      }
      SameFieldsEqual(NormalizeFields(xs), NormalizeFields(ys));
    }
    if Normalize(a) == Normalize(b) {
      forall i | 0 <= i < |xs| && !Padding(xs[i].value) ensures Partnered(xs[i], ys) {
        var g := Field(xs[i].key, Normalize(xs[i].value));
        FieldsAre(xs, g);
        FieldsAre(ys, g);
      }
      forall k | 0 <= k < |ys| && !Padding(ys[k].value) ensures SaysKey(xs, ys[k].key) {
        var g := Field(ys[k].key, Normalize(ys[k].value));
        FieldsAre(xs, g);
        FieldsAre(ys, g);
      }
    }
  }

  lemma {:induction false} KeptForward(a: Json, b: Json, g: Field)
    requires a.Obj? && b.Obj? && SameButPadding(a, b) && Kept(a.fields, g)
    requires WellFormed(a) && WellFormed(b)
    ensures Kept(b.fields, g)
    decreases a, 0
  {
    var xs, ys := a.fields, b.fields;
    var i :| 0 <= i < |xs| && !Padding(xs[i].value) && g == Field(xs[i].key, Normalize(xs[i].value));
    var k :| 0 <= k < |ys| && ys[k].key == xs[i].key && !Padding(ys[k].value) && SameButPadding(xs[i].value, ys[k].value);
    NormalizesEqualIff(xs[i].value, ys[k].value);
    assert g == Field(ys[k].key, Normalize(ys[k].value));
  }

  lemma {:induction false} KeptBackward(a: Json, b: Json, g: Field)
    requires a.Obj? && b.Obj? && UniqueKeys(b.fields) && SameButPadding(a, b) && Kept(b.fields, g)
    requires WellFormed(a) && WellFormed(b)
    ensures Kept(a.fields, g)
    decreases a, 0
  {
    var xs, ys := a.fields, b.fields;
    var k :| 0 <= k < |ys| && !Padding(ys[k].value) && g == Field(ys[k].key, Normalize(ys[k].value));
    assert SaysKey(xs, ys[k].key);
    var i :| 0 <= i < |xs| && xs[i].key == ys[k].key && !Padding(xs[i].value);
    var j :| 0 <= j < |ys| && ys[j].key == xs[i].key && !Padding(ys[j].value) && SameButPadding(xs[i].value, ys[j].value);
    assert j == k;
    NormalizesEqualIff(xs[i].value, ys[j].value);
    assert g == Field(xs[i].key, Normalize(xs[i].value));
  }

  /* ------------------------------------ consequences ---------------------------------- */

  lemma {:induction false} Reflexive(v: Json)
    requires WellFormed(v)
    ensures SameButPadding(v, v)
  {
    NormalizesEqualIff(v, v);
  }

  /** Reordering the keys of an object changes nothing. */
  lemma ReorderingIsIgnored(xs: seq<Field>, ys: seq<Field>)
    requires WellFormed(Obj(xs)) && WellFormed(Obj(ys)) && forall f :: f in xs <==> f in ys
    ensures Normalize(Obj(xs)) == Normalize(Obj(ys))
  {
    forall i | 0 <= i < |xs| && !Padding(xs[i].value)
      ensures exists k | 0 <= k < |ys| ::
        ys[k].key == xs[i].key && !Padding(ys[k].value) && SameButPadding(xs[i].value, ys[k].value)
    {
      assert xs[i] in ys;
      var k :| 0 <= k < |ys| && ys[k] == xs[i];
      Reflexive(xs[i].value);
    }
    forall k | 0 <= k < |ys| && !Padding(ys[k].value) ensures SaysKey(xs, ys[k].key) {
      assert ys[k] in xs;
    }
    assert SameButPadding(Obj(xs), Obj(ys));
    NormalizesEqualIff(Obj(xs), Obj(ys));
  }

  /** A key the object does not hold, and the place each field moves to when it is put in. */
  lemma Inserted(xs: seq<Field>, f: Field, at: nat, ys: seq<Field>)
    requires at <= |xs| && ys == xs[..at] + [f] + xs[at..] && WellFormed(Obj(ys))
    ensures forall i | 0 <= i < |xs| :: ys[if i < at then i else i + 1] == xs[i]
    ensures forall i | 0 <= i < |xs| :: xs[i].key != f.key
  {
    assert ys[at] == f;
    forall i | 0 <= i < |xs| ensures ys[if i < at then i else i + 1] == xs[i] && xs[i].key != f.key {
      assert ys[if i < at then i else i + 1].key != ys[at].key;
    }
  }

  lemma SameButInsertedIff(xs: seq<Field>, f: Field, at: nat, ys: seq<Field>)
    requires at <= |xs| && ys == xs[..at] + [f] + xs[at..] && WellFormed(Obj(xs)) && WellFormed(Obj(ys))
    ensures SameButPadding(Obj(xs), Obj(ys)) <==> Padding(f.value)
  {
    Inserted(xs, f, at, ys);
    forall i | 0 <= i < |xs| && !Padding(xs[i].value)
      ensures exists k | 0 <= k < |ys| ::
        ys[k].key == xs[i].key && !Padding(ys[k].value) && SameButPadding(xs[i].value, ys[k].value)
    {
      var k := if i < at then i else i + 1;
      assert ys[k] == xs[i];
      Reflexive(xs[i].value);
    }
    forall k | 0 <= k < |ys| && k != at && !Padding(ys[k].value) ensures SaysKey(xs, ys[k].key) {
      assert xs[if k < at then k else k - 1] == ys[k];
    }
    assert ys[at] == f && !SaysKey(xs, f.key);
  }

  /** A field added anywhere in an object changes nothing exactly when it is padding. */
  lemma AddedFieldIsIgnoredIff(xs: seq<Field>, f: Field, at: nat)
    requires at <= |xs| && WellFormed(Obj(xs)) && WellFormed(Obj(xs[..at] + [f] + xs[at..]))
    ensures Normalize(Obj(xs)) == Normalize(Obj(xs[..at] + [f] + xs[at..])) <==> Padding(f.value)
  {
    var ys := xs[..at] + [f] + xs[at..];
    SameButInsertedIff(xs, f, at, ys);
    NormalizesEqualIff(Obj(xs), Obj(ys));
  }

  /** A change the comparison ignores in one element or field is ignored in the whole. */
  lemma ChangeInsideIsIgnored(v: Json, at: nat, child: Json)
    requires WellFormed(v) && WellFormed(child)
    requires (v.Arr? && at < |v.items| && SameButPadding(v.items[at], child))
             || (v.Obj? && at < |v.fields| && SameButPadding(v.fields[at].value, child))
    ensures v.Arr? ==> Normalize(Arr(v.items[at := child])) == Normalize(v)
    ensures v.Obj? ==> Normalize(Obj(v.fields[at := Field(v.fields[at].key, child)])) == Normalize(v)
  {
    if v.Arr? {
      var items := v.items[at := child];
      NormalizesEqualIff(v.items[at], child);
      ItemsStay(v.items);
      ItemsStay(items);
      assert NormalizeItems(items) == NormalizeItems(v.items);
    } else {
      NormalizesEqualIff(v.fields[at].value, child);
      ReplacedField(v.fields, at, child);
    }
  }

  lemma {:induction false} ReplacedField(fields: seq<Field>, at: nat, child: Json)
    requires at < |fields| && Normalize(fields[at].value) == Normalize(child)
    ensures NormalizeFields(fields[at := Field(fields[at].key, child)]) == NormalizeFields(fields)
  {
    var replaced := fields[at := Field(fields[at].key, child)];
    if at == 0 {
      assert replaced[1..] == fields[1..];
    } else {
      ReplacedField(fields[1..], at - 1, child);
      assert replaced[1..] == fields[1..][at - 1 := Field(fields[at].key, child)];
    }
  }

  /** Normalising twice is normalising once. */
  lemma {:induction false} NormalizeIdempotent(v: Json)
    requires WellFormed(v)
    ensures Normalize(Normalize(v)) == Normalize(v)
    decreases v
  {
    if v.Arr? {
      ItemsStay(v.items);
      ItemsStay(NormalizeItems(v.items));
      forall i | 0 <= i < |v.items| ensures Normalize(Normalize(v.items[i])) == Normalize(v.items[i]) {
        NormalizeIdempotent(v.items[i]);
      }
      assert NormalizeItems(NormalizeItems(v.items)) == NormalizeItems(v.items);
    } else if v.Obj? {
      forall i | 0 <= i < |v.fields| ensures Normalize(Normalize(v.fields[i].value)) == Normalize(v.fields[i].value) {
        NormalizeIdempotent(v.fields[i].value);
      }
      FieldsIdempotent(v.fields);
    }
  }

  lemma FieldsIdempotent(fields: seq<Field>)
    requires UniqueKeys(fields)
    requires forall i | 0 <= i < |fields| :: Normalize(Normalize(fields[i].value)) == Normalize(fields[i].value)
    ensures NormalizeFields(NormalizeFields(fields)) == NormalizeFields(fields)
  {
    var once := NormalizeFields(fields);
    FieldsAscend(fields);
    FieldsAscend(once);
    forall g ensures g in NormalizeFields(once) <==> g in once {
      FieldsAre(once, g);
      FieldsAre(fields, g);
      forall k | 0 <= k < |once| ensures Normalize(once[k].value) == once[k].value && !Padding(once[k].value) {
        FieldsAre(fields, once[k]);
        InsignificantIffPadding(once[k].value);
        var i :| 0 <= i < |fields| && !Padding(fields[i].value) && once[k] == Field(fields[i].key, Normalize(fields[i].value));
        InsignificantIffPadding(fields[i].value);
      }
      if g in once {
        var k :| 0 <= k < |once| && once[k] == g;
        assert g == Field(once[k].key, Normalize(once[k].value));
      }
    }
    SameFieldsEqual(NormalizeFields(once), once);
  }
}
