/**
 * One kind's rows and the writes on them (packages/resource-api/src/store): the
 * table in insertion order, unique ids, and a natural key that is unique among
 * the rows that have one.
 */
module Store {
  import opened Wrappers

  /** A stored resource: its id, natural key, and fields rendered as text (absent when unset). */
  datatype Row = Row(id: string, key: Option<string>, fields: map<string, string>)

  type Table = seq<Row>

  datatype WriteResult = Written | DuplicateId(id: string) | DuplicateKey(value: string)

  predicate UniqueIds(table: Table) {
    forall i, k | 0 <= i < k < |table| :: table[i].id != table[k].id
  }

  predicate UniqueKeys(table: Table) {
    forall a, b | a in table && b in table :: a.key == b.key != None ==> a.id == b.id
  }

  ghost predicate ValidTable(table: Table) {
    UniqueIds(table) && UniqueKeys(table)
  }

  predicate HasId(table: Table, id: string) {
    exists r | r in table :: r.id == id
  }

  /** Another row already holds this row's key. */
  predicate KeyTaken(table: Table, row: Row) {
    row.key.Some? && exists r | r in table :: r.id != row.id && r.key == row.key
  }

  /** A replacement stays in its place; a new row goes last. */
  function Put(table: Table, row: Row): Table {
    if table == [] then [row]
    else if table[0].id == row.id then [row] + table[1..]
    else [table[0]] + Put(table[1..], row)
  }

  function Inserted(table: Table, row: Row): (WriteResult, Table) {
    if HasId(table, row.id) then (DuplicateId(row.id), table)
    else if KeyTaken(table, row) then (DuplicateKey(row.key.value), table)
    else (Written, table + [row])
  }

  function Saved(table: Table, row: Row): (WriteResult, Table) {
    if KeyTaken(table, row) then (DuplicateKey(row.key.value), table)
    else (Written, Put(table, row))
  }

  function HolderOf(table: Table, value: string): (holder: Option<Row>)
    ensures holder.Some? ==> holder.value in table && holder.value.key == Some(value)
    ensures holder.None? ==> forall r | r in table :: r.key != Some(value)
  {
    if table == [] then None
    else if table[0].key == Some(value) then Some(table[0])
    else HolderOf(table[1..], value)
  }

  lemma {:induction false} PutContents(table: Table, row: Row)
    requires UniqueIds(table)
    ensures UniqueIds(Put(table, row))
    ensures forall r :: r in Put(table, row) <==> r == row || (r in table && r.id != row.id)
  {
    if table != [] {
      if table[0].id == row.id {
        assert forall r | r in table[1..] :: r.id != row.id;
      } else {
        PutContents(table[1..], row);
        assert forall r | r in table[1..] :: r.id != table[0].id;
        assert forall r | r in Put(table[1..], row) :: r.id != table[0].id;
      }
    }
  }

  lemma {:induction false} PutAppends(table: Table, row: Row)
    requires !HasId(table, row.id)
    ensures Put(table, row) == table + [row]
  {
    if table != [] {
      PutAppends(table[1..], row);
    }
  }

  /** Both writes keep ids and keys unique; a refused one changes nothing. */
  lemma WritesKeepValid(table: Table, row: Row)
    requires ValidTable(table)
    ensures ValidTable(Inserted(table, row).1) && ValidTable(Saved(table, row).1)
    ensures Inserted(table, row).0.Written? ==> Inserted(table, row) == Saved(table, row)
  {
    PutContents(table, row);
    if !HasId(table, row.id) {
      PutAppends(table, row);
    }
  }

  class MemoryStore {
    var table: Table

    ghost predicate Valid()
      reads this
    {
      ValidTable(table)
    }

    constructor ()
      ensures Valid() && table == []
    {
      table := [];
    }

    /** The natural-key constraint: scans every other row for the key. */
    method AssertNaturalKeyFree(row: Row) returns (free: bool)
      ensures free <==> !KeyTaken(table, row)
    {
      if row.key.None? {
        return true;
      }
      for i := 0 to |table|
        invariant forall k | 0 <= k < i :: table[k].id != row.id ==> table[k].key != row.key
      {
        if table[i].id != row.id && table[i].key == row.key {
          return false;
        }
      }
      return true;
    }

    method Insert(row: Row) returns (result: WriteResult)
      requires Valid()
      modifies this
      ensures Valid()
      ensures (result, table) == Inserted(old(table), row)
    {
      WritesKeepValid(table, row);
      if HasId(table, row.id) {
        return DuplicateId(row.id);
      }
      var free := AssertNaturalKeyFree(row);
      if !free {
        return DuplicateKey(row.key.value);
      }
      table := table + [row];
      result := Written;
    }

    method Save(row: Row) returns (result: WriteResult)
      requires Valid()
      modifies this
      ensures Valid()
      ensures (result, table) == Saved(old(table), row)
    {
      WritesKeepValid(table, row);
      var free := AssertNaturalKeyFree(row);
      if !free {
        return DuplicateKey(row.key.value);
      }
      table := Put(table, row);
      result := Written;
    }

    method GetByNaturalKey(value: string) returns (holder: Option<Row>)
      requires Valid()
      ensures holder == HolderOf(table, value)
      ensures holder.Some? <==> exists r | r in table :: r.key == Some(value)
      ensures forall r | r in table :: r.key == Some(value) ==> holder == Some(r)
    {
      holder := None;
      for i := 0 to |table|
        invariant HolderOf(table, value) == HolderOf(table[i..], value)
      {
        if table[i].key == Some(value) {
          holder := Some(table[i]);
          OnlyHolder(table, value);
          return;
        }
        assert table[i..][1..] == table[i + 1..];
      }
    }
  }

  lemma {:induction false} SameRow(table: Table, a: Row, b: Row)
    requires UniqueIds(table) && a in table && b in table && a.id == b.id
    ensures a == b
  {
  }

  /** The row found under a key is the only one there. */
  lemma OnlyHolder(table: Table, value: string)
    requires ValidTable(table)
    ensures forall r | r in table :: r.key == Some(value) ==> HolderOf(table, value) == Some(r)
  {
  }
}
