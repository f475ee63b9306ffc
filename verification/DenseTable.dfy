/**
 * Records in a dense prefix of a fixed array, in no particular order: looked up by scanning,
 * removed by swapping in the last one. The node table of a transport and the entries of a
 * directory are both kept this way.
 */
module DenseTable {
  import opened Bytes

  /** The row of an id holds its record. */
  ghost predicate RowOf<T>(key: T -> nat, rows: seq<T>, slot: map<nat, nat>, table: map<nat, T>, id: nat) {
    && id in slot && id in table
    && slot[id] < |rows| && rows[slot[id]] == table[id] && key(table[id]) == id
  }

  /** A row is where the id it carries sits. */
  ghost predicate SitsAt<T>(key: T -> nat, rows: seq<T>, slot: map<nat, nat>, i: nat) {
    i < |rows| && key(rows[i]) in slot && slot[key(rows[i])] == i
  }

  /** Rows standing for a table: each record in one row, each row a record of the table. */
  ghost predicate Stands<T>(key: T -> nat, rows: seq<T>, slot: map<nat, nat>, table: map<nat, T>) {
    && slot.Keys == table.Keys
    && (forall id {:trigger RowOf(key, rows, slot, table, id)} :: id in table ==> RowOf(key, rows, slot, table, id))
    && (forall i: nat {:trigger SitsAt(key, rows, slot, i)} :: i < |rows| ==> SitsAt(key, rows, slot, i))
  }

  /** The rows with one gone and the last one in its place. */
  function Without<T>(rows: seq<T>, index: nat): seq<T>
    requires index < |rows|
  {
    rows[index := rows[|rows| - 1]][..|rows| - 1]
  }

  class Table<T(!new)> {
    const key: T -> nat
    const blank: T
    const records: array<T>
    var count: nat

    // The prefix, the table it stands for, and where each id sits in it.
    ghost var rows: seq<T>
    ghost var table: map<nat, T>
    ghost var slot: map<nat, nat>

    ghost predicate Valid()
      reads this, records
    {
      && count == |table| == |rows| <= records.Length
      && (forall i: nat {:trigger Cell(i)} :: i < count ==> Cell(i))
      && Stands(key, rows, slot, table)
    }

    ghost predicate Cell(i: nat)
      reads this, records
    {
      i < |rows| && i < records.Length && records[i] == rows[i]
    }

    constructor (key: T -> nat, blank: T, capacity: nat)
      ensures Valid() && fresh(records) && table == map[] && this.key == key && records.Length == capacity
    {
      this.key, this.blank := key, blank;
      records := new T[capacity](_ => blank);
      count, rows, table, slot := 0, [], map[], map[];
    }

    /** The record of an id, when there is one. */
    method Find(id: nat) returns (found: Option<T>)
      requires Valid()
      ensures found == if id in table then Some(table[id]) else None
    {
      var index := Lookup(id);
      assert index < count ==> Cell(index);
      found := if index < count then Some(records[index]) else None;
    }

    /** The row of an id, or the count when it has none. */
    method Lookup(id: nat) returns (index: nat)
      requires Valid()
      ensures if id in table then index < count && slot[id] == index && rows[index] == table[id] else index == count
    {
      index := 0;
      while index < count
        invariant index <= count
        invariant forall i :: 0 <= i < index ==> key(rows[i]) != id
      {
        assert Cell(index) && SitsAt(key, rows, slot, index);
        if key(records[index]) == id {
          assert RowOf(key, rows, slot, table, id);
          return;
        }
        index := index + 1;
      }
      assert id in table ==> RowOf(key, rows, slot, table, id);
    }

    method At(index: nat) returns (record: T)
      requires Valid() && index < count
      ensures record == rows[index] && key(record) in table && table[key(record)] == record
    {
      assert Cell(index) && SitsAt(key, rows, slot, index);
      record := records[index];
      assert RowOf(key, rows, slot, table, key(record));
    }

    /** Replaces the record of a known id, or appends a new one. */
    method Store(record: T)
      requires Valid() && (key(record) !in table ==> count < records.Length)
      modifies this, records
      ensures Valid() && table == old(table)[key(record) := record]
    {
      var index := Lookup(key(record));
      StoreStands(key, rows, slot, table, index, record);
      ghost var cells := records[..count];
      assert cells == rows by {
        forall i: nat | i < count ensures cells[i] == rows[i] {
          assert Cell(i);
        }
      }
      records[index] := record;
      if index == count {
        count := count + 1;
        rows := rows + [record];
      } else {
        rows := rows[index := record];
      }
      slot, table := slot[key(record) := index], table[key(record) := record];
      forall i: nat | i < count ensures Cell(i) {
        assert i != index ==> records[i] == cells[i];
      }
    }

    method MoveLast(index: nat)
      requires index < count <= records.Length
      modifies `count, records
      ensures count == old(count) - 1
      ensures forall i | 0 <= i < count :: records[i] == (if i == index then old(records[count - 1]) else old(records[i]))
    {
      count := count - 1;
      records[index] := records[count];
      records[count] := blank;
    }

    /** Removes one row; the last one takes its place. */
    method RemoveAt(index: nat)
      requires Valid() && index < count
      modifies this, records
      ensures Valid() && table == old(table) - {key(old(rows)[index])} && count == old(count) - 1
      ensures rows == Without(old(rows), index)
    {
      ghost var gone, last := key(rows[index]), key(rows[count - 1]);
      SwapStands(key, rows, slot, table, index);
      ghost var cells := records[..count];
      assert cells == rows by {
        forall i: nat | i < count ensures cells[i] == rows[i] {
          assert Cell(i);
        }
      }
      MoveLast(index);
      rows := Without(rows, index);
      assert table.Keys == (table - {gone}).Keys + {gone};
      table, slot := table - {gone}, slot[last := index] - {gone};
      forall i: nat | i < count ensures Cell(i) {
        assert i != index ==> records[i] == cells[i];
      }
    }
  }

  lemma StoreStands<T>(key: T -> nat, rows: seq<T>, slot: map<nat, nat>, table: map<nat, T>, index: nat, record: T)
    requires Stands(key, rows, slot, table)
    requires if key(record) in table then index < |rows| && index == slot[key(record)] else index == |rows|
    ensures Stands(key, if index == |rows| then rows + [record] else rows[index := record],
                   slot[key(record) := index], table[key(record) := record])
  {
    var own := key(record);
    var rows' := if index == |rows| then rows + [record] else rows[index := record];
    var slot', table' := slot[own := index], table[own := record];
    forall id | id in table' ensures RowOf(key, rows', slot', table', id) {
      if id != own {
        assert RowOf(key, rows, slot, table, id);
        assert SitsAt(key, rows, slot, slot[id]);
        assert own in table ==> RowOf(key, rows, slot, table, own);
      }
    }
    forall i: nat | i < |rows'| ensures SitsAt(key, rows', slot', i) {
      if i != index {
        assert SitsAt(key, rows, slot, i);
        assert own in table ==> RowOf(key, rows, slot, table, own);
      }
    }
  }

  /** Swapping in the last row removes exactly the record of the row it replaces. */
  lemma SwapStands<T>(key: T -> nat, rows: seq<T>, slot: map<nat, nat>, table: map<nat, T>, index: nat)
    requires Stands(key, rows, slot, table) && index < |rows|
    ensures var gone, last := key(rows[index]), key(rows[|rows| - 1]);
      gone in table && Stands(key, Without(rows, index), slot[last := index] - {gone}, table - {gone})
  {
    var n := |rows| - 1;
    var gone, last := key(rows[index]), key(rows[n]);
    var rows', slot', table' := Without(rows, index), slot[last := index] - {gone}, table - {gone};
    assert SitsAt(key, rows, slot, index) && SitsAt(key, rows, slot, n);
    forall id | id in table' ensures RowOf(key, rows', slot', table', id) {
      assert RowOf(key, rows, slot, table, id);
    }
    forall i: nat | i < |rows'| ensures SitsAt(key, rows', slot', i) {
      assert SitsAt(key, rows, slot, i);
    }
  }
}
