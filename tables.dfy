/**
 * A database table with an auto-increment identifier and a natural key, and the
 * insert-if-absent operation (`INSERT IGNORE`, `INSERT ... WHERE NOT EXISTS`) that the
 * pipeline uses for every table it fills.
 */
module Tables {
  import opened Wrappers

  datatype Row<K, V> = Row(id: nat, key: K, val: V)

  /** The rows in storage order and the next auto-increment value. */
  datatype Table<K, V> = Table(rows: seq<Row<K, V>>, next: nat)

  /** A table as `TRUNCATE` leaves it: no rows, counter back to 1. */
  function Empty<K(==), V>(): (t: Table<K, V>)
    ensures t.rows == [] && t.next == 1
  {
    Table([], 1)
  }

  function Keys<K(==), V>(t: Table<K, V>): set<K> {
    set i | 0 <= i < |t.rows| :: t.rows[i].key
  }

  /** Identifiers are positive, below the counter and distinct; natural keys are distinct. */
  ghost predicate Valid<K, V>(t: Table<K, V>) {
    && 1 <= t.next
    && (forall i :: 0 <= i < |t.rows| ==> 1 <= t.rows[i].id < t.next)
    && (forall i, j :: 0 <= i < j < |t.rows| ==> t.rows[i].id != t.rows[j].id)
    && (forall i, j :: 0 <= i < j < |t.rows| ==> t.rows[i].key != t.rows[j].key)
  }

  /** `SELECT ... WHERE key = k`, first row in storage order. */
  function Find<K(==), V>(t: Table<K, V>, k: K): (r: Option<Row<K, V>>)
    ensures r.Some? <==> k in Keys(t)
    ensures r.Some? ==> r.value in t.rows && r.value.key == k
  {
    FindIn(t.rows, k)
  }

  function FindIn<K(==), V>(rows: seq<Row<K, V>>, k: K): (r: Option<Row<K, V>>)
    ensures r.Some? <==> exists i :: 0 <= i < |rows| && rows[i].key == k
    ensures r.Some? ==> r.value in rows && r.value.key == k
  {
    if rows == [] then None
    else if rows[0].key == k then Some(rows[0])
    else
      var r := FindIn(rows[1..], k);
      assert forall i :: 1 <= i < |rows| ==> rows[i] == rows[1..][i - 1];
      r
  }

  /** The identifier of the row with key `k`; in a valid table, the one row with that key. */
  function IdOf<K(==), V>(t: Table<K, V>, k: K): (r: Option<nat>)
    ensures r.Some? <==> k in Keys(t)
    ensures r.Some? ==> exists i :: 0 <= i < |t.rows| && t.rows[i].key == k && t.rows[i].id == r.value
    ensures Valid(t) ==> forall i :: 0 <= i < |t.rows| && t.rows[i].key == k ==> r == Some(t.rows[i].id)
  {
    match Find(t, k)
    case None => None
    case Some(row) => Some(row.id)
  }

  /** Insert `(k, v)` unless a row with key `k` exists. */
  function InsertIgnore<K(==), V>(t: Table<K, V>, k: K, v: V): (r: Table<K, V>)
    ensures k in Keys(t) ==> r == t
    ensures k !in Keys(t) ==> r == Table(t.rows + [Row(t.next, k, v)], t.next + 1)
  {
    if k in Keys(t) then t else Table(t.rows + [Row(t.next, k, v)], t.next + 1)
  }

  function KeysOf<K(==), V>(kvs: seq<(K, V)>): set<K> {
    set i | 0 <= i < |kvs| :: kvs[i].0
  }

  /** `executemany` of an insert-if-absent statement: the pairs in order. */
  function InsertIgnoreAll<K(==), V>(t: Table<K, V>, kvs: seq<(K, V)>): Table<K, V>
    decreases |kvs|
  {
    if kvs == [] then t else InsertIgnoreAll(InsertIgnore(t, kvs[0].0, kvs[0].1), kvs[1..])
  }

  lemma KeysOfCons<K, V>(kvs: seq<(K, V)>)
    requires kvs != []
    ensures KeysOf(kvs) == {kvs[0].0} + KeysOf(kvs[1..])
  {
    forall k | k in KeysOf(kvs) ensures k in {kvs[0].0} + KeysOf(kvs[1..]) {
      var i :| 0 <= i < |kvs| && kvs[i].0 == k;
      if i > 0 { assert kvs[1..][i - 1] == kvs[i]; }
    }
    forall k | k in KeysOf(kvs[1..]) ensures k in KeysOf(kvs) {
      var i :| 0 <= i < |kvs[1..]| && kvs[1..][i].0 == k;
      assert kvs[i + 1] == kvs[1..][i];
    }
  }

  lemma KeysOfInsert<K, V>(t: Table<K, V>, k: K, v: V)
    ensures Keys(InsertIgnore(t, k, v)) == Keys(t) + {k}
  {
    if k !in Keys(t) {
      var r := InsertIgnore(t, k, v);
      assert r.rows[|t.rows|].key == k;
      forall x | x in Keys(r) ensures x in Keys(t) + {k} {
        var row :| row in r.rows && row.key == x;
        var i :| 0 <= i < |r.rows| && r.rows[i] == row;
        if i < |t.rows| { assert t.rows[i] == row; }
      }
      forall x | x in Keys(t) ensures x in Keys(r) {
        var row :| row in t.rows && row.key == x;
        var i :| 0 <= i < |t.rows| && t.rows[i] == row;
        assert r.rows[i] == row;
      }
    }
  }

  /** After the bulk insert the table holds exactly the old keys and the new ones. */
  lemma {:induction false} InsertIgnoreAllKeys<K, V>(t: Table<K, V>, kvs: seq<(K, V)>)
    ensures Keys(InsertIgnoreAll(t, kvs)) == Keys(t) + KeysOf(kvs)
    decreases |kvs|
  {
    if kvs != [] {
      KeysOfCons(kvs);
      KeysOfInsert(t, kvs[0].0, kvs[0].1);
      InsertIgnoreAllKeys(InsertIgnore(t, kvs[0].0, kvs[0].1), kvs[1..]);
    }
  }

  /** Rows already present are left in place and unchanged. */
  lemma {:induction false} InsertIgnoreAllKeepsRows<K, V>(t: Table<K, V>, kvs: seq<(K, V)>)
    ensures var r := InsertIgnoreAll(t, kvs);
      |t.rows| <= |r.rows| && r.rows[..|t.rows|] == t.rows && t.next <= r.next
    decreases |kvs|
  {
    if kvs != [] {
      var t1 := InsertIgnore(t, kvs[0].0, kvs[0].1);
      InsertIgnoreAllKeepsRows(t1, kvs[1..]);
      var r := InsertIgnoreAll(t, kvs);
      assert r.rows[..|t1.rows|][..|t.rows|] == r.rows[..|t.rows|];
    }
  }

  /** A bulk insert whose keys are all present changes nothing. */
  lemma {:induction false} InsertIgnoreAllPresent<K, V>(t: Table<K, V>, kvs: seq<(K, V)>)
    requires KeysOf(kvs) <= Keys(t)
    ensures InsertIgnoreAll(t, kvs) == t
    decreases |kvs|
  {
    if kvs != [] {
      KeysOfCons(kvs);
      InsertIgnoreAllPresent(t, kvs[1..]);
    }
  }

  /** Running the same bulk insert a second time adds no row: insert-if-absent is idempotent. */
  lemma InsertIgnoreAllTwice<K, V>(t: Table<K, V>, kvs: seq<(K, V)>)
    ensures InsertIgnoreAll(InsertIgnoreAll(t, kvs), kvs) == InsertIgnoreAll(t, kvs)
  {
    InsertIgnoreAllKeys(t, kvs);
    InsertIgnoreAllPresent(InsertIgnoreAll(t, kvs), kvs);
  }

  lemma InsertIgnoreValid<K, V>(t: Table<K, V>, k: K, v: V)
    requires Valid(t)
    ensures Valid(InsertIgnore(t, k, v))
  {
    if k !in Keys(t) {
      var r := InsertIgnore(t, k, v);
      forall i | 0 <= i < |t.rows| ensures t.rows[i].key != k {
        assert t.rows[i] in t.rows;
      }
      assert forall i :: 0 <= i < |t.rows| ==> r.rows[i] == t.rows[i];
    }
  }

  /** The bulk insert keeps identifiers distinct and below the counter, and keys distinct. */
  lemma {:induction false} InsertIgnoreAllValid<K, V>(t: Table<K, V>, kvs: seq<(K, V)>)
    requires Valid(t)
    ensures Valid(InsertIgnoreAll(t, kvs))
    decreases |kvs|
  {
    if kvs != [] {
      InsertIgnoreValid(t, kvs[0].0, kvs[0].1);
      InsertIgnoreAllValid(InsertIgnore(t, kvs[0].0, kvs[0].1), kvs[1..]);
    }
  }

  /** Every row the bulk insert adds carries a pair of the input, under a fresh identifier. */
  lemma {:induction false} InsertIgnoreAllNewRows<K, V>(t: Table<K, V>, kvs: seq<(K, V)>)
    ensures var r := InsertIgnoreAll(t, kvs);
      forall i :: |t.rows| <= i < |r.rows| ==>
        (r.rows[i].key, r.rows[i].val) in kvs && r.rows[i].key !in Keys(t) && t.next <= r.rows[i].id
    decreases |kvs|
  {
    if kvs != [] {
      var t1 := InsertIgnore(t, kvs[0].0, kvs[0].1);
      InsertIgnoreAllNewRows(t1, kvs[1..]);
      InsertIgnoreAllKeepsRows(t1, kvs[1..]);
      KeysOfInsert(t, kvs[0].0, kvs[0].1);
      var r := InsertIgnoreAll(t, kvs);
      forall i | |t.rows| <= i < |r.rows|
        ensures (r.rows[i].key, r.rows[i].val) in kvs && r.rows[i].key !in Keys(t) && t.next <= r.rows[i].id
      {
        if i < |t1.rows| {
          assert r.rows[i] == t1.rows[i] == Row(t.next, kvs[0].0, kvs[0].1);
        } else {
          assert (r.rows[i].key, r.rows[i].val) in kvs[1..];
        }
      }
    }
  }

  /** Every row after a bulk insert was already there or carries a pair of the input. */
  lemma InsertIgnoreAllRowsFrom<K, V>(t: Table<K, V>, kvs: seq<(K, V)>)
    ensures forall row :: row in InsertIgnoreAll(t, kvs).rows ==> row in t.rows || (row.key, row.val) in kvs
  {
    var r := InsertIgnoreAll(t, kvs);
    InsertIgnoreAllKeepsRows(t, kvs);
    InsertIgnoreAllNewRows(t, kvs);
    forall row | row in r.rows ensures row in t.rows || (row.key, row.val) in kvs {
      var i :| 0 <= i < |r.rows| && r.rows[i] == row;
      if i < |t.rows| {
        assert r.rows[..|t.rows|][i] == row;
      }
    }
  }
}
