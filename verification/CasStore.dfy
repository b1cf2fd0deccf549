/**
The Host store: one table of revisioned records and one of task ids reserved
for ever, written together in a transaction that either commits or rolls back.
The clarification store adds a cap on waiting records, checked inside the same
transaction; without a cap this is the goal store.
*/
module CasStore {
  import opened Json

  datatype Row<+V> = Row(revision: int, waiting: bool, value: V)

  datatype Table<K, +V> = Table(rows: map<K, Row<V>>, ids: set<Text>)

  datatype Refusal = InvalidRevision | CapReached | RevisionConflict | IdReserved

  datatype Outcome<+V> = Saved(row: Row<V>) | Refused(why: Refusal)

  function WaitingOthers<K, V>(rows: map<K, Row<V>>, key: K): set<K>
  {
    set k | k in rows && k != key && rows[k].waiting
  }

  ghost function WaitingKeys<K, V>(rows: map<K, Row<V>>): set<K>
  {
    set k | k in rows && rows[k].waiting
  }

  predicate Current<K, V>(rows: map<K, Row<V>>, key: K, expected: Option<int>)
  {
    match expected
    case None => key !in rows
    case Some(revision) => key in rows && rows[key].revision == revision
  }

  function NextRevision(expected: Option<int>): int
  {
    if expected.None? then 0 else expected.value + 1
  }

  /** The transaction as one step: the new table and what the caller gets. */
  function Commit<K, V>(t: Table<K, V>, cap: Option<int>, key: K, expected: Option<int>, value: V, waiting: bool,
                        newId: Option<Text>): (r: (Table<K, V>, Outcome<V>))
    ensures r.1.Refused? ==> r.0 == t
  {
    if expected.Some? && !(0 <= expected.value < MAX_SAFE) then (t, Refused(InvalidRevision))
    else if waiting && cap.Some? && |WaitingOthers(t.rows, key)| >= cap.value then (t, Refused(CapReached))
    else if !Current(t.rows, key, expected) then (t, Refused(RevisionConflict))
    else if newId.Some? && newId.value in t.ids then (t, Refused(IdReserved))
    else
      var row := Row(NextRevision(expected), waiting, value);
      (Table(t.rows[key := row], if newId.Some? then t.ids + {newId.value} else t.ids), Saved(row))
  }

  /** A write is accepted exactly when its snapshot is the current row, there is room, and its task id is new. */
  lemma CommitSavesExactly<K, V>(t: Table<K, V>, cap: Option<int>, key: K, expected: Option<int>, value: V, waiting: bool, newId: Option<Text>)
    ensures Commit(t, cap, key, expected, value, waiting, newId).1.Saved? <==>
      && (expected.Some? ==> 0 <= expected.value < MAX_SAFE)
      && Current(t.rows, key, expected)
      && (waiting && cap.Some? ==> |WaitingOthers(t.rows, key)| < cap.value)
      && (newId.Some? ==> newId.value !in t.ids)
  {
  }

  ghost predicate WithinCap<K, V>(t: Table<K, V>, cap: int)
  {
    |WaitingKeys(t.rows)| <= cap
  }

  /** Whatever is written, the number of waiting records stays within a cap all writers share. */
  lemma CommitKeepsCap<K, V>(t: Table<K, V>, cap: int, key: K, expected: Option<int>, value: V, waiting: bool, newId: Option<Text>)
    requires WithinCap(t, cap)
    ensures WithinCap(Commit(t, Some(cap), key, expected, value, waiting, newId).0, cap)
  {
    var (u, r) := Commit(t, Some(cap), key, expected, value, waiting, newId);
    var others := WaitingOthers(t.rows, key);
    if r.Saved? {
      assert WaitingKeys(u.rows) == others + if waiting then {key} else {};
      assert others <= WaitingKeys(t.rows);
      SubsetSize(others, WaitingKeys(t.rows));
    }
  }

  /** A record that already waits is never refused for the cap. */
  lemma WaitingRecordHasRoom<K, V>(t: Table<K, V>, cap: int, key: K, expected: Option<int>, value: V, newId: Option<Text>)
    requires WithinCap(t, cap) && key in t.rows && t.rows[key].waiting
    ensures Commit(t, Some(cap), key, expected, value, true, newId).1 != Refused(CapReached)
  {
    assert WaitingKeys(t.rows) == WaitingOthers(t.rows, key) + {key};
    assert key !in WaitingOthers(t.rows, key);
  }

  class Store<K(==), V> {
    var rows: map<K, Row<V>>
    var ids: set<Text>
    const cap: Option<int>

    constructor (cap: Option<int>)
      ensures rows == map[] && ids == {} && this.cap == cap
    {
      rows, ids := map[], {};
      this.cap := cap;
    }

    method Read(key: K) returns (row: Option<Row<V>>)
      ensures row == if key in rows then Some(rows[key]) else None
    {
      row := if key in rows then Some(rows[key]) else None;
    }

    /** Insert or compare-and-set the row, then reserve the id; roll the row back if the id is taken. */
    method Write(key: K, expected: Option<int>, value: V, waiting: bool, newId: Option<Text>) returns (r: Outcome<V>)
      modifies this
      ensures (Table(rows, ids), r) == Commit(old(Table(rows, ids)), cap, key, expected, value, waiting, newId)
    {
      if expected.Some? && !(0 <= expected.value < MAX_SAFE) { return Refused(InvalidRevision); }
      var before := rows;
      if waiting && cap.Some? && |WaitingOthers(rows, key)| >= cap.value { return Refused(CapReached); }
      var row := Row(NextRevision(expected), waiting, value);
      if !Current(rows, key, expected) { return Refused(RevisionConflict); }
      rows := rows[key := row];
      if newId.Some? {
        if newId.value in ids {
          rows := before;
          return Refused(IdReserved);
        }
        ids := ids + {newId.value};
      }
      r := Saved(row);
    }
  }
}
