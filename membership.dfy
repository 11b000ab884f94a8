/** The membership table of one object set: one row per (set, object) pair.

    A row of a tracked set (whose through model subclasses SetObject) carries
    the `added` and `removed` flags; a removed row is kept as a tombstone.
    A row of an untracked set carries no flags: it is stored here as
    Row(false, false), and removing it deletes it.  The functions below give
    the effect of each engine operation on the rows; the class in module
    ObjectSets is proved against them. */
module Membership {

  /** Primary key of a domain object. */
  type Id = int

  /** The object class a set type is configured with. */
  type Kind = string

  /** A domain object handed to the engine: its class and its primary key. */
  datatype Obj = Obj(kind: Kind, id: Id)

  /** The SetObject flags of one membership row. */
  datatype Row = Row(added: bool, removed: bool)

  type Rows = map<Id, Row>

  /** ObjectSetError: the set has no primary key yet.  TypeError: an object
      of another class.  IntegrityError: bulk_create hit the unique
      (set, object) pair. */
  datatype Error = ObjectSetError | TypeError | IntegrityError

  datatype Result<T> = Ok(value: T) | Err(error: Error)

  datatype Outcome = Pass | Fail(error: Error)

  /** The ids whose row is not a tombstone: the persisted members. */
  function Active(rows: Rows): set<Id>
  {
    set i | i in rows && !rows[i].removed
  }

  /** The ids whose row is kept with `removed` set. */
  function Tombstones(rows: Rows): set<Id>
  {
    set i | i in rows && rows[i].removed
  }

  /** An untracked table has no flags, so none of its rows is a tombstone. */
  ghost predicate WellFormed(tracked: bool, rows: Rows)
  {
    !tracked ==> forall i :: i in rows ==> rows[i] == Row(false, false)
  }

  function Ids(objs: seq<Obj>): (ids: seq<Id>)
    ensures |ids| == |objs|
    ensures forall k :: 0 <= k < |objs| ==> ids[k] == objs[k].id
  {
    seq(|objs|, k requires 0 <= k < |objs| => objs[k].id)
  }

  function Elements(ids: seq<Id>): set<Id>
  {
    set i | i in ids
  }

  /** A set with no member is the empty set. */
  lemma NoneIsEmpty(s: set<Id>)
    ensures (forall i :: i !in s) ==> s == {}
  {
    if forall i :: i !in s {
      assert forall i :: i in s <==> i in {};
    }
  }

  /** Some member of a non-empty set of ids, in no particular order. */
  method Pick(s: set<Id>) returns (i: Id)
    requires s != {}
    ensures i in s
  {
    NoneIsEmpty(s);
    i :| i in s;
  }

  predicate Distinct(ids: seq<Id>)
  {
    forall j, k :: 0 <= j < k < |ids| ==> ids[j] != ids[k]
  }

  /** Appending an object not yet listed keeps the id list free of repeats. */
  lemma AppendId(objs: seq<Obj>, x: Obj)
    ensures Ids(objs + [x]) == Ids(objs) + [x.id]
    ensures Elements(Ids(objs + [x])) == Elements(Ids(objs)) + {x.id}
    ensures Distinct(Ids(objs)) && x.id !in Elements(Ids(objs)) ==> Distinct(Ids(objs + [x]))
  {
    var ids := Ids(objs) + [x.id];
    assert Ids(objs + [x]) == ids;
    forall j | j in Elements(ids) ensures j in Elements(Ids(objs)) + {x.id} {
      var k :| 0 <= k < |ids| && ids[k] == j;
      if k < |objs| { assert Ids(objs)[k] == j; }
    }
    forall j | j in Elements(Ids(objs)) ensures j in Elements(ids) {
      var k :| 0 <= k < |objs| && Ids(objs)[k] == j;
      assert ids[k] == j;
    }
  }

  /** A list without repeats has as many distinct elements as entries. */
  lemma {:induction false} DistinctCard(ids: seq<Id>)
    requires Distinct(ids)
    ensures |Elements(ids)| == |ids|
  {
    if ids != [] {
      var rest := ids[1..];
      assert Distinct(rest) by {
        forall j, k | 0 <= j < k < |rest| ensures rest[j] != rest[k] {
          assert rest[j] == ids[j + 1] && rest[k] == ids[k + 1];
        }
      }
      DistinctCard(rest);
      assert Elements(ids) == {ids[0]} + Elements(rest) by {
        forall i | i in Elements(ids) ensures i in {ids[0]} + Elements(rest) {
          var k :| 0 <= k < |ids| && ids[k] == i;
          if k > 0 { assert rest[k - 1] == i; }
        }
      }
      assert ids[0] !in Elements(rest) by {
        forall k | 0 <= k < |rest| ensures rest[k] != ids[0] {
          assert rest[k] == ids[k + 1];
        }
      }
    }
  }

  lemma DisjointCard(a: set<Id>, b: set<Id>)
    requires a !! b
    ensures |a + b| == |a| + |b|
  {
  }

  /** Storing one row changes the two views at that id only. */
  lemma StoreRow(rows: Rows, id: Id, row: Row)
    ensures Active(rows[id := row]) == (Active(rows) - {id}) + (if row.removed then {} else {id})
    ensures Tombstones(rows[id := row]) == (Tombstones(rows) - {id}) + (if row.removed then {id} else {})
  {
    var r := rows[id := row];
    forall i | i in Active(r) ensures i in (Active(rows) - {id}) + (if row.removed then {} else {id}) {
      if i != id { assert i in rows && rows[i] == r[i]; }
    }
    forall i | i in Tombstones(r) ensures i in (Tombstones(rows) - {id}) + (if row.removed then {id} else {}) {
      if i != id { assert i in rows && rows[i] == r[i]; }
    }
  }

  /** Erasing one row takes that id out of both views. */
  lemma EraseRow(rows: Rows, id: Id)
    ensures Active(rows - {id}) == Active(rows) - {id}
    ensures Tombstones(rows - {id}) == Tombstones(rows) - {id}
  {
    var r := rows - {id};
    forall i | i in Active(r) ensures i in Active(rows) - {id} {
      assert i in rows && rows[i] == r[i];
    }
    forall i | i in Tombstones(r) ensures i in Tombstones(rows) - {id} {
      assert i in rows && rows[i] == r[i];
    }
  }

  // ---------------------------------------------------------------- _add

  /** Whether `_add` stores the object: there is no row yet, or (tracked
      only) its row is a tombstone. */
  predicate Adds(tracked: bool, rows: Rows, id: Id)
  {
    id !in rows || (tracked && rows[id].removed)
  }

  /** The rows after `_add(obj, flag)` for an object of the right class: a
      new row, or the tombstone brought back with `added` set to the flag;
      an untracked row never carries the flag. */
  function AddRow(tracked: bool, rows: Rows, id: Id, flag: bool): (r: Rows)
    requires WellFormed(tracked, rows)
    ensures WellFormed(tracked, r)
    ensures Adds(tracked, rows, id) <==> id !in Active(rows)
    ensures Active(r) == Active(rows) + {id}
    ensures Tombstones(r) == Tombstones(rows) - {id}
    ensures r.Keys == rows.Keys + {id}
    ensures Adds(tracked, rows, id) ==> r[id] == Row(tracked && flag, false)
    ensures !Adds(tracked, rows, id) ==> r == rows
    ensures forall j :: j in rows && j != id ==> r[j] == rows[j]
  {
    if Adds(tracked, rows, id) then
      StoreRow(rows, id, Row(tracked && flag, false));
      rows[id := Row(tracked && flag, false)]
    else rows
  }

  /** `add` keeps the cached count exact: it increments exactly when `_add`
      stores a row, and then there is one more member. */
  lemma AddKeepsCount(tracked: bool, rows: Rows, id: Id, flag: bool)
    requires WellFormed(tracked, rows)
    ensures |Active(AddRow(tracked, rows, id, flag))|
            == |Active(rows)| + (if Adds(tracked, rows, id) then 1 else 0)
  {
    if Adds(tracked, rows, id) {
      DisjointCard(Active(rows), {id});
    }
  }

  // ---------------------------------------------------------------- remove

  /** What `remove` returns for an object of the right class: false when
      there is no row, and false for a tombstone that is kept; a delete
      (requested, or because the set is untracked) reports true even for a
      tombstone. */
  predicate Removes(tracked: bool, rows: Rows, id: Id, delete: bool)
  {
    id in rows && (delete || !tracked || !rows[id].removed)
  }

  /** The rows after `remove(obj, delete)`: the row is erased on a delete,
      otherwise an active row becomes a tombstone keeping its `added` flag. */
  function RemoveRow(tracked: bool, rows: Rows, id: Id, delete: bool): (r: Rows)
    requires WellFormed(tracked, rows)
    ensures WellFormed(tracked, r)
    ensures Active(r) == Active(rows) - {id}
    ensures !Removes(tracked, rows, id, delete) ==> r == rows
    ensures Removes(tracked, rows, id, delete) && (delete || !tracked) ==> r.Keys == rows.Keys - {id}
    ensures !(delete || !tracked) ==> r.Keys == rows.Keys
    ensures !(delete || !tracked) && id in rows ==> r[id] == Row(rows[id].added, true)
    ensures forall j :: j in rows && j != id ==> j in r && r[j] == rows[j]
  {
    if !Removes(tracked, rows, id, delete) then rows
    else if delete || !tracked then
      EraseRow(rows, id);
      rows - {id}
    else
      StoreRow(rows, id, Row(rows[id].added, true));
      rows[id := Row(rows[id].added, true)]
  }

  /** `remove` keeps the cached count exact (it decrements exactly when an
      active row goes away) except when asked to delete a tombstone. */
  lemma RemoveKeepsCount(tracked: bool, rows: Rows, id: Id, delete: bool)
    requires WellFormed(tracked, rows)
    requires !(delete && id in Tombstones(rows))
    ensures Removes(tracked, rows, id, delete) <==> id in Active(rows)
    ensures |Active(RemoveRow(tracked, rows, id, delete))|
            == |Active(rows)| - (if Removes(tracked, rows, id, delete) then 1 else 0)
  {
    var r := RemoveRow(tracked, rows, id, delete);
    if id in Active(rows) {
      assert Active(r) + {id} == Active(rows);
    } else {
      assert Active(r) == Active(rows);
    }
  }

  /** The exception: deleting a tombstone reports a removal, so `remove`
      decrements the count, while the persisted members stay the same. */
  lemma DeleteTombstoneKeepsMembers(rows: Rows, id: Id)
    requires WellFormed(true, rows)
    requires id in Tombstones(rows)
    ensures Removes(true, rows, id, true)
    ensures Active(RemoveRow(true, rows, id, true)) == Active(rows)
    ensures RemoveRow(true, rows, id, true).Keys == rows.Keys - {id}
  {
    assert id !in Active(rows);
  }

  // ---------------------------------------------------------------- bulk

  /** bulk_create fails on the unique (set, object) pair: a repeat within
      the batch, or an object that already has a row, tombstone or not. */
  predicate BulkConflicts(rows: Rows, ids: seq<Id>)
  {
    !Distinct(ids) || exists k :: 0 <= k < |ids| && ids[k] in rows
  }

  /** A batch conflicts exactly when it repeats an id or meets a stored
      row. */
  lemma ConflictsIff(rows: Rows, ids: seq<Id>)
    ensures BulkConflicts(rows, ids) <==> !(Distinct(ids) && Elements(ids) !! rows.Keys)
  {
    if exists k :: 0 <= k < |ids| && ids[k] in rows {
      var k :| 0 <= k < |ids| && ids[k] in rows;
      assert ids[k] in Elements(ids);
    }
    if !exists k :: 0 <= k < |ids| && ids[k] in rows {
      forall i | i in Elements(ids) ensures i !in rows.Keys {
        var k :| 0 <= k < |ids| && ids[k] == i;
      }
    }
  }

  /** The rows after a successful bulk_create: one fresh active row per id. */
  function BulkRows(tracked: bool, rows: Rows, ids: set<Id>, flag: bool): (r: Rows)
    requires WellFormed(tracked, rows)
    requires ids !! rows.Keys
    ensures WellFormed(tracked, r)
    ensures Active(r) == Active(rows) + ids
    ensures Tombstones(r) == Tombstones(rows)
    ensures r.Keys == rows.Keys + ids
    ensures forall i :: i in rows ==> r[i] == rows[i]
    ensures forall i :: i in ids ==> r[i] == Row(tracked && flag, false)
  {
    var r := rows + map i | i in ids :: Row(tracked && flag, false);
    assert Active(r) == Active(rows) + ids by {
      forall i | i in Active(r) ensures i in Active(rows) + ids {
        if i !in ids { assert i in rows && r[i] == rows[i]; }
      }
    }
    assert Tombstones(r) == Tombstones(rows) by {
      forall i | i in Tombstones(r) ensures i in Tombstones(rows) {
        assert i !in ids && i in rows && r[i] == rows[i];
      }
    }
    r
  }

  /** A batch that bulk_create accepts adds exactly as many members as it
      has entries. */
  lemma BulkLoadsAll(tracked: bool, rows: Rows, ids: seq<Id>, flag: bool)
    requires WellFormed(tracked, rows)
    requires !BulkConflicts(rows, ids)
    ensures Elements(ids) !! rows.Keys
    ensures |Active(BulkRows(tracked, rows, Elements(ids), flag))| == |Active(rows)| + |ids|
  {
    DistinctCard(ids);
    DisjointCard(Active(rows), Elements(ids));
  }

  // ---------------------------------------------------------------- update

  /** The rows and the tally after `update` has applied `_add` to each id
      in turn.  The flag handed to `_add` is the running tally (`update`
      reuses its `added` parameter as the counter), stored as a boolean. */
  function UpdateFold(tracked: bool, rows: Rows, ids: seq<Id>): (res: (Rows, nat))
    requires WellFormed(tracked, rows)
    ensures WellFormed(tracked, res.0)
    decreases |ids|
  {
    if ids == [] then (rows, 0)
    else
      var prev := UpdateFold(tracked, rows, ids[..|ids| - 1]);
      var id := ids[|ids| - 1];
      (AddRow(tracked, prev.0, id, prev.1 != 0),
       prev.1 + if Adds(tracked, prev.0, id) then 1 else 0)
  }

  /** `update` on a list with one more entry does one more `_add`. */
  lemma UpdateFoldSnoc(tracked: bool, rows: Rows, ids: seq<Id>, id: Id)
    requires WellFormed(tracked, rows)
    ensures var prev := UpdateFold(tracked, rows, ids);
      UpdateFold(tracked, rows, ids + [id])
      == (AddRow(tracked, prev.0, id, prev.1 != 0), prev.1 + if Adds(tracked, prev.0, id) then 1 else 0)
  {
    assert (ids + [id])[..|ids|] == ids;
  }

  /** The fold over the first k+1 ids is one more `_add` after the fold
      over the first k. */
  lemma UpdateFoldPrefix(tracked: bool, rows: Rows, ids: seq<Id>, k: nat)
    requires WellFormed(tracked, rows) && k < |ids|
    ensures UpdateFold(tracked, rows, ids[..k + 1]).0
      == AddRow(tracked, UpdateFold(tracked, rows, ids[..k]).0, ids[k], UpdateFold(tracked, rows, ids[..k]).1 != 0)
    ensures UpdateFold(tracked, rows, ids[..k + 1]).1
      == UpdateFold(tracked, rows, ids[..k]).1 + if Adds(tracked, UpdateFold(tracked, rows, ids[..k]).0, ids[k]) then 1 else 0
  {
    assert ids[..k + 1] == ids[..k] + [ids[k]];
    UpdateFoldSnoc(tracked, rows, ids[..k], ids[k]);
  }

  /** `update` makes every given id a member, keeping the rows of the other
      ids as they were. */
  lemma {:induction false} UpdateFoldRows(tracked: bool, rows: Rows, ids: seq<Id>)
    requires WellFormed(tracked, rows)
    ensures Active(UpdateFold(tracked, rows, ids).0) == Active(rows) + Elements(ids)
    ensures UpdateFold(tracked, rows, ids).0.Keys == rows.Keys + Elements(ids)
    ensures forall j :: j in rows && j !in Elements(ids) ==> UpdateFold(tracked, rows, ids).0[j] == rows[j]
    decreases |ids|
  {
    if ids == [] {
      assert Elements(ids) == {};
    } else {
      var init := ids[..|ids| - 1];
      UpdateFoldRows(tracked, rows, init);
      PrefixElements(ids);
    }
  }

  /** The elements of a non-empty list are those of its front and its last entry. */
  lemma PrefixElements(ids: seq<Id>)
    requires ids != []
    ensures Elements(ids) == Elements(ids[..|ids| - 1]) + {ids[|ids| - 1]}
  {
    var init := ids[..|ids| - 1];
    forall i | i in Elements(ids) ensures i in Elements(init) + {ids[|ids| - 1]} {
      var k :| 0 <= k < |ids| && ids[k] == i;
      if k < |ids| - 1 { assert init[k] == i; }
    }
    forall i | i in Elements(init) ensures i in Elements(ids) {
      var k :| 0 <= k < |init| && init[k] == i;
      assert ids[k] == i;
    }
  }

  /** One step of `update`: the tally grows exactly when the last id is
      neither a member nor seen earlier in the list. */
  lemma UpdateFoldStep(tracked: bool, rows: Rows, ids: seq<Id>)
    requires WellFormed(tracked, rows)
    requires ids != []
    ensures UpdateFold(tracked, rows, ids).1
            == UpdateFold(tracked, rows, ids[..|ids| - 1]).1
               + (if ids[|ids| - 1] in Active(rows) + Elements(ids[..|ids| - 1]) then 0 else 1)
  {
    var init := ids[..|ids| - 1];
    var id := ids[|ids| - 1];
    UpdateFoldRows(tracked, rows, init);
    var prev := UpdateFold(tracked, rows, init);
    var _ := AddRow(tracked, prev.0, id, false);
  }

  /** Counting the new ids of a list one entry at a time. */
  lemma FreshStep(members: set<Id>, ids: seq<Id>)
    requires ids != []
    ensures |Elements(ids) - members|
            == |Elements(ids[..|ids| - 1]) - members|
               + (if ids[|ids| - 1] in members + Elements(ids[..|ids| - 1]) then 0 else 1)
  {
    var init := ids[..|ids| - 1];
    var id := ids[|ids| - 1];
    PrefixElements(ids);
    var before := Elements(init) - members;
    if id in members + Elements(init) {
      assert Elements(ids) - members == before;
    } else {
      assert Elements(ids) - members == before + {id};
      DisjointCard(before, {id});
    }
  }

  /** `update` counts exactly the ids that were not members before: repeats
      and present members are skipped. */
  lemma {:induction false} UpdateFoldTally(tracked: bool, rows: Rows, ids: seq<Id>)
    requires WellFormed(tracked, rows)
    ensures UpdateFold(tracked, rows, ids).1 == |Elements(ids) - Active(rows)|
    decreases |ids|
  {
    if ids == [] {
      assert Elements(ids) == {};
    } else {
      UpdateFoldTally(tracked, rows, ids[..|ids| - 1]);
      UpdateFoldStep(tracked, rows, ids);
      FreshStep(Active(rows), ids);
    }
  }

  /** `update` keeps the cached count exact: the tally it adds to the count
      is the number of members it creates. */
  lemma UpdateKeepsCount(tracked: bool, rows: Rows, ids: seq<Id>)
    requires WellFormed(tracked, rows)
    ensures |Active(UpdateFold(tracked, rows, ids).0)| == |Active(rows)| + UpdateFold(tracked, rows, ids).1
  {
    UpdateFoldRows(tracked, rows, ids);
    UpdateFoldTally(tracked, rows, ids);
    var created := Elements(ids) - Active(rows);
    assert Active(rows) + Elements(ids) == Active(rows) + created;
    DisjointCard(Active(rows), created);
  }

  // ---------------------------------------------------------------- clear, purge

  /** The rows after `clear(delete)`: all rows erased on a delete or in an
      untracked set; otherwise every row kept as a tombstone. */
  function ClearRows(tracked: bool, rows: Rows, delete: bool): (r: Rows)
    requires WellFormed(tracked, rows)
    ensures WellFormed(tracked, r)
    ensures Active(r) == {}
    ensures r.Keys == if delete || !tracked then {} else rows.Keys
    ensures forall i :: i in r ==> r[i] == Row(rows[i].added, true)
  {
    if delete || !tracked then map[]
    else map i | i in rows :: Row(rows[i].added, true)
  }

  /** The rows after `purge`: the tombstones erased, the members untouched;
      nothing happens in an untracked set. */
  function PurgeRows(tracked: bool, rows: Rows): (r: Rows)
    requires WellFormed(tracked, rows)
    ensures WellFormed(tracked, r)
    ensures Active(r) == Active(rows)
    ensures Tombstones(r) == {}
    ensures r.Keys == Active(rows)
    ensures forall i :: i in r ==> r[i] == rows[i]
    ensures !tracked ==> r == rows
  {
    if tracked then
      var r := map i | i in rows && !rows[i].removed :: rows[i];
      assert r.Keys == Active(rows);
      assert Active(r) == Active(rows) by {
        forall i | i in Active(rows) ensures i in Active(r) { assert r[i] == rows[i]; }
      }
      r
    else
      assert Tombstones(rows) == {} by {
        forall i | i in Tombstones(rows) ensures false { assert rows[i] == Row(false, false); }
      }
      assert rows.Keys == Active(rows) by {
        forall i | i in rows ensures i in Active(rows) { assert rows[i] == Row(false, false); }
      }
      rows
  }
}
