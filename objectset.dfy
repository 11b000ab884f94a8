/** The ObjectSet engine: a persisted set of object ids kept as membership
    rows, a cached `count`, a `modified` stamp and an in-memory `pending`
    buffer.  Every public operation is one transaction: when it fails, every
    field is left as it was. */
module ObjectSets {
  import opened Membership

  class ObjectSet {
    /** Whether the through model subclasses SetObject (rows keep tombstones). */
    const tracked: bool
    /** The object class the set holds. */
    const kind: Kind

    /** The set has a primary key. */
    var bound: bool
    var count: int
    /** The `modified` timestamp, as a tick that each stamping advances. */
    var modified: nat
    var pending: set<Id>
    /** This set's membership rows, keyed by object id. */
    var rows: Rows

    /** An unbound set has no rows and a zero count; an untracked set has no
        tombstones. */
    ghost predicate Valid()
      reads this`bound, this`count, this`rows
    {
      WellFormed(tracked, rows) && (!bound ==> rows == map[] && count == 0)
    }

    /** How far the cached count is from the number of persisted members. */
    ghost function Drift(): int
      reads this`count, this`rows
    {
      count - |Active(rows)|
    }

    ghost predicate CountAccurate()
      reads this`count, this`rows
    {
      Drift() == 0
    }

    /** `_check_type`, over a list of objects. */
    predicate OfKind(objs: seq<Obj>)
    {
      forall k :: 0 <= k < |objs| ==> objs[k].kind == kind
    }

    /** Creates an unbound set holding `ids` in its buffer, and saves it when
        `save` is given. */
    constructor (tracked: bool, kind: Kind, ids: set<Id>, save: bool)
      ensures this.tracked == tracked && this.kind == kind
      ensures Valid() && CountAccurate() && modified == 0
      ensures !save ==> !bound && pending == ids && rows == map[]
      ensures save ==> bound && pending == {} && Active(rows) == ids && rows.Keys == ids
    {
      this.tracked := tracked;
      this.kind := kind;
      bound := false;
      count := 0;
      modified := 0;
      pending := ids;
      rows := map[];
      new;
      if save {
        Save();
      }
    }

    /** `__len__`: the cached count. */
    function Len(): (n: int)
      reads this`bound, this`count, this`rows
      requires Valid()
      ensures !bound ==> n == 0
      ensures CountAccurate() ==> n == |Active(rows)|
    {
      count
    }

    /** `__contains__`: whether a row is stored for the object, tombstones
        included; the buffer and the object's class are not consulted. */
    function Contains(x: Obj): (b: bool)
      reads this`bound, this`count, this`rows
      requires Valid()
      ensures b <==> x.id in Active(rows) + Tombstones(rows)
      ensures !bound ==> !b
      ensures !tracked ==> (b <==> x.id in Active(rows))
    {
      x.id in rows
    }

    /** `_objects`: the effective members, that is the persisted members of
        a bound set together with the buffer. */
    function Effective(): (s: set<Id>)
      reads this`bound, this`rows, this`pending
      ensures pending <= s <= pending + Active(rows)
      ensures bound ==> Active(rows) <= s
      ensures !bound ==> s == pending
    {
      if bound then Active(rows) + pending else pending
    }

    // ------------------------------------------------------------ set algebra

    /** `__and__`: a new unbound set buffering the common effective members. */
    method Intersection(other: ObjectSet) returns (r: ObjectSet)
      ensures fresh(r) && r.Valid() && r.tracked == tracked && r.kind == kind
      ensures !r.bound && r.rows == map[] && r.count == 0
      ensures r.pending == other.Effective() * Effective()
    {
      r := new ObjectSet(tracked, kind, other.Effective() * Effective(), false);
    }

    /** `__or__`: a new unbound set buffering all effective members of both. */
    method Union(other: ObjectSet) returns (r: ObjectSet)
      ensures fresh(r) && r.Valid() && r.tracked == tracked && r.kind == kind
      ensures !r.bound && r.rows == map[] && r.count == 0
      ensures r.pending == other.Effective() + Effective()
    {
      r := new ObjectSet(tracked, kind, other.Effective() + Effective(), false);
    }

    /** `__xor__`: the union with the intersection excluded. */
    method SymmetricDifference(other: ObjectSet) returns (r: ObjectSet)
      ensures fresh(r) && r.Valid() && r.tracked == tracked && r.kind == kind
      ensures !r.bound && r.rows == map[] && r.count == 0
      ensures r.pending == (other.Effective() + Effective()) - (other.Effective() * Effective())
      ensures r.pending == (Effective() - other.Effective()) + (other.Effective() - Effective())
    {
      var excluded := other.Effective() * Effective();
      r := new ObjectSet(tracked, kind, (other.Effective() + Effective()) - excluded, false);
    }

    /** `__sub__`: this set's effective members not in `other`. */
    method Difference(other: ObjectSet) returns (r: ObjectSet)
      ensures fresh(r) && r.Valid() && r.tracked == tracked && r.kind == kind
      ensures !r.bound && r.rows == map[] && r.count == 0
      ensures r.pending == Effective() - other.Effective()
    {
      var excluded := other.Effective();
      r := new ObjectSet(tracked, kind, Effective() - excluded, false);
    }

    /** `__iand__`: only the buffer is reassigned. */
    method IntersectWith(other: ObjectSet)
      modifies this`pending
      ensures pending == old(other.Effective()) * old(Effective())
    {
      pending := other.Effective() * Effective();
    }

    /** `__ior__`: only the buffer is reassigned. */
    method UnionWith(other: ObjectSet)
      modifies this`pending
      ensures pending == old(other.Effective()) + old(Effective())
    {
      pending := other.Effective() + Effective();
    }

    /** `__ixor__`: only the buffer is reassigned. */
    method SymmetricDifferenceWith(other: ObjectSet)
      modifies this`pending
      ensures pending == (old(other.Effective()) + old(Effective())) - (old(other.Effective()) * old(Effective()))
    {
      var excluded := other.Effective() * Effective();
      pending := (other.Effective() + Effective()) - excluded;
    }

    /** `__isub__`: only the buffer is reassigned. */
    method DifferenceWith(other: ObjectSet)
      modifies this`pending
      ensures pending == old(Effective()) - old(other.Effective())
    {
      var excluded := other.Effective();
      pending := Effective() - excluded;
    }

    // ------------------------------------------------------------ engine

    /** `_add`: stores the object unless it is already a member; the caller
        has checked the primary key. */
    method AddObject(x: Obj, flag: bool) returns (r: Result<bool>)
      requires Valid() && bound
      modifies this`rows
      ensures Valid()
      ensures x.kind != kind ==> r == Err(TypeError) && rows == old(rows)
      ensures x.kind == kind ==> r == Ok(Adds(tracked, old(rows), x.id))
      ensures x.kind == kind ==> rows == AddRow(tracked, old(rows), x.id, flag)
    {
      if x.kind != kind {
        return Err(TypeError);
      }
      if !tracked {
        if x.id in rows {
          return Ok(false);
        }
        rows := rows[x.id := Row(false, false)];
      } else if x.id in rows {
        if !rows[x.id].removed {
          return Ok(false);
        }
        rows := rows[x.id := Row(flag, false)];
      } else {
        rows := rows[x.id := Row(flag, false)];
      }
      return Ok(true);
    }

    /** `add` up to its closing `save()`: true exactly when the object was
        not a member; then the count goes up by one and the set is stamped. */
    method AddStep(x: Obj, flag: bool) returns (r: Result<bool>)
      requires Valid()
      modifies this`rows, this`count, this`modified
      ensures Valid() && Drift() == old(Drift())
      ensures !old(bound) ==> r == Err(ObjectSetError) && unchanged(this)
      ensures old(bound) && x.kind != kind ==> r == Err(TypeError) && unchanged(this)
      ensures old(bound) && x.kind == kind ==>
        && r == Ok(x.id !in old(Active(rows)))
        && rows == AddRow(tracked, old(rows), x.id, flag)
        && Active(rows) == old(Active(rows)) + {x.id}
        && count == old(count) + (if r.value then 1 else 0)
        && modified == old(modified) + (if r.value then 1 else 0)
      ensures r == Ok(false) ==> unchanged(this)
      ensures old(bound) && x.kind == kind && x.id in old(Tombstones(rows)) ==>
        r == Ok(true) && rows.Keys == old(rows.Keys) && rows[x.id] == Row(flag, false)
    {
      if !bound {
        return Err(ObjectSetError);
      }
      AddKeepsCount(tracked, rows, x.id, flag);
      r := AddObject(x, flag);
      if r == Ok(true) {
        count := count + 1;
        modified := modified + 1;
      }
    }

    /** `remove` up to its closing `save()`: erases the row on a delete or
        in an untracked set, and otherwise turns an active row into a
        tombstone.  A delete of a
        tombstone still reports true and decrements the count, so the count
        then drifts one below the number of members. */
    method RemoveStep(x: Obj, delete: bool) returns (r: Result<bool>)
      requires Valid()
      modifies this`rows, this`count, this`modified
      ensures Valid()
      ensures !old(bound) ==> r == Err(ObjectSetError) && unchanged(this)
      ensures old(bound) && x.kind != kind ==> r == Err(TypeError) && unchanged(this)
      ensures old(bound) && x.kind == kind ==>
        && r == Ok(Removes(tracked, old(rows), x.id, delete))
        && rows == RemoveRow(tracked, old(rows), x.id, delete)
        && Active(rows) == old(Active(rows)) - {x.id}
        && count == old(count) - (if r.value then 1 else 0)
        && modified == old(modified) + (if r.value then 1 else 0)
      ensures r == Ok(false) ==> unchanged(this)
      ensures old(bound) && x.kind == kind && x.id !in old(rows) ==> r == Ok(false)
      ensures Drift() == old(Drift())
        - (if old(bound) && x.kind == kind && delete && x.id in old(Tombstones(rows)) then 1 else 0)
    {
      if !bound {
        return Err(ObjectSetError);
      }
      if x.kind != kind {
        return Err(TypeError);
      }
      if x.id !in rows {
        return Ok(false);
      }
      if delete || !tracked {
        rows := rows - {x.id};
      } else {
        if rows[x.id].removed {
          return Ok(false);
        }
        rows := rows[x.id := Row(rows[x.id].added, true)];
      }
      if delete && x.id in old(Tombstones(rows)) {
        DeleteTombstoneKeepsMembers(old(rows), x.id);
      } else {
        RemoveKeepsCount(tracked, old(rows), x.id, delete);
      }
      count := count - 1;
      modified := modified + 1;
      return Ok(true);
    }

    /** `bulk` up to its closing `save()`: loads every object as a new row
        in one batch.  Any object of
        another class, or any object that already has a row or appears twice
        in the batch, fails the whole call. */
    method BulkStep(objs: seq<Obj>, flag: bool) returns (r: Result<int>)
      requires Valid()
      modifies this`rows, this`count
      ensures Valid() && Drift() == old(Drift())
      ensures !old(bound) ==> r == Err(ObjectSetError)
      ensures old(bound) && !OfKind(objs) ==> r == Err(TypeError)
      ensures old(bound) && OfKind(objs) && BulkConflicts(old(rows), Ids(objs)) ==> r == Err(IntegrityError)
      ensures r.Err? ==> unchanged(this)
      ensures r.Ok? <==> old(bound) && OfKind(objs) && !BulkConflicts(old(rows), Ids(objs))
      ensures r.Ok? ==>
        && r.value == |objs|
        && rows == BulkRows(tracked, old(rows), Elements(Ids(objs)), flag)
        && Active(rows) == old(Active(rows)) + Elements(Ids(objs))
        && count == old(count) + |objs|
    {
      if !bound {
        return Err(ObjectSetError);
      }
      var batch: seq<Id> := [];
      var loaded := 0;
      for k := 0 to |objs|
        invariant |batch| == k && loaded == k
        invariant forall j :: 0 <= j < k ==> batch[j] == objs[j].id && objs[j].kind == kind
      {
        if objs[k].kind != kind {
          return Err(TypeError);
        }
        batch := batch + [objs[k].id];
        loaded := loaded + 1;
      }
      assert batch == Ids(objs);
      if BulkConflicts(rows, batch) {
        return Err(IntegrityError);
      }
      BulkLoadsAll(tracked, rows, batch, flag);
      rows := BulkRows(tracked, rows, Elements(batch), flag);
      count := count + loaded;
      return Ok(loaded);
    }

    /** The loop of `update`: `_add` on each object in turn, the running
        tally passed as the `added` flag.  An object of another class stops
        the loop and restores the rows as they were before it. */
    method AddEach(objs: seq<Obj>) returns (r: Result<nat>)
      requires Valid() && bound
      modifies this`rows
      ensures Valid()
      ensures r.Ok? <==> OfKind(objs)
      ensures r.Err? ==> r.error == TypeError && rows == old(rows)
      ensures r.Ok? ==> (rows, r.value) == UpdateFold(tracked, old(rows), Ids(objs))
    {
      var savepoint := rows;
      ghost var ids := Ids(objs);
      var added: nat := 0;
      for k := 0 to |objs|
        invariant Valid()
        invariant forall j :: 0 <= j < k ==> objs[j].kind == kind
        invariant rows == UpdateFold(tracked, savepoint, ids[..k]).0
        invariant added == UpdateFold(tracked, savepoint, ids[..k]).1
      {
        var ok := AddObject(objs[k], added != 0);
        if ok.Err? {
          rows := savepoint;
          return Err(TypeError);
        }
        UpdateFoldPrefix(tracked, savepoint, ids, k);
        if ok.value {
          added := added + 1;
        }
      }
      assert ids[..|objs|] == ids;
      return Ok(added);
    }

    /** `update` up to its closing `save()`: `_add` on each object in turn.
        Returns the number of objects that became members; present members
        and repeats are
        skipped.  An object of another class rolls the whole call back. */
    method UpdateStep(objs: seq<Obj>) returns (r: Result<int>)
      requires Valid()
      modifies this`rows, this`count, this`modified
      ensures Valid() && Drift() == old(Drift())
      ensures !old(bound) ==> r == Err(ObjectSetError)
      ensures old(bound) && !OfKind(objs) ==> r == Err(TypeError)
      ensures r.Err? ==> unchanged(this)
      ensures r.Ok? <==> old(bound) && OfKind(objs)
      ensures r.Ok? ==>
        && r.value == |Elements(Ids(objs)) - old(Active(rows))|
        && Active(rows) == old(Active(rows)) + Elements(Ids(objs))
        && rows.Keys == old(rows.Keys) + Elements(Ids(objs))
        && rows == UpdateFold(tracked, old(rows), Ids(objs)).0
        && count == old(count) + r.value
        && modified == old(modified) + 1
    {
      if !bound {
        return Err(ObjectSetError);
      }
      ghost var before := rows;
      var done := AddEach(objs);
      if done.Err? {
        return Err(TypeError);
      }
      UpdateFoldRows(tracked, before, Ids(objs));
      UpdateFoldTally(tracked, before, Ids(objs));
      UpdateKeepsCount(tracked, before, Ids(objs));
      count := count + done.value;
      modified := modified + 1;
      return Ok(done.value);
    }

    /** `clear` up to its closing `save()`: returns the cached count,
        empties the set and zeroes the count; rows become tombstones unless
        deleted. */
    method ClearStep(delete: bool) returns (r: Result<int>)
      requires Valid()
      modifies this`rows, this`count, this`modified
      ensures Valid()
      ensures !old(bound) ==> r == Err(ObjectSetError) && unchanged(this)
      ensures old(bound) ==>
        && r == Ok(old(count))
        && rows == ClearRows(tracked, old(rows), delete)
        && Active(rows) == {}
        && count == 0 && CountAccurate()
        && modified == old(modified) + 1
    {
      if !bound {
        return Err(ObjectSetError);
      }
      var removed := count;
      rows := ClearRows(tracked, rows, delete);
      count := 0;
      modified := modified + 1;
      return Ok(removed);
    }

    /** The `bulk` half of `replace`, into the table left after `clear`:
        an id that already has a row, or a repeat within the batch,
        conflicts. */
    method Reload(objs: seq<Obj>) returns (r: Result<int>)
      requires Valid() && bound && CountAccurate()
      modifies this`rows, this`count
      ensures Valid()
      ensures !OfKind(objs) ==> r == Err(TypeError)
      ensures OfKind(objs) && !(Distinct(Ids(objs)) && Elements(Ids(objs)) !! old(rows.Keys)) ==>
        r == Err(IntegrityError)
      ensures r.Ok? <==> OfKind(objs) && Distinct(Ids(objs)) && Elements(Ids(objs)) !! old(rows.Keys)
      ensures r.Ok? ==>
        && r.value == |Elements(Ids(objs))|
        && rows == BulkRows(tracked, old(rows), Elements(Ids(objs)), false)
        && Active(rows) == old(Active(rows)) + Elements(Ids(objs))
        && CountAccurate()
    {
      ConflictsIff(rows, Ids(objs));
      r := BulkStep(objs, false);
      if r.Ok? {
        DistinctCard(Ids(objs));
      }
    }

    /** The `update` half of `replace`, over the tombstones `clear` left. */
    method Readd(objs: seq<Obj>) returns (r: Result<int>)
      requires Valid() && bound && Active(rows) == {} && count == 0
      modifies this`rows, this`count, this`modified
      ensures Valid()
      ensures !OfKind(objs) ==> r == Err(TypeError)
      ensures r.Ok? <==> OfKind(objs)
      ensures r.Ok? ==>
        && r.value == |Elements(Ids(objs))|
        && rows == UpdateFold(tracked, old(rows), Ids(objs)).0
        && rows.Keys == old(rows.Keys) + Elements(Ids(objs))
        && Active(rows) == Elements(Ids(objs))
        && CountAccurate()
        && modified == old(modified) + 1
    {
      r := UpdateStep(objs);
      assert Elements(Ids(objs)) - {} == Elements(Ids(objs));
    }

    /** `replace(pending)` as `save()` issues it: the buffer has just been
        emptied, so the `save()` calls nested in it persist only the fields.
        `clear`, then `bulk` in an untracked set and `update` in a tracked
        one; the members become exactly the buffered ids. */
    method Refresh(objs: seq<Obj>)
      requires Valid() && bound
      requires OfKind(objs) && Distinct(Ids(objs))
      modifies this`rows, this`count, this`modified
      ensures Valid() && CountAccurate()
      ensures Active(rows) == Elements(Ids(objs))
      ensures rows.Keys == if tracked then old(rows.Keys) + Elements(Ids(objs)) else Elements(Ids(objs))
    {
      var _ := ClearStep(false);
      if !tracked {
        var done := Reload(objs);
        assert done.Ok?;
      } else {
        var done := Readd(objs);
        assert done.Ok?;
      }
    }

    /** `purge`: erases the tombstones; members and count are untouched. */
    method Purge() returns (r: Outcome)
      requires Valid()
      modifies this`rows
      ensures Valid() && Drift() == old(Drift())
      ensures !old(bound) ==> r == Fail(ObjectSetError) && rows == old(rows)
      ensures old(bound) ==> r == Pass && rows == PurgeRows(tracked, old(rows))
      ensures Active(rows) == old(Active(rows))
    {
      if !bound {
        return Fail(ObjectSetError);
      }
      if tracked {
        rows := PurgeRows(tracked, rows);
      }
      return Pass;
    }

    /** `list(self._pending)`: the buffered ids as objects of the set's class. */
    method Listed(ids: set<Id>) returns (objs: seq<Obj>)
      ensures OfKind(objs) && Distinct(Ids(objs)) && Elements(Ids(objs)) == ids
    {
      objs := [];
      var rest := ids;
      while rest != {}
        invariant rest <= ids
        invariant OfKind(objs) && Distinct(Ids(objs))
        invariant Elements(Ids(objs)) == ids - rest
        decreases |rest|
      {
        var i := Pick(rest);
        var next := objs + [Obj(kind, i)];
        AppendId(objs, Obj(kind, i));
        objs := next;
        rest := rest - {i};
      }
    }

    /** The first flush of a new set: `bulk` of the buffered objects into
        an empty table, which cannot conflict. */
    method LoadFirst(objs: seq<Obj>)
      requires Valid() && bound && rows == map[] && count == 0
      requires OfKind(objs) && Distinct(Ids(objs))
      modifies this`rows, this`count
      ensures Valid() && CountAccurate()
      ensures Active(rows) == Elements(Ids(objs)) && rows.Keys == Elements(Ids(objs))
    {
      assert !BulkConflicts(rows, Ids(objs));
      var done := BulkStep(objs, false);
      assert done.Ok?;
      DistinctCard(Ids(objs));
    }

    /** `save()` on a bound set, as every engine operation ends: a non-empty
        buffer is flushed by `replace` and emptied, so that the buffer
        becomes the members. */
    method Flush()
      requires Valid() && bound
      modifies this`rows, this`count, this`modified, this`pending
      ensures Valid() && pending == {}
      ensures old(pending) == {} ==> unchanged(this)
      ensures old(pending) != {} ==> Active(rows) == old(pending) && CountAccurate()
      ensures old(pending) != {} ==>
        rows.Keys == (if tracked then old(rows.Keys) + old(pending) else old(pending))
    {
      if pending != {} {
        var objs := Listed(pending);
        pending := {};
        Refresh(objs);
      }
    }

    /** `save`: binds the set, then flushes a non-empty buffer, by `bulk` on
        the first save and by `replace` afterwards, and empties it. */
    method Save()
      requires Valid()
      modifies this
      ensures Valid() && bound && pending == {}
      ensures old(pending) == {} ==> rows == old(rows) && count == old(count) && modified == old(modified)
      ensures old(pending) != {} ==> Active(rows) == old(pending) && CountAccurate()
      ensures old(pending) != {} && !old(bound) ==> rows.Keys == old(pending) && modified == old(modified)
      ensures old(pending) != {} && old(bound) ==> rows.Keys == (if tracked then old(rows.Keys) + old(pending) else old(pending))
      ensures !old(bound) ==> CountAccurate()
    {
      var isNew := !bound;
      bound := true;
      if !isNew {
        Flush();
      } else if pending != {} {
        var objs := Listed(pending);
        pending := {};
        LoadFirst(objs);
      }
    }

    // ------------------------------------------------------------ operations

    /** `add`: `_add`, then, when the object was stored, the count goes up
        by one and the set is stamped and saved.  The closing save flushes a
        non-empty buffer, which then becomes the members. */
    method Add(x: Obj, flag: bool) returns (r: Result<bool>)
      requires Valid()
      modifies this`rows, this`count, this`modified, this`pending
      ensures Valid()
      ensures !old(bound) ==> r == Err(ObjectSetError) && unchanged(this)
      ensures old(bound) && x.kind != kind ==> r == Err(TypeError) && unchanged(this)
      ensures old(bound) && x.kind == kind ==> r == Ok(x.id !in old(Active(rows)))
      ensures r == Ok(false) ==> unchanged(this)
      ensures r == Ok(true) && old(pending) == {} ==>
        && rows == AddRow(tracked, old(rows), x.id, flag)
        && Active(rows) == old(Active(rows)) + {x.id}
        && count == old(count) + 1 && Drift() == old(Drift())
        && modified == old(modified) + 1 && pending == {}
      ensures r == Ok(true) && old(pending) != {} ==>
        Active(rows) == old(pending) && CountAccurate() && pending == {}
    {
      r := AddStep(x, flag);
      if r == Ok(true) {
        Flush();
      }
    }

    /** `remove`: the row is erased or tombstoned, the count goes down by
        one and the set is stamped and saved; nothing is saved when the call
        reports false. */
    method Remove(x: Obj, delete: bool) returns (r: Result<bool>)
      requires Valid()
      modifies this`rows, this`count, this`modified, this`pending
      ensures Valid()
      ensures !old(bound) ==> r == Err(ObjectSetError) && unchanged(this)
      ensures old(bound) && x.kind != kind ==> r == Err(TypeError) && unchanged(this)
      ensures old(bound) && x.kind == kind ==> r == Ok(Removes(tracked, old(rows), x.id, delete))
      ensures r == Ok(false) ==> unchanged(this)
      ensures r == Ok(true) && old(pending) == {} ==>
        && rows == RemoveRow(tracked, old(rows), x.id, delete)
        && Active(rows) == old(Active(rows)) - {x.id}
        && count == old(count) - 1
        && modified == old(modified) + 1 && pending == {}
      ensures old(pending) == {} ==>
        Drift() == old(Drift()) - (if old(bound) && x.kind == kind && delete && x.id in old(Tombstones(rows)) then 1 else 0)
      ensures r == Ok(true) && old(pending) != {} ==>
        Active(rows) == old(pending) && CountAccurate() && pending == {}
    {
      r := RemoveStep(x, delete);
      if r == Ok(true) {
        Flush();
      }
    }

    /** `bulk`: the batch is loaded and the set saved; the count grows by the
        batch size and the set is not stamped. */
    method Bulk(objs: seq<Obj>, flag: bool) returns (r: Result<int>)
      requires Valid()
      modifies this`rows, this`count, this`modified, this`pending
      ensures Valid()
      ensures !old(bound) ==> r == Err(ObjectSetError)
      ensures old(bound) && !OfKind(objs) ==> r == Err(TypeError)
      ensures old(bound) && OfKind(objs) && BulkConflicts(old(rows), Ids(objs)) ==> r == Err(IntegrityError)
      ensures r.Err? ==> unchanged(this)
      ensures r.Ok? <==> old(bound) && OfKind(objs) && !BulkConflicts(old(rows), Ids(objs))
      ensures r.Ok? ==> r.value == |objs|
      ensures r.Ok? && old(pending) == {} ==>
        && rows == BulkRows(tracked, old(rows), Elements(Ids(objs)), flag)
        && Active(rows) == old(Active(rows)) + Elements(Ids(objs))
        && count == old(count) + |objs| && Drift() == old(Drift())
        && modified == old(modified) && pending == {}
      ensures r.Ok? && old(pending) != {} ==>
        Active(rows) == old(pending) && CountAccurate() && pending == {}
    {
      r := BulkStep(objs, flag);
      if r.Ok? {
        Flush();
      }
    }

    /** `update`: the objects not yet members are added, then the count
        grows by their number and the set is stamped and saved. */
    method Update(objs: seq<Obj>) returns (r: Result<int>)
      requires Valid()
      modifies this`rows, this`count, this`modified, this`pending
      ensures Valid()
      ensures !old(bound) ==> r == Err(ObjectSetError)
      ensures old(bound) && !OfKind(objs) ==> r == Err(TypeError)
      ensures r.Err? ==> unchanged(this)
      ensures r.Ok? <==> old(bound) && OfKind(objs)
      ensures r.Ok? ==> r.value == |Elements(Ids(objs)) - old(Active(rows))|
      ensures r.Ok? && old(pending) == {} ==>
        && rows == UpdateFold(tracked, old(rows), Ids(objs)).0
        && Active(rows) == old(Active(rows)) + Elements(Ids(objs))
        && count == old(count) + r.value && Drift() == old(Drift())
        && modified == old(modified) + 1 && pending == {}
      ensures r.Ok? && old(pending) != {} ==>
        Active(rows) == old(pending) && CountAccurate() && pending == {}
    {
      r := UpdateStep(objs);
      if r.Ok? {
        Flush();
      }
    }

    /** `clear`: returns the cached count; afterwards the members are what
        the buffer held (none, when it was empty) and the count is exact. */
    method Clear(delete: bool) returns (r: Result<int>)
      requires Valid()
      modifies this`rows, this`count, this`modified, this`pending
      ensures Valid()
      ensures !old(bound) ==> r == Err(ObjectSetError) && unchanged(this)
      ensures old(bound) ==>
        && r == Ok(old(count))
        && Active(rows) == old(pending) && CountAccurate() && pending == {}
      ensures old(bound) && (delete || !tracked) ==> rows.Keys == old(pending)
      ensures old(bound) && old(pending) == {} ==>
        && rows == ClearRows(tracked, old(rows), delete)
        && count == 0 && modified == old(modified) + 1
    {
      r := ClearStep(delete);
      if r.Ok? {
        Flush();
      }
    }

    /** `replace`: `clear` (whose closing save flushes the buffer), then
        `bulk` on a delete or in an untracked set and `update` otherwise.
        The members become the buffered ids together with the given
        objects; a failure rolls the whole call back. */
    method Replace(objs: seq<Obj>, delete: bool) returns (r: Result<int>)
      requires Valid()
      modifies this`rows, this`count, this`modified, this`pending
      ensures Valid()
      ensures !old(bound) ==> r == Err(ObjectSetError)
      ensures old(bound) && !OfKind(objs) ==> r == Err(TypeError)
      ensures old(bound) && OfKind(objs) && (delete || !tracked) && !(Distinct(Ids(objs)) && Elements(Ids(objs)) !! old(pending)) ==>
        r == Err(IntegrityError)
      ensures r.Err? ==> unchanged(this)
      ensures r.Ok? <==>
        old(bound) && OfKind(objs) && (delete || !tracked ==> Distinct(Ids(objs)) && Elements(Ids(objs)) !! old(pending))
      ensures r.Ok? ==>
        Active(rows) == old(pending) + Elements(Ids(objs)) && CountAccurate() && pending == {}
      ensures r.Ok? && (delete || !tracked) ==> r.value == |Elements(Ids(objs))|
      ensures r.Ok? && !(delete || !tracked) ==> r.value == |Elements(Ids(objs)) - old(pending)|
      ensures r.Ok? && old(pending) == {} && (delete || !tracked) ==>
        && rows == BulkRows(tracked, map[], Elements(Ids(objs)), false)
        && modified == old(modified) + 1
      ensures r.Ok? && old(pending) == {} && !(delete || !tracked) ==>
        && rows == UpdateFold(tracked, ClearRows(tracked, old(rows), false), Ids(objs)).0
        && rows.Keys == old(rows.Keys) + Elements(Ids(objs))
        && modified == old(modified) + 2
    {
      if !bound {
        return Err(ObjectSetError);
      }
      var savedRows, savedCount, savedModified, savedPending := rows, count, modified, pending;
      var _ := Clear(delete);
      if delete || !tracked {
        r := Reload(objs);
      } else {
        r := UpdateStep(objs);
      }
      if r.Err? {
        rows, count, modified, pending := savedRows, savedCount, savedModified, savedPending;
      }
    }
  }
}
