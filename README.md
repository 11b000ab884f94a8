# ObjectSet membership engine, in Dafny

This project models the membership engine of django-objectset, `objectset/models.py`.
An `ObjectSet` persists a set of object ids as rows of a through table, one row per (set, object) pair.
It also keeps three other things:

- a cached `count` of its members;
- a `modified` timestamp;
- an in-memory `_pending` buffer. The buffer holds the members the set was built with, or the result of an in-place set operator, until the next `save()`.

A set is *tracked* when its through model subclasses `SetObject`.
In a tracked set, `remove` and `clear` keep rows as tombstones (`removed = True`), and `_add` brings a tombstone back with its `added` flag set.
In an untracked set, every removal deletes the row.

The project has three modules:

- `Membership` (`membership.dfy`) is the pure layer.
  - It holds the row table as `map<Id, Row>` and its two views, the members (`Active`) and the tombstones (`Tombstones`).
  - It gives one function per engine operation, stating that operation's effect on the rows: `AddRow`, `RemoveRow`, `BulkRows`, `UpdateFold`, `ClearRows` and `PurgeRows`.
  - It has lemmas relating each effect to the cached count.
- `ObjectSets` (`objectset.dfy`) is the class `ObjectSet`. Its fields are updated in place, and each of its methods is proved against the functions of `Membership`.
  - The invariant `Valid()` says that an unbound set has no rows and a zero count, and that an untracked set has no tombstones.
  - `Drift()` is the difference between the cached count and the number of members. Every operation either keeps it or resets it to 0, with one exception described below.
  - Each public operation is split at its closing `save()`. The `…Step` method does the operation's own work. `Flush` does the save: when the buffer is non-empty, it replaces the members by the buffer, as `save()` does through `replace(pending)`.
- `Scenarios` (`scenarios.dfy`) replays the situations of `tests/tests.py` as client methods. Each assertion in it follows from the contracts of the class.

Behaviours of the code that the model keeps as written:

- `remove(obj, delete=True)` on a tombstone deletes the row and reports `True`, so `count` drops one below the number of members.
- `update` passes its running tally as `_add`'s `added` flag, so the first object it adds gets `added = False` and later ones get `added = True`.
- `__contains__` counts tombstones as members and ignores the buffer.
- `bulk` does not stamp `modified`.
- `purge` neither stamps nor saves.
- `__len__` of an unsaved set is the stored count, which is 0, not the size of the buffer.
- `add` and `remove` when they report `True`, and `bulk`, `update` and `clear` when they succeed, all end with `save()`. So after one of them on a bound set with a non-empty buffer, the members are exactly the buffer and the operation's own change is lost. (`purge` never saves, and `add`/`remove` reporting `False` return before saving.)
- `replace` first calls `clear`, which flushes the buffer. Its result is therefore the buffer plus the given objects. In the `bulk` branch, an object already in the buffer raises an integrity error.

## Model

| member | source | states |
|---|---|---|
| Membership.Adds | objectset/models.py:227-241 | Defines what `_add` returns: true when the object has no row, or, in a tracked set only, when its row is a tombstone. |
| Membership.AddRow | objectset/models.py:218-241 | `_add` stores the object exactly when it is not a member. The id becomes a member and stops being a tombstone, and other rows are untouched. A new or revived row carries `added` only in a tracked set. A present member leaves the rows unchanged. |
| Membership.AddKeepsCount | objectset/models.py:285-294 | The number of members grows by one exactly when `_add` stores the object, so `add`'s increment keeps the count exact. |
| Membership.Removes | objectset/models.py:302-316 | Defines what `remove` returns for an object of the right class: false without a row; true on a delete or in an untracked set; otherwise true only for an active row. |
| Membership.RemoveRow | objectset/models.py:296-316 | After `remove`, the id is not a member. The row is erased on a delete or in an untracked set, and otherwise becomes a tombstone keeping its `added` flag. A missing row, or a kept tombstone, leaves the rows unchanged, and every other row keeps its value. |
| Membership.RemoveKeepsCount | objectset/models.py:296-316 | Except for a delete of a tombstone, `remove` reports true exactly when the id was a member, and the number of members drops by exactly its decrement. |
| Membership.DeleteTombstoneKeepsMembers | objectset/models.py:302-313 | Deleting a tombstone reports a removal, so the count is decremented, yet the members are unchanged: the count drifts. |
| Membership.BulkConflicts | objectset/models.py:280 | Defines when `bulk_create` hits the unique (set, object) pair: a repeat within the batch, or an id that already has a row. |
| Membership.ConflictsIff | objectset/models.py:280 | `bulk_create` fails exactly when the batch repeats an id or names an id that already has a row, tombstone or not. |
| Membership.BulkRows | objectset/models.py:269-280 | A batch with no conflict adds one fresh active row per id, flagged only in a tracked set. Earlier rows and tombstones are unchanged. |
| Membership.BulkLoadsAll | objectset/models.py:269-283 | A batch that `bulk_create` accepts adds exactly as many members as it has entries, which is the number `bulk` adds to the count. |
| Membership.UpdateFold | objectset/models.py:322-324 | Defines the rows and tally after `update`'s loop: `_add` on each id in turn, flagged by the tally so far. Its contract states that an untracked table stays free of tombstones. |
| Membership.UpdateFoldSnoc | objectset/models.py:323-324 | Proof helper for the loop of `update`: unfolds `UpdateFold` by one step at the end of the list. |
| Membership.UpdateFoldPrefix | objectset/models.py:323-324 | Proof helper for the loop of `update`: the same one-step unfolding, indexed by the loop counter. |
| Membership.UpdateFoldRows | objectset/models.py:318-328 | After `update`, the members are the old members plus every listed id, and rows of unlisted ids are unchanged. |
| Membership.UpdateFoldStep | objectset/models.py:323-324 | The tally grows at an object exactly when it is neither a member nor listed earlier. |
| Membership.UpdateFoldTally | objectset/models.py:318-328 | `update` returns the number of listed ids that were not members, skipping repeats and present members. |
| Membership.UpdateKeepsCount | objectset/models.py:318-328 | The tally `update` adds to the count is exactly the number of members it creates. |
| Membership.ClearRows | objectset/models.py:330-342 | After `clear`, there are no members. Every row is erased on a delete or in an untracked set, and otherwise every row becomes a tombstone keeping its `added` flag. |
| Membership.PurgeRows | objectset/models.py:354-358 | `purge` erases exactly the tombstones and keeps the members' rows as they were. An untracked set is untouched. |
| ObjectSets.ObjectSet.OfKind | objectset/models.py:213-216 | Defines `_check_type` over a list: every object is of the set's class. |
| ObjectSets.ObjectSet.constructor | objectset/models.py:30-51 | A new set is unbound, buffers the given ids and has no rows. With `save`, it is bound, the ids become its members with one row each, the buffer is empty and the count is exact. |
| ObjectSets.ObjectSet.Len | objectset/models.py:53-55 | The length is the cached count. It is 0 for an unsaved set, and it is the number of members whenever the count is accurate. |
| ObjectSets.ObjectSet.Contains | objectset/models.py:67-69 | Membership means that a row is stored, tombstones included. An unsaved set contains nothing, and in an untracked set membership is exactly being a member. |
| ObjectSets.ObjectSet.Effective | objectset/models.py:174-181 | The effective members are the buffer alone for an unsaved set, and the persisted members plus the buffer for a saved one. |
| ObjectSets.ObjectSet.Intersection | objectset/models.py:71-73 | `__and__` makes a new unsaved set whose buffer is the intersection of both sets' effective members. |
| ObjectSets.ObjectSet.Union | objectset/models.py:75-77 | `__or__` makes a new unsaved set whose buffer is the union of both sets' effective members. |
| ObjectSets.ObjectSet.SymmetricDifference | objectset/models.py:79-82 | `__xor__` buffers the union minus the intersection, which equals the two one-sided differences together. |
| ObjectSets.ObjectSet.Difference | objectset/models.py:84-87 | `__sub__` buffers this set's effective members not in the other's. |
| ObjectSets.ObjectSet.IntersectWith | objectset/models.py:89-91 | `__iand__` only reassigns the buffer, to the intersection of both effective member sets. |
| ObjectSets.ObjectSet.UnionWith | objectset/models.py:93-95 | `__ior__` only reassigns the buffer, to the union of both effective member sets. |
| ObjectSets.ObjectSet.SymmetricDifferenceWith | objectset/models.py:97-100 | `__ixor__` only reassigns the buffer, to the union minus the intersection. |
| ObjectSets.ObjectSet.DifferenceWith | objectset/models.py:102-105 | `__isub__` only reassigns the buffer, to this set's effective members not in the other's. |
| ObjectSets.ObjectSet.AddObject | objectset/models.py:218-241 | `_add` refuses an object of another class with a TypeError and no change. Otherwise it reports whether it stored the object, and the rows become `AddRow` of the old rows. |
| ObjectSets.ObjectSet.AddStep | objectset/models.py:285-292 | `add` needs a saved set and an object of the set's class, and otherwise changes nothing. It reports true exactly when the object was not a member, and then the count and stamp go up by one with the drift kept. A revived tombstone keeps its row, with the new flag. |
| ObjectSets.ObjectSet.RemoveStep | objectset/models.py:296-314 | `remove` reports `Removes` of the old rows. The id is no longer a member, the count goes down by one and the set is stamped exactly when it reports true, and a missing object reports false. The drift is kept, except that it drops by one on a delete of a tombstone. |
| ObjectSets.ObjectSet.BulkStep | objectset/models.py:258-281 | `bulk` succeeds exactly on a saved set, a batch of the right class and no conflict. Then all listed ids become members and the count grows by the batch size. The errors are ObjectSetError, TypeError and IntegrityError, in that order, and on any error nothing changes. |
| ObjectSets.ObjectSet.AddEach | objectset/models.py:322-324 | The loop of `update` leaves exactly the rows and tally of `UpdateFold`. An object of another class restores the rows. |
| ObjectSets.ObjectSet.UpdateStep | objectset/models.py:318-326 | `update` succeeds exactly on a saved set and a list of the right class. It makes every listed id a member, returns the number of new members, adds that number to the count with the drift kept, and stamps once. On any error nothing changes. |
| ObjectSets.ObjectSet.ClearStep | objectset/models.py:330-340 | `clear` returns the old cached count, leaves no members, zeroes the count so that it is exact, and stamps once. |
| ObjectSets.ObjectSet.Reload | objectset/models.py:350-351 | The `bulk` branch of `replace` after `clear` succeeds exactly when the list has the right class, has no repeats and meets no remaining row. The listed ids then become members, with an exact count. |
| ObjectSets.ObjectSet.Readd | objectset/models.py:352 | The `update` branch of `replace` over an emptied set makes exactly the listed ids members and returns their number. |
| ObjectSets.ObjectSet.Refresh | objectset/models.py:256 | `replace(pending)` makes the members exactly the buffered ids, with an exact count. In a tracked set the old rows stay as tombstones, and in an untracked one only the buffered rows remain. |
| ObjectSets.ObjectSet.Purge | objectset/models.py:354-358 | `purge` needs a saved set. It erases exactly the tombstones and keeps the members and the drift. |
| ObjectSets.ObjectSet.Listed | objectset/models.py:251 | The buffer, listed, gives objects of the set's class, each buffered id exactly once. |
| ObjectSets.ObjectSet.LoadFirst | objectset/models.py:253-254 | The first save loads the buffer by `bulk` into an empty table, which cannot conflict. The buffered ids become the members, with an exact count. |
| ObjectSets.ObjectSet.Flush | objectset/models.py:249-256 | Saving a bound set empties the buffer. An empty buffer changes nothing. A non-empty one becomes exactly the members, with an exact count. |
| ObjectSets.ObjectSet.Save | objectset/models.py:243-256 | `save` binds the set and empties the buffer. A non-empty buffer becomes exactly the members with an exact count: by `bulk` on the first save, which does not stamp, and by `replace` afterwards. |
| ObjectSets.ObjectSet.Add | objectset/models.py:285-294 | The `add` outcome is as in `AddStep`. With an empty buffer, a stored object becomes a member, the count and stamp rise by one and the drift is kept. With a non-empty buffer, the closing save makes the buffer the members. |
| ObjectSets.ObjectSet.Remove | objectset/models.py:296-316 | The `remove` outcome is as in `RemoveStep`. A report of false saves nothing. With an empty buffer, the drift is kept except for a delete of a tombstone. With a non-empty buffer, the closing save makes the buffer the members. |
| ObjectSets.ObjectSet.Bulk | objectset/models.py:258-283 | `bulk` succeeds exactly when `BulkStep` does, returns the batch size, and leaves no trace on error. With an empty buffer it loads the batch without stamping. Otherwise the closing save makes the buffer the members. |
| ObjectSets.ObjectSet.Update | objectset/models.py:318-328 | `update` succeeds exactly on a saved set and a list of the right class, and returns the number of new members. With an empty buffer the listed ids join the members. Otherwise the closing save makes the buffer the members. |
| ObjectSets.ObjectSet.Clear | objectset/models.py:330-342 | `clear` returns the old count. Afterwards the members are what the buffer held, or none when it was empty, and the count is exact. |
| ObjectSets.ObjectSet.Replace | objectset/models.py:344-352 | `replace` succeeds exactly on a saved set and a list of the right class; in the `bulk` branch the list must also have no repeats and no buffered id. The members then become the buffer plus the listed ids, with an exact count. On any error nothing changes. |

## Left out

- Discovery of the through model and its relation names (`_set_object_rel`, `_through_set_rel`, `_through_object_rel`, `_set_object_class`, `_object_class`, `_set_object_class_supported`, models.py:107-172) is configuration, modelled by the constants `tracked` and `kind`. Its ImproperlyConfigured errors are not modelled.
- `objectset/resources.py`, `objectset/forms.py` and `objectset/decorators.py` are not part of this model.
- `created` and `modified` are timestamps from the clock. `modified` is modelled as a counter that each stamping advances, and `created` is not modelled.
- Transactions: each public call is modelled as atomic (a failure restores every field). Django's nested `commit_on_success` commits and concurrent writers are not modelled.
- `BULK_SUPPORTED` is taken as true (Django 1.4 or later), so the `EnvironmentError` of `bulk` and the non-bulk branch of the first save are not modelled.
- `__repr__`, `__iter__`, `__nonzero__` and the QuerySet machinery are not modelled. Querysets are modelled as sets of ids, and objects as a class name and a primary key.
- The constructor receives the buffered ids as a set. Turning a list of instances into a queryset by `pk__in`, which silently drops ids with no object, and the constructor's use of the unimported name `QuerySet` are not modelled.
- The buffer is treated as empty exactly when it holds no id. The code tests for an `EmptyQuerySet` instance, so a non-empty query that matches nothing would still make `save` call `replace([])`, clearing the set. That case is not modelled.
- The database check of `count` as a `PositiveIntegerField` is not modelled. `count` is an integer and can go below zero after the tombstone-delete drift.
- In Python, an in-place operator method that returns `None` rebinds the left operand to `None`. The model keeps only the effect on the buffer.
- `update`'s own `added` parameter is shadowed by the tally in the code, so the model's `Update` takes no flag.
- ObjectSets.ObjectSet.Add: with a non-empty buffer, the contract states only the new members and an exact count, not the exact rows or the stamp after the flush.
- ObjectSets.ObjectSet.Remove: with a non-empty buffer, the contract states only the new members and an exact count, not the exact rows or the stamp after the flush.
- ObjectSets.ObjectSet.Bulk: with a non-empty buffer, the contract states only the new members and an exact count, not the exact rows or the stamp after the flush.
- ObjectSets.ObjectSet.Update: with a non-empty buffer, the contract states only the new members and an exact count, not the exact rows or the stamp after the flush.
- ObjectSets.ObjectSet.Clear: with a non-empty buffer, the contract states only the new members, the exact count and, on a delete, the stored ids, not the flags of kept tombstones.
- ObjectSets.ObjectSet.Replace: with a non-empty buffer, the contract states only the new members and an exact count, not the exact rows or the stamp.
- `_check_type` uses `isinstance` (objectset/models.py:214), so an instance of a subclass of the set's class passes. `OfKind` requires the class to be exactly the set's own: subclasses are not modelled.
- `objectset/exceptions.py` is represented only by the error kind `ObjectSetError`.
