/** Client runs of the engine over one `Record` class, replaying the
    situations exercised by tests/tests.py: each assertion is a consequence
    of the contracts in module ObjectSets. */
module Scenarios {
  import opened Membership
  import opened ObjectSets

  const Record: Kind := "Record"

  /** The ids lo, lo+1, ..., hi-1. */
  function Range(lo: int, hi: int): (r: set<Id>)
    requires lo <= hi
    ensures forall i :: i in r <==> lo <= i < hi
    ensures |r| == hi - lo
    decreases hi - lo
  {
    if lo < hi then {lo} + Range(lo + 1, hi) else {}
  }

  /** Taking a prefix range out of a range leaves the rest of it. */
  lemma RangeRest(a: int, b: int, c: int)
    requires a <= b <= c
    ensures Range(a, c) - Range(a, b) == Range(b, c)
  {
  }

  /** Two overlapping ranges together span from the first start to the
      second end. */
  lemma RangeJoin(a: int, b: int, c: int, d: int)
    requires a <= b <= c <= d
    ensures Range(a, c) + Range(b, d) == Range(a, d)
  {
  }

  /** `[Record(pk=i) for i in xrange(lo, hi)]`. */
  function Records(lo: int, hi: int): (objs: seq<Obj>)
    requires lo <= hi
    ensures |objs| == hi - lo
    ensures forall k :: 0 <= k < |objs| ==> objs[k] == Obj(Record, lo + k)
  {
    seq(hi - lo, k requires 0 <= k < hi - lo => Obj(Record, lo + k))
  }

  /** The records of a range have distinct ids, exactly that range. */
  lemma RecordsIds(lo: int, hi: int)
    requires lo <= hi
    ensures Distinct(Ids(Records(lo, hi)))
    ensures Elements(Ids(Records(lo, hi))) == Range(lo, hi)
  {
    var ids := Ids(Records(lo, hi));
    forall i | i in Range(lo, hi) ensures i in Elements(ids) {
      assert ids[i - lo] == i;
    }
  }

  /** test_add: adding twice counts once; a removed object can be re-added. */
  method AddTwice()
  {
    var s := new ObjectSet(false, Record, {}, true);
    var r1 := Obj(Record, 1);
    var r := s.Add(r1, false);
    assert r == Ok(true) && s.count == 1;
    r := s.Add(r1, false);
    assert r == Ok(false) && s.count == 1;
    var gone := s.Remove(r1, false);
    assert gone == Ok(true) && s.count == 0;
    r := s.Add(r1, false);
    assert r == Ok(true) && s.count == 1;
    assert s.rows.Keys == {1};
  }

  /** test_methods_require_pk: every engine operation needs a saved set. */
  method RequirePk()
  {
    var s := new ObjectSet(false, Record, {}, false);
    var r1 := Obj(Record, 1);
    var a := s.Add(r1, false);
    assert a == Err(ObjectSetError);
    var b := s.Remove(r1, false);
    assert b == Err(ObjectSetError);
    var c := s.Replace([r1], false);
    assert c == Err(ObjectSetError);
    var d := s.Clear(false);
    assert d == Err(ObjectSetError);
    var e := s.Purge();
    assert e == Fail(ObjectSetError);
  }

  /** test_invalid_type: an object of another class is refused. */
  method InvalidType()
  {
    var s := new ObjectSet(false, Record, {}, true);
    var r := s.Add(Obj("User", 1), false);
    assert r == Err(TypeError) && s.count == 0;
  }

  /** The common members of the two operator-test sets, either way round. */
  lemma Meet()
    ensures {3, 4, 5, 6} * {1, 2, 3, 4} == {3, 4} && {1, 2, 3, 4} * {3, 4, 5, 6} == {3, 4}
    ensures |{3, 4}| == 2
  {
  }

  /** All members of the two operator-test sets, either way round. */
  lemma Join()
    ensures {3, 4, 5, 6} + {1, 2, 3, 4} == {1, 2, 3, 4, 5, 6} && {1, 2, 3, 4} + {3, 4, 5, 6} == {1, 2, 3, 4, 5, 6}
    ensures |{1, 2, 3, 4, 5, 6}| == 6
  {
  }

  /** The members of exactly one of the two operator-test sets. */
  lemma Exclusive()
    ensures {1, 2, 3, 4, 5, 6} - {3, 4} == {1, 2, 5, 6}
    ensures |{1, 2, 5, 6}| == 4
  {
  }

  /** Each operator-test set without the other. */
  lemma Without()
    ensures {1, 2, 3, 4} - {3, 4, 5, 6} == {1, 2} && {3, 4, 5, 6} - {1, 2, 3, 4} == {5, 6}
    ensures |{1, 2}| == 2 && |{5, 6}| == 2
  {
  }

  /** `(s1 - s2) | s1`. */
  lemma MultiJoin()
    ensures {1, 2, 3, 4} + {1, 2} == {1, 2, 3, 4} && |{1, 2, 3, 4}| == 4
  {
  }

  /** `(s2 - s1) ^ s2`. */
  lemma MultiExclusive()
    ensures ({3, 4, 5, 6} + {5, 6}) - ({3, 4, 5, 6} * {5, 6}) == {3, 4} && |{3, 4}| == 2
  {
  }

  /** Two saved sets holding 1..4 and 3..6, as in the operator tests. */
  method Pair() returns (s1: ObjectSet, s2: ObjectSet)
    ensures fresh(s1) && fresh(s2) && s1 != s2
    ensures s1.Valid() && s2.Valid() && s1.kind == Record && s2.kind == Record && !s1.tracked
    ensures s1.Effective() == {1, 2, 3, 4} && s2.Effective() == {3, 4, 5, 6}
  {
    s1 := new ObjectSet(false, Record, {1, 2, 3, 4}, true);
    s2 := new ObjectSet(false, Record, {3, 4, 5, 6}, true);
  }

  /** test_and: the common members. */
  method And()
  {
    var s1, s2 := Pair();
    Meet();
    var s3 := s1.Intersection(s2);
    assert s3.pending == {3, 4};
    s3.Save();
    assert Active(s3.rows) == {3, 4} && s3.count == 2;
  }

  /** test_or: all members of both. */
  method Or()
  {
    var s1, s2 := Pair();
    Join();
    var s3 := s1.Union(s2);
    assert s3.pending == {1, 2, 3, 4, 5, 6};
    s3.Save();
    assert Active(s3.rows) == {1, 2, 3, 4, 5, 6} && s3.count == 6;
  }

  /** test_xor: the members of exactly one. */
  method Xor()
  {
    var s1, s2 := Pair();
    Meet();
    Join();
    Exclusive();
    var s3 := s1.SymmetricDifference(s2);
    assert s3.pending == {1, 2, 5, 6};
    s3.Save();
    assert Active(s3.rows) == {1, 2, 5, 6} && s3.count == 4;
  }

  /** test_sub: the members of the first only. */
  method Sub()
  {
    var s1, s2 := Pair();
    Without();
    var s3 := s1.Difference(s2);
    assert s3.pending == {1, 2};
    s3.Save();
    assert Active(s3.rows) == {1, 2} && s3.count == 2;
  }

  /** test_iand: the buffer of the saved set is replaced, and saving it
      replaces its members. */
  method IAnd()
  {
    var s1, s2 := Pair();
    Meet();
    s2.IntersectWith(s1);
    assert s2.pending == {3, 4};
    s2.Save();
    assert Active(s2.rows) == {3, 4} && s2.count == 2;
  }

  /** test_ior: the buffer becomes the union, which saving makes the
      members. */
  method IOr()
  {
    var s1, s2 := Pair();
    Join();
    s2.UnionWith(s1);
    assert s2.pending == {1, 2, 3, 4, 5, 6};
    s2.Save();
    assert Active(s2.rows) == {1, 2, 3, 4, 5, 6} && s2.count == 6;
  }

  /** test_ixor: the buffer becomes the members of exactly one. */
  method IXor()
  {
    var s1, s2 := Pair();
    Meet();
    Join();
    Exclusive();
    s2.SymmetricDifferenceWith(s1);
    assert s2.pending == {1, 2, 5, 6};
    s2.Save();
    assert Active(s2.rows) == {1, 2, 5, 6} && s2.count == 4;
  }

  /** test_isub. */
  method ISub()
  {
    var s1, s2 := Pair();
    Without();
    s2.DifferenceWith(s1);
    assert s2.pending == {5, 6};
    s2.Save();
    assert Active(s2.rows) == {5, 6} && s2.count == 2;
  }

  /** test_multi_op: `s1 - s2 | s1`. */
  method MultiOp()
  {
    var s1, s2 := Pair();
    Without();
    MultiJoin();
    var d := s1.Difference(s2);
    var s3 := d.Union(s1);
    assert s3.pending == {1, 2, 3, 4};
    s3.Save();
    assert Active(s3.rows) == {1, 2, 3, 4} && s3.count == 4;
  }

  /** test_multi_op, second half: `s2 - s1 ^ s2`, that is `(s2 - s1) ^ s2`. */
  method MultiOpXor()
  {
    var s1, s2 := Pair();
    Without();
    MultiExclusive();
    var d := s2.Difference(s1);
    assert d.Effective() == {5, 6};
    var s4 := d.SymmetricDifference(s2);
    assert s4.pending == {3, 4};
    s4.Save();
    assert Active(s4.rows) == {3, 4} && s4.count == 2;
  }

  /** A batch of the records that follow a loaded range conflicts with
      nothing. */
  lemma FollowingBatch(rows: Rows, lo: int, mid: int, hi: int)
    requires lo <= mid <= hi && rows.Keys == Range(lo, mid)
    ensures !BulkConflicts(rows, Ids(Records(mid, hi)))
  {
    RecordsIds(mid, hi);
    var ids := Ids(Records(mid, hi));
    forall k | 0 <= k < |ids| ensures ids[k] !in rows {
      assert ids[k] == mid + k;
    }
  }

  /** test_bulk (with n = 5): a first batch loads into an empty set. */
  method BulkFirst(n: nat)
  {
    RecordsIds(0, n);
    var s := new ObjectSet(false, Record, {}, true);
    var a := s.Bulk(Records(0, n), false);
    assert a == Ok(n) && s.count == n;
  }

  /** test_bulk (0, 5, 10): a second, disjoint batch loads too. */
  method BulkSecond(lo: int, mid: int, hi: int)
    requires lo <= mid <= hi
  {
    var s := new ObjectSet(false, Record, Range(lo, mid), true);
    FollowingBatch(s.rows, lo, mid, hi);
    var b := s.Bulk(Records(mid, hi), false);
    assert b == Ok(hi - mid) && s.count == hi - lo;
  }

  /** test_bulk (3 in 0..4): loading a member again fails and changes
      nothing. */
  method BulkAgain(lo: int, hi: int, x: Id)
    requires lo <= x < hi
  {
    var s := new ObjectSet(false, Record, Range(lo, hi), true);
    var again := [Obj(Record, x)];
    assert Ids(again)[0] in s.rows;
    var c := s.Bulk(again, false);
    assert c == Err(IntegrityError) && s.count == hi - lo;
  }

  /** test_update (0..4 twice): updating with present members adds
      nothing. */
  method UpdateSame(lo: int, hi: int)
    requires lo <= hi
  {
    RecordsIds(lo, hi);
    var s := new ObjectSet(false, Record, Range(lo, hi), true);
    var r := s.Update(Records(lo, hi));
    assert Range(lo, hi) - Range(lo, hi) == {};
    assert r == Ok(0) && s.count == hi - lo;
  }

  /** test_update (0, 5, 10): only the objects not yet members are
      counted. */
  method UpdateMore(lo: int, mid: int, hi: int)
    requires lo <= mid <= hi
  {
    RecordsIds(lo, hi);
    RangeRest(lo, mid, hi);
    var s := new ObjectSet(false, Record, Range(lo, mid), true);
    var r := s.Update(Records(lo, hi));
    assert r == Ok(hi - mid) && s.count == hi - lo;
  }

  /** test_contains (1..10): exactly the saved ids are found. */
  method ContainsMembers(lo: int, hi: int, x: Id)
    requires lo <= hi
  {
    var s := new ObjectSet(false, Record, Range(lo, hi), true);
    assert s.Contains(Obj(Record, x)) <==> lo <= x < hi;
  }

  /** SetObjectSetTestCase.test_remove: the removed row stays as a
      tombstone, and removing it again reports false. */
  method TrackedRemove()
  {
    var s := new ObjectSet(true, Record, {}, true);
    var r1 := Obj(Record, 1);
    var a := s.Add(r1, false);
    assert a == Ok(true);
    var b := s.Remove(r1, false);
    assert b == Ok(true) && s.count == 0;
    var c := s.Remove(r1, false);
    assert c == Ok(false) && s.rows.Keys == {1};
  }

  /** test_remove_delete: the row is really deleted. */
  method TrackedRemoveDelete()
  {
    var s := new ObjectSet(true, Record, {}, true);
    var r1 := Obj(Record, 1);
    var a := s.Add(r1, false);
    assert a == Ok(true) && s.count == 1;
    var b := s.Remove(r1, true);
    assert b == Ok(true) && s.count == 0 && s.rows == map[];
  }

  /** test_replace on a tracked set (0..2 replaced by 2..5): the old rows
      stay as tombstones. */
  method TrackedReplace(a: int, b: int, c: int, d: int)
    requires a <= b <= c <= d
  {
    RecordsIds(b, d);
    RangeJoin(a, b, c, d);
    var s := new ObjectSet(true, Record, Range(a, c), true);
    var r := s.Replace(Records(b, d), false);
    assert r == Ok(d - b) && s.count == d - b;
    assert s.rows.Keys == Range(a, d);
  }

  /** test_replace_delete: the old rows are deleted. */
  method TrackedReplaceDelete(a: int, b: int, c: int, d: int)
    requires a <= b <= c <= d
  {
    RecordsIds(b, d);
    var s := new ObjectSet(true, Record, Range(a, c), true);
    var r := s.Replace(Records(b, d), true);
    assert r == Ok(d - b) && s.count == d - b;
    assert s.rows.Keys == Range(b, d);
  }

  /** test_clear on a tracked set (0..9): every row is kept as a
      tombstone. */
  method TrackedClear(lo: int, hi: int)
    requires lo <= hi
  {
    var s := new ObjectSet(true, Record, Range(lo, hi), true);
    var r := s.Clear(false);
    assert r == Ok(hi - lo) && s.count == 0 && s.rows.Keys == Range(lo, hi);
  }

  /** test_clear_delete: every row is deleted. */
  method TrackedClearDelete(lo: int, hi: int)
    requires lo <= hi
  {
    var s := new ObjectSet(true, Record, Range(lo, hi), true);
    var r := s.Clear(true);
    assert r == Ok(hi - lo) && s.rows == map[];
  }

  /** test_purge: purging erases the tombstones and keeps the members. */
  method TrackedPurge()
  {
    var s := new ObjectSet(true, Record, {0, 1, 2}, true);
    var a := s.Remove(Obj(Record, 0), false);
    var b := s.Remove(Obj(Record, 1), false);
    assert s.rows.Keys == {0, 1, 2} && Active(s.rows) == {2};
    var p := s.Purge();
    assert p == Pass && s.rows.Keys == {2} && s.count == 1;
  }
}
