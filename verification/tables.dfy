/**
 * One keyed collection of the in-memory store: a map from id to record and
 * the collection's own id counter. Records are only ever added or replaced,
 * never deleted, and a JavaScript `Map` lists its entries in first-insertion
 * order, which for ids handed out in increasing order is ascending-id order.
 */
module Tables {
  import opened Wrappers

  datatype Table<T> = Table(rows: map<int, T>, nextId: int)

  /** A fresh collection: nothing stored, the counter at 1. */
  function Empty<T>(): (t: Table<T>)
    ensures Dense(t) && Rows(t) == []
  {
    Table(map[], 1)
  }

  /** The ids in use are exactly 1 up to the counter (exclusive): ids are handed out in turn and never freed. */
  ghost predicate Dense<T>(t: Table<T>) {
    t.nextId >= 1 && forall k :: k in t.rows <==> 1 <= k < t.nextId
  }

  /** Each stored record carries the id it is stored under. */
  ghost predicate Keyed<T>(t: Table<T>, idOf: T -> int) {
    forall k :: k in t.rows ==> idOf(t.rows[k]) == k
  }

  ghost predicate WellFormed<T>(t: Table<T>, idOf: T -> int) {
    Dense(t) && Keyed(t, idOf)
  }

  /** `map.get(id)`: the record, or absent for an unknown id. */
  function Get<T>(t: Table<T>, id: int): (r: Option<T>)
    ensures r.Some? <==> id in t.rows
    ensures r.Some? ==> r.value == t.rows[id]
  {
    if id in t.rows then Some(t.rows[id]) else None
  }

  /** `after` is `before` with `rec` stored under `before`'s counter, which moved on by one. */
  ghost predicate AddedAsNext<T>(before: Table<T>, after: Table<T>, rec: T) {
    && after.nextId == before.nextId + 1
    && Get(after, before.nextId) == Some(rec)
    && forall k :: k != before.nextId ==> Get(after, k) == Get(before, k)
  }

  /** The create step: `const id = counter++; map.set(id, rec)`. */
  function Append<T>(t: Table<T>, rec: T): (r: Table<T>)
    ensures AddedAsNext(t, r, rec)
    ensures Dense(t) ==> Dense(r) && t.nextId !in t.rows
  {
    Table(t.rows[t.nextId := rec], t.nextId + 1)
  }

  /** Storing a record that carries the next id keeps every record under its own id. */
  lemma AppendKeyed<T>(t: Table<T>, rec: T, idOf: T -> int)
    requires WellFormed(t, idOf) && idOf(rec) == t.nextId
    ensures WellFormed(Append(t, rec), idOf)
  {
  }

  /** `map.set(id, rec)` on an id already present: the counter and every other entry stay. */
  function Replace<T>(t: Table<T>, id: int, rec: T): (r: Table<T>)
    requires id in t.rows
    ensures r.nextId == t.nextId && Get(r, id) == Some(rec)
    ensures forall k :: k != id ==> Get(r, k) == Get(t, k)
    ensures Dense(t) ==> Dense(r)
  {
    Table(t.rows[id := rec], t.nextId)
  }

  lemma ReplaceKeyed<T>(t: Table<T>, id: int, rec: T, idOf: T -> int)
    requires WellFormed(t, idOf) && id in t.rows && idOf(rec) == id
    ensures WellFormed(Replace(t, id, rec), idOf)
  {
  }

  /** `Array.from(map.values())`: the stored records in ascending id order. */
  function Rows<T>(t: Table<T>): seq<T> {
    RowsBetween(t.rows, 1, t.nextId)
  }

  /** The records stored under `lo`, `lo + 1`, ..., `hi - 1`, skipping unused ids. */
  function RowsBetween<T>(m: map<int, T>, lo: int, hi: int): seq<T>
    decreases hi - lo
  {
    if lo >= hi then []
    else (if lo in m then [m[lo]] else []) + RowsBetween(m, lo + 1, hi)
  }

  /** With no gaps, the listing holds record `lo + i` at position `i`. */
  lemma {:induction false} RowsBetweenDense<T>(m: map<int, T>, lo: int, hi: int)
    requires lo <= hi && forall k :: lo <= k < hi ==> k in m
    ensures |RowsBetween(m, lo, hi)| == hi - lo
    ensures forall i :: 0 <= i < hi - lo ==> RowsBetween(m, lo, hi)[i] == m[lo + i]
    decreases hi - lo
  {
    if lo < hi {
      var rest := RowsBetween(m, lo + 1, hi);
      RowsBetweenDense(m, lo + 1, hi);
      assert RowsBetween(m, lo, hi) == [m[lo]] + rest;
      forall i | 0 <= i < hi - lo
        ensures RowsBetween(m, lo, hi)[i] == m[lo + i]
      {
        if i > 0 {
          assert RowsBetween(m, lo, hi)[i] == rest[i - 1];
        }
      }
    }
  }

  /** The listing of a dense table is record 1, record 2, ..., one per id in use. */
  lemma RowsOfDense<T>(t: Table<T>)
    requires Dense(t)
    ensures |Rows(t)| == t.nextId - 1
    ensures forall i :: 0 <= i < |Rows(t)| ==> Rows(t)[i] == t.rows[i + 1]
    ensures forall k :: k in t.rows ==> Rows(t)[k - 1] == t.rows[k]
  {
    RowsBetweenDense(t.rows, 1, t.nextId);
    forall k | k in t.rows
      ensures Rows(t)[k - 1] == t.rows[k]
    {
      assert 0 <= k - 1 < |Rows(t)|;
    }
  }

  /** Listing order is id order: ids are unique and strictly increase along the listing. */
  lemma RowIdsIncrease<T>(t: Table<T>, idOf: T -> int)
    requires WellFormed(t, idOf)
    ensures forall i, j :: 0 <= i < j < |Rows(t)| ==> idOf(Rows(t)[i]) < idOf(Rows(t)[j])
  {
    RowsOfDense(t);
  }

  /** `array.filter(keep)`: the elements satisfying `keep`, in their original order. */
  function Filter<T>(xs: seq<T>, keep: T -> bool): (r: seq<T>)
    ensures forall i :: 0 <= i < |r| ==> r[i] in xs && keep(r[i])
    ensures forall i :: 0 <= i < |xs| && keep(xs[i]) ==> xs[i] in r
    ensures |r| <= |xs|
  {
    if |xs| == 0 then []
    else (if keep(xs[0]) then [xs[0]] else []) + Filter(xs[1..], keep)
  }

  /** Filtering a concatenation filters each part in place, so relative order is kept. */
  lemma {:induction false} FilterAppend<T>(xs: seq<T>, ys: seq<T>, keep: T -> bool)
    ensures Filter(xs + ys, keep) == Filter(xs, keep) + Filter(ys, keep)
  {
    if |xs| > 0 {
      assert (xs + ys)[1..] == xs[1..] + ys;
      FilterAppend(xs[1..], ys, keep);
    } else {
      assert xs + ys == ys;
    }
  }

  ghost predicate IdsIncrease<T>(xs: seq<T>, idOf: T -> int) {
    forall i, j :: 0 <= i < j < |xs| ==> idOf(xs[i]) < idOf(xs[j])
  }

  /** Putting an element below every id of an increasing listing in front keeps it increasing. */
  lemma ConsIncreases<T>(x: T, rest: seq<T>, idOf: T -> int)
    requires IdsIncrease(rest, idOf)
    requires forall k :: 0 <= k < |rest| ==> idOf(x) < idOf(rest[k])
    ensures IdsIncrease([x] + rest, idOf)
  {
    var r := [x] + rest;
    forall i, j | 0 <= i < j < |r| ensures idOf(r[i]) < idOf(r[j]) {
      assert r[j] == rest[j - 1];
      if i > 0 {
        assert r[i] == rest[i - 1];
      }
    }
  }

  /** Filtering keeps relative order, so a listing whose ids increase stays one whose ids increase. */
  lemma {:induction false} FilterKeepsOrder<T>(xs: seq<T>, keep: T -> bool, idOf: T -> int)
    requires IdsIncrease(xs, idOf)
    ensures IdsIncrease(Filter(xs, keep), idOf)
  {
    if |xs| > 0 {
      var rest := Filter(xs[1..], keep);
      assert IdsIncrease(xs[1..], idOf) by {
        forall i, j | 0 <= i < j < |xs[1..]| ensures idOf(xs[1..][i]) < idOf(xs[1..][j]) {
          assert xs[1..][i] == xs[i + 1] && xs[1..][j] == xs[j + 1];
        }
      }
      FilterKeepsOrder(xs[1..], keep, idOf);
      if keep(xs[0]) {
        forall k | 0 <= k < |rest| ensures idOf(xs[0]) < idOf(rest[k]) {
          var m :| 0 <= m < |xs[1..]| && xs[1..][m] == rest[k];
          assert xs[m + 1] == rest[k];
        }
        ConsIncreases(xs[0], rest, idOf);
        assert Filter(xs, keep) == [xs[0]] + rest;
      } else {
        assert Filter(xs, keep) == rest;
      }
    }
  }

  /** A scan over a well-formed table lists each matching row once, in increasing id order. */
  lemma FilterRowsIncrease<T>(t: Table<T>, keep: T -> bool, idOf: T -> int)
    ensures WellFormed(t, idOf) ==>
      forall i, j :: 0 <= i < j < |Filter(Rows(t), keep)| ==> idOf(Filter(Rows(t), keep)[i]) < idOf(Filter(Rows(t), keep)[j])
  {
    if WellFormed(t, idOf) {
      RowIdsIncrease(t, idOf);
      FilterKeepsOrder(Rows(t), keep, idOf);
    }
  }

  /** `array.find(p)`: the first element satisfying `p`, or absent. */
  function Find<T(==)>(xs: seq<T>, p: T -> bool): (r: Option<T>)
    ensures r.Some? ==> r.value in xs && p(r.value)
    ensures r.None? <==> forall i :: 0 <= i < |xs| ==> !p(xs[i])
    ensures r.Some? ==> exists i :: 0 <= i < |xs| && xs[i] == r.value && forall j :: 0 <= j < i ==> !p(xs[j])
  {
    if |xs| == 0 then None
    else if p(xs[0]) then Some(xs[0])
    else
      var r := Find(xs[1..], p);
      assert r.Some? ==> exists i :: 1 <= i < |xs| && xs[i] == r.value && forall j :: 1 <= j < i ==> !p(xs[j]);
      r
  }
}
