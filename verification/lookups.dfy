/**
 * The per-request lookup memo the read routes build before enriching a
 * batch: for each foreign key in turn, fetch the record unless the memo
 * already answers for that key.
 *
 * As written, the memo remembers only hits (`if (record) map.set(id,
 * record)`), so a key that does not resolve is fetched again every time it
 * recurs. `MemoizeHits` models that; `MemoizeAll` also remembers misses and
 * fetches each distinct key once. Both end with the same hits, so the
 * enriched responses do not depend on which one is used.
 */
module Lookups {
  import opened Wrappers

  /** The hits found so far and the keys fetched so far, in fetch order. */
  datatype Memo<T> = Memo(found: map<int, T>, fetched: seq<int>)

  ghost predicate AgreesWith<T>(found: map<int, T>, table: map<int, T>) {
    forall k :: k in found ==> k in table && found[k] == table[k]
  }

  /** What the hits-only memo keeps true: its hits are table entries, every fetched hit is remembered, and only misses repeat. */
  ghost predicate HitsInvariant<T>(table: map<int, T>, m: Memo<T>) {
    && AgreesWith(m.found, table)
    && (forall i :: 0 <= i < |m.fetched| && m.fetched[i] in table ==> m.fetched[i] in m.found)
    && (forall k :: k in m.found ==> k in m.fetched)
    && (forall i, j :: 0 <= i < j < |m.fetched| && m.fetched[i] == m.fetched[j] ==> m.fetched[i] !in table)
  }

  /** The loop as written: a key is fetched unless it is already a remembered hit. */
  function MemoizeHits<T>(table: map<int, T>, keys: seq<int>, m: Memo<T>): (r: Memo<T>)
    requires HitsInvariant(table, m)
    ensures HitsInvariant(table, r)
    ensures forall k :: k in r.found <==> k in m.found || (k in keys && k in table)
    ensures forall k :: k in r.fetched <==> k in m.fetched || k in keys
    ensures m.fetched <= r.fetched
    decreases |keys|
  {
    if |keys| == 0 then m
    else
      var k := keys[0];
      var next :=
        if k in m.found then m
        else if k in table then Memo(m.found[k := table[k]], m.fetched + [k])
        else Memo(m.found, m.fetched + [k]);
      MemoizeHits(table, keys[1..], next)
  }

  /** `table` restricted to `keys`: the hits a full pass over `keys` must end with. */
  function HitsOf<T>(table: map<int, T>, keys: seq<int>): map<int, T> {
    map k | k in table && k in keys :: table[k]
  }

  /** The hits-only memo from empty: every key fetched, the hits exactly the resolving keys, repeats only for misses. */
  function ResolveHits<T>(table: map<int, T>, keys: seq<int>): (r: Memo<T>)
    ensures r.found == HitsOf(table, keys)
    ensures forall k :: k in r.fetched <==> k in keys
    ensures forall i, j :: 0 <= i < j < |r.fetched| && r.fetched[i] == r.fetched[j] ==> r.fetched[i] !in table
  {
    MemoizeHits(table, keys, Memo(map[], []))
  }

  /** Each further occurrence of a key that does not resolve is fetched again. */
  lemma MissFetchedAgain<T>(table: map<int, T>, k: int, rest: seq<int>, m: Memo<T>)
    requires HitsInvariant(table, m) && k !in table
    ensures MemoizeHits(table, [k] + rest, m) == MemoizeHits(table, rest, Memo(m.found, m.fetched + [k]))
  {
    assert ([k] + rest)[1..] == rest;
  }

  /** A key that does not resolve, appearing twice, is fetched twice. */
  lemma MissRefetched<T>(table: map<int, T>, id: int)
    requires id !in table
    ensures ResolveHits(table, [id, id]).fetched == [id, id]
  {
    var none: map<int, T> := map[];
    var nothing: seq<int> := [];
    assert [id, id] == [id] + [id];
    MissFetchedAgain(table, id, [id], Memo(none, nothing));
    assert nothing + [id] == [id];
    assert [id] == [id] + nothing;
    MissFetchedAgain(table, id, nothing, Memo(none, [id]));
    assert [id] + [id] == [id, id];
  }

  /** The corrected memo: remembers every fetched key, hit or miss. */
  ghost predicate AllInvariant<T>(table: map<int, T>, m: Memo<Option<T>>) {
    && (forall k :: k in m.found ==> m.found[k] == (if k in table then Some(table[k]) else None))
    && (forall k :: k in m.found <==> k in m.fetched)
    && (forall i, j :: 0 <= i < j < |m.fetched| ==> m.fetched[i] != m.fetched[j])
  }

  function MemoizeAll<T>(table: map<int, T>, keys: seq<int>, m: Memo<Option<T>>): (r: Memo<Option<T>>)
    requires AllInvariant(table, m)
    ensures AllInvariant(table, r)
    ensures forall k :: k in r.found <==> k in m.found || k in keys
    ensures m.fetched <= r.fetched
    decreases |keys|
  {
    if |keys| == 0 then m
    else
      var k := keys[0];
      var next :=
        if k in m.found then m
        else Memo(m.found[k := if k in table then Some(table[k]) else None], m.fetched + [k]);
      MemoizeAll(table, keys[1..], next)
  }

  /** The hits a memo of lookup results holds. */
  function Hits<T>(found: map<int, Option<T>>): map<int, T> {
    map k | k in found && found[k].Some? :: found[k].value
  }

  /** The corrected memo from empty: each distinct key fetched exactly once, and the same hits as the code as written. */
  function ResolveOnce<T>(table: map<int, T>, keys: seq<int>): (r: Memo<Option<T>>)
    ensures Hits(r.found) == HitsOf(table, keys) == ResolveHits(table, keys).found
    ensures forall k :: k in r.fetched <==> k in keys
    ensures forall i, j :: 0 <= i < j < |r.fetched| ==> r.fetched[i] != r.fetched[j]
  {
    var r := MemoizeAll(table, keys, Memo(map[], []));
    assert forall k :: k in Hits(r.found) <==> k in HitsOf(table, keys);
    assert forall k :: k in Hits(r.found) ==> Hits(r.found)[k] == table[k] == HitsOf(table, keys)[k];
    assert Hits(r.found) == HitsOf(table, keys);
    r
  }
}
