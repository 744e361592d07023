/** The query shape every service uses: `findMany({ where, orderBy })` over
    one table, as a selection of row keys put in key order. A table is a map
    from row id to row; a descending order is an ascending order on the
    negated key. Rows with equal keys may come in either order, as they may
    from the database. */
module Tables {

  /** Every id of `ids` is a row of `table`, and the rows' keys never decrease. */
  ghost predicate SortedBy<T>(table: map<string, T>, key: T -> int, ids: seq<string>) {
    (forall i :: 0 <= i < |ids| ==> ids[i] in table) &&
    forall i, j :: 0 <= i < j < |ids| ==> key(table[ids[i]]) <= key(table[ids[j]])
  }

  ghost predicate Distinct(ids: seq<string>) {
    forall i, j :: 0 <= i < j < |ids| ==> ids[i] != ids[j]
  }

  /** Puts `x` into the key-ordered `ids`, before the first row whose key is not smaller. */
  function Insert<T>(table: map<string, T>, key: T -> int, ids: seq<string>, x: string): (r: seq<string>)
    requires x in table && SortedBy(table, key, ids)
    ensures SortedBy(table, key, r)
    ensures |r| == |ids| + 1
    ensures forall y :: y in r <==> y in ids || y == x
    ensures Distinct(ids) && x !in ids ==> Distinct(r)
    decreases |ids|
  {
    if ids == [] || key(table[x]) <= key(table[ids[0]]) then
      [x] + ids
    else
      var rest := ids[1..];
      assert SortedBy(table, key, rest) by {
        assert forall i :: 0 <= i < |rest| ==> rest[i] == ids[i + 1];
      }
      var tail := Insert(table, key, rest, x);
      HeadBelowInsert(table, key, ids, x, tail);
      [ids[0]] + tail
  }

  /** The head of `ids` stays first when `x`, whose key is larger, goes into the rest. */
  lemma HeadBelowInsert<T>(table: map<string, T>, key: T -> int, ids: seq<string>, x: string, tail: seq<string>)
    requires x in table && SortedBy(table, key, ids) && ids != []
    requires key(table[ids[0]]) < key(table[x])
    requires forall y :: y in tail <==> y in ids[1..] || y == x
    requires forall i :: 0 <= i < |tail| ==> tail[i] in table
    ensures forall i :: 0 <= i < |tail| ==> key(table[ids[0]]) <= key(table[tail[i]])
    ensures Distinct(ids) && x !in ids ==> ids[0] !in tail
  {
    forall i | 0 <= i < |tail|
      ensures key(table[ids[0]]) <= key(table[tail[i]])
    {
      if tail[i] != x {
        assert tail[i] in ids[1..];
        var j :| 0 <= j < |ids[1..]| && ids[1..][j] == tail[i];
        assert ids[j + 1] == tail[i];
      }
    }
    if Distinct(ids) && x !in ids {
      forall i | 0 <= i < |tail|
        ensures tail[i] != ids[0]
      {
        if tail[i] != x {
          assert tail[i] in ids[1..];
          var j :| 0 <= j < |ids[1..]| && ids[1..][j] == tail[i];
          assert ids[j + 1] == tail[i];
        }
      }
    }
  }

  /** `findMany` with a `where` test and an `orderBy` key: the ids of exactly
      the rows that pass the test, each once, in key order. */
  method FindMany<T>(table: map<string, T>, keep: T -> bool, key: T -> int) returns (ids: seq<string>)
    ensures forall id :: id in ids <==> id in table && keep(table[id])
    ensures Distinct(ids)
    ensures SortedBy(table, key, ids)
  {
    ids := [];
    var rest := table.Keys;
    while rest != {}
      invariant rest <= table.Keys
      invariant forall id :: id in ids <==> id in table && id !in rest && keep(table[id])
      invariant Distinct(ids)
      invariant SortedBy(table, key, ids)
      decreases |rest|
    {
      var k :| k in rest;
      if keep(table[k]) {
        ids := Insert(table, key, ids, k);
      }
      rest := rest - {k};
    }
  }

  /** The rows the ids name, in order. */
  function Rows<T>(table: map<string, T>, ids: seq<string>): (rows: seq<T>)
    requires forall i :: 0 <= i < |ids| ==> ids[i] in table
    ensures |rows| == |ids| && forall i :: 0 <= i < |ids| ==> rows[i] == table[ids[i]]
  {
    seq(|ids|, i requires 0 <= i < |ids| => table[ids[i]])
  }

  /** `take: n` after `skip: s`: the part of `xs` from position `s` on, at most `n` long. */
  function SkipTake<T>(xs: seq<T>, s: nat, n: nat): (r: seq<T>)
    ensures |r| <= n
    ensures s >= |xs| ==> r == []
    ensures s < |xs| ==> |r| == if s + n <= |xs| then n else |xs| - s
    ensures forall i :: 0 <= i < |r| ==> r[i] == xs[s + i]
  {
    if s >= |xs| then [] else if s + n <= |xs| then xs[s..s + n] else xs[s..]
  }

  /** A list of distinct ids has as many entries as the set of its ids. */
  lemma {:induction false} DistinctCardinality(ids: seq<string>)
    requires Distinct(ids)
    ensures |set id | id in ids| == |ids|
    decreases |ids|
  {
    if ids != [] {
      var init := ids[..|ids| - 1];
      DistinctCardinality(init);
      assert (set id | id in ids) == (set id | id in init) + {ids[|ids| - 1]};
    }
  }
}
