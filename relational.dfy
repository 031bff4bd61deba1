/**
 * Generic relational operations over tables held as sequences of rows:
 * projection, GROUP BY keys, grouped SUM, LEFT JOIN and ORDER BY ... DESC.
 * Column accessors are passed as functions (`T -> K`).
 */
module Relational {
  import opened Wrappers

  /** No two rows of `rows` agree on column `key`. */
  predicate UniqueKeys<T, K(==)>(rows: seq<T>, key: T -> K)
  {
    forall i, j :: 0 <= i < j < |rows| ==> key(rows[i]) != key(rows[j])
  }

  /** No value occurs twice in `s`. */
  predicate Unique<K(==)>(s: seq<K>)
  {
    forall i, j :: 0 <= i < j < |s| ==> s[i] != s[j]
  }

  /** The column `col` of every row, in row order. */
  function Column<T, K>(rows: seq<T>, col: T -> K): (r: seq<K>)
    ensures |r| == |rows|
    ensures forall i :: 0 <= i < |rows| ==> r[i] == col(rows[i])
  {
    seq(|rows|, i requires 0 <= i < |rows| => col(rows[i]))
  }

  /**
   * The distinct values of `s`, each once, in order of first appearance:
   * the set of groups a GROUP BY forms.
   */
  function Distinct<K(==,!new)>(s: seq<K>): (r: seq<K>)
    ensures forall x :: x in r <==> x in s
    ensures Unique(r)
    ensures |r| <= |s|
  {
    if s == [] then []
    else
      var last := s[|s| - 1];
      var d := Distinct(s[..|s| - 1]);
      assert s == s[..|s| - 1] + [last];
      if last in d then d else d + [last]
  }

  /**
   * SUM(val) over the rows whose column `key` equals `k`: 0 when no row has
   * that key, the plain sum when every row has it.
   */
  function SumWhere<T, K(==)>(rows: seq<T>, key: T -> K, k: K, val: T -> real): real
  {
    if rows == [] then 0.0
    else (if key(rows[0]) == k then val(rows[0]) else 0.0) + SumWhere(rows[1..], key, k, val)
  }

  /** SumWhere is 0 when no row has the key and the plain sum when every row has it. */
  lemma {:induction false} SumWhereAllOrNone<T, K>(rows: seq<T>, key: T -> K, k: K, val: T -> real)
    ensures (forall x :: x in rows ==> key(x) != k) ==> SumWhere(rows, key, k, val) == 0.0
    ensures (forall x :: x in rows ==> key(x) == k) ==> SumWhere(rows, key, k, val) == Sum(rows, val)
  {
    if rows != [] {
      assert forall x :: x in rows[1..] ==> x in rows;
      SumWhereAllOrNone(rows[1..], key, k, val);
    }
  }

  /**
   * The value a grouped SUM reports for key `k` once the grouped table is
   * outer-joined on `k`: the sum over the rows with that key, or None (NULL)
   * when no row has it.
   */
  function GroupTotal<T, K(==)>(rows: seq<T>, key: T -> K, k: K, val: T -> real): (o: Option<real>)
    ensures o.None? <==> forall x :: x in rows ==> key(x) != k
    ensures o.Some? ==> o.value == SumWhere(rows, key, k, val)
  {
    if k in Column(rows, key) then Some(SumWhere(rows, key, k, val)) else None
  }

  lemma {:induction false} SumWhereAppend<T, K>(a: seq<T>, b: seq<T>, key: T -> K, k: K, val: T -> real)
    ensures SumWhere(a + b, key, k, val) == SumWhere(a, key, k, val) + SumWhere(b, key, k, val)
  {
    if a == [] {
      assert a + b == b;
    } else {
      assert (a + b)[0] == a[0] && (a + b)[1..] == a[1..] + b;
      assert SumWhere(a + b, key, k, val)
          == (if key(a[0]) == k then val(a[0]) else 0.0) + SumWhere(a[1..] + b, key, k, val);
      SumWhereAppend(a[1..], b, key, k, val);
    }
  }

  /** SUM(val) over all rows. */
  function Sum<T>(rows: seq<T>, val: T -> real): real
  {
    if rows == [] then 0.0 else val(rows[0]) + Sum(rows[1..], val)
  }

  /** The grouped sums of `rows`, one per key of `ks`, added up. */
  function SumOverKeys<T, K(==)>(ks: seq<K>, rows: seq<T>, key: T -> K, val: T -> real): real
  {
    if ks == [] then 0.0 else SumWhere(rows, key, ks[0], val) + SumOverKeys(ks[1..], rows, key, val)
  }

  lemma {:induction false} SumOverKeysSplit<T, K>(ks: seq<K>, rows: seq<T>, key: T -> K, val: T -> real)
    requires rows != []
    ensures SumOverKeys(ks, rows, key, val)
         == SumOverKeys(ks, rows[..1], key, val) + SumOverKeys(ks, rows[1..], key, val)
  {
    if ks != [] {
      SumOverKeysSplit(ks[1..], rows, key, val);
      assert rows[..1][0] == rows[0] && rows[..1][1..] == [];
      assert SumWhere(rows[..1], key, ks[0], val) == if key(rows[0]) == ks[0] then val(rows[0]) else 0.0;
    }
  }

  lemma {:induction false} SumOverKeysSingle<T, K>(ks: seq<K>, x: T, key: T -> K, val: T -> real)
    requires Unique(ks)
    ensures SumOverKeys(ks, [x], key, val) == if key(x) in ks then val(x) else 0.0
  {
    if ks != [] {
      assert [x][1..] == [];
      assert SumWhere([x], key, ks[0], val) == if key(x) == ks[0] then val(x) else 0.0;
      SumOverKeysSingle(ks[1..], x, key, val);
      assert key(x) in ks <==> key(x) == ks[0] || key(x) in ks[1..];
      if key(x) == ks[0] {
        assert ks[0] !in ks[1..] by {
          forall j | 0 <= j < |ks[1..]| ensures ks[1..][j] != ks[0] {
            assert ks[1..][j] == ks[j + 1];
          }
        }
      }
    }
  }

  /**
   * The groups of a GROUP BY account for every row exactly once: when `ks`
   * lists each key at most once and covers every row's key, the grouped sums
   * add up to the sum over the whole table.
   */
  lemma {:induction false} GroupSumsAddUp<T, K>(ks: seq<K>, rows: seq<T>, key: T -> K, val: T -> real)
    requires Unique(ks)
    requires forall x :: x in rows ==> key(x) in ks
    ensures SumOverKeys(ks, rows, key, val) == Sum(rows, val)
  {
    if rows == [] {
      SumOverKeysOfNothing(ks, key, val);
    } else {
      SumOverKeysSplit(ks, rows, key, val);
      assert rows[..1] == [rows[0]];
      SumOverKeysSingle(ks, rows[0], key, val);
      assert forall x :: x in rows[1..] ==> x in rows;
      GroupSumsAddUp(ks, rows[1..], key, val);
    }
  }

  lemma {:induction false} SumOverKeysOfNothing<T, K>(ks: seq<K>, key: T -> K, val: T -> real)
    ensures SumOverKeys(ks, [], key, val) == 0.0
  {
    if ks != [] {
      SumOverKeysOfNothing(ks[1..], key, val);
    }
  }

  /**
   * A table of rollup rows `rs`, the i-th carrying the grouped sum for key
   * `ks[i]`, sums to the grouped sums over `ks`.
   */
  lemma {:induction false} SumOfRollup<R, T, K>(rs: seq<R>, g: R -> real, ks: seq<K>, rows: seq<T>, key: T -> K, val: T -> real)
    requires |rs| == |ks|
    requires forall i :: 0 <= i < |rs| ==> g(rs[i]) == SumWhere(rows, key, ks[i], val)
    ensures Sum(rs, g) == SumOverKeys(ks, rows, key, val)
  {
    if rs != [] {
      SumOfRollup(rs[1..], g, ks[1..], rows, key, val);
    }
  }

  /** The rows of `right` whose column `rkey` equals `k`, in order. */
  function MatchesOf<R(!new), K(==)>(right: seq<R>, rkey: R -> K, k: K): (m: seq<R>)
    ensures forall r :: r in m <==> r in right && rkey(r) == k
    ensures forall r :: multiset(m)[r] == if rkey(r) == k then multiset(right)[r] else 0
  {
    if right == [] then []
    else
      assert right == [right[0]] + right[1..];
      (if rkey(right[0]) == k then [right[0]] else []) + MatchesOf(right[1..], rkey, k)
  }

  lemma {:induction false} NoMatches<R(!new), K>(right: seq<R>, rkey: R -> K, k: K)
    requires forall r :: r in right ==> rkey(r) != k
    ensures MatchesOf(right, rkey, k) == []
  {
    if right != [] {
      assert right[0] in right;
      assert forall r :: r in right[1..] ==> r in right;
      NoMatches(right[1..], rkey, k);
    }
  }

  lemma {:induction false} MatchesOfUniqueKeys<R(!new), K>(right: seq<R>, rkey: R -> K, k: K)
    requires UniqueKeys(right, rkey)
    ensures |MatchesOf(right, rkey, k)| <= 1
  {
    if right != [] {
      var rest := right[1..];
      assert UniqueKeys(rest, rkey) by {
        forall i, j | 0 <= i < j < |rest| ensures rkey(rest[i]) != rkey(rest[j]) {
          assert rest[i] == right[i + 1] && rest[j] == right[j + 1];
        }
      }
      MatchesOfUniqueKeys(rest, rkey, k);
      if rkey(right[0]) == k {
        forall r | r in rest ensures rkey(r) != k {
          var j :| 0 <= j < |rest| && rest[j] == r;
          assert rest[j] == right[j + 1];
        }
        NoMatches(rest, rkey, k);
      }
    }
  }

  /** The first row of `right` whose column `rkey` equals `k`, if any. */
  function Lookup<R(!new), K(==)>(right: seq<R>, rkey: R -> K, k: K): (o: Option<R>)
    ensures o.None? <==> forall r :: r in right ==> rkey(r) != k
    ensures o.Some? ==> o.value in right && rkey(o.value) == k
  {
    var m := MatchesOf(right, rkey, k);
    if m == [] then None else assert m[0] in m; Some(m[0])
  }

  /**
   * SQL `left LEFT JOIN right ON lkey = rkey`: every left row paired with
   * each matching right row, or with None (NULLs) when no right row matches.
   */
  function LeftJoin<L(!new), R(!new), K(==)>(left: seq<L>, right: seq<R>, lkey: L -> K, rkey: R -> K): (j: seq<(L, Option<R>)>)
    ensures |j| >= |left|
    ensures forall x :: x in j ==> x.0 in left
    ensures forall x :: x in j && x.1.Some? ==> x.1.value in right && rkey(x.1.value) == lkey(x.0)
    ensures forall x :: x in j && x.1.None? ==> forall r :: r in right ==> rkey(r) != lkey(x.0)
  {
    if left == [] then []
    else
      var l := left[0];
      var m := MatchesOf(right, rkey, lkey(l));
      var here := JoinOne(l, m);
      var rest := LeftJoin(left[1..], right, lkey, rkey);
      forall x | x in here
        ensures x.0 == l && (x.1.Some? ==> x.1.value in m) && (x.1.None? ==> m == [])
      {
        var i :| 0 <= i < |here| && here[i] == x;
        if m != [] {
          assert m[i] in m;
        }
      }
      assert forall x :: x in rest ==> x.0 in left[1..];
      here + rest
  }

  /** The output rows of one left row `l` whose matches are `m`: one per match, or one with None. */
  function JoinOne<L, R>(l: L, m: seq<R>): (j: seq<(L, Option<R>)>)
    ensures |j| == if m == [] then 1 else |m|
    ensures forall i :: 0 <= i < |j| ==> j[i] == (l, if m == [] then None else Some(m[i]))
  {
    if m == [] then [(l, None)] else seq(|m|, i requires 0 <= i < |m| => (l, Some(m[i])))
  }

  /** LEFT JOIN never drops a left row: each one heads at least one output row. */
  lemma {:induction false} LeftJoinKeepsLeftRows<L(!new), R(!new), K>(left: seq<L>, right: seq<R>, lkey: L -> K, rkey: R -> K)
    ensures forall l :: l in left ==> exists x :: x in LeftJoin(left, right, lkey, rkey) && x.0 == l
  {
    if left != [] {
      LeftJoinKeepsLeftRows(left[1..], right, lkey, rkey);
      var j := LeftJoin(left, right, lkey, rkey);
      var rest := LeftJoin(left[1..], right, lkey, rkey);
      assert j[0].0 == left[0];
      assert j[0] in j;
      assert forall x :: x in rest ==> x in j;
      assert forall l :: l in left ==> l == left[0] || l in left[1..];
    }
  }

  /**
   * When the right side has at most one row per key, LEFT JOIN neither drops
   * nor duplicates a left row: the i-th output row is the i-th left row with
   * its match, or None.
   */
  lemma {:induction false} LeftJoinOneToOne<L(!new), R(!new), K>(left: seq<L>, right: seq<R>, lkey: L -> K, rkey: R -> K)
    requires UniqueKeys(right, rkey)
    ensures |LeftJoin(left, right, lkey, rkey)| == |left|
    ensures forall i :: 0 <= i < |left| ==>
      LeftJoin(left, right, lkey, rkey)[i] == (left[i], Lookup(right, rkey, lkey(left[i])))
  {
    if left != [] {
      var j := LeftJoin(left, right, lkey, rkey);
      var rest := LeftJoin(left[1..], right, lkey, rkey);
      LeftJoinHead(left, right, lkey, rkey);
      LeftJoinOneToOne(left[1..], right, lkey, rkey);
      assert |j| == 1 + |rest|;
      forall i | 1 <= i < |left|
        ensures j[i] == (left[i], Lookup(right, rkey, lkey(left[i])))
      {
        assert j[i] == rest[i - 1];
        assert left[1..][i - 1] == left[i];
      }
    }
  }

  /** With unique right keys, the first left row yields exactly one output row. */
  lemma LeftJoinHead<L(!new), R(!new), K>(left: seq<L>, right: seq<R>, lkey: L -> K, rkey: R -> K)
    requires UniqueKeys(right, rkey)
    requires left != []
    ensures LeftJoin(left, right, lkey, rkey)
      == [(left[0], Lookup(right, rkey, lkey(left[0])))] + LeftJoin(left[1..], right, lkey, rkey)
  {
    var m := MatchesOf(right, rkey, lkey(left[0]));
    MatchesOfUniqueKeys(right, rkey, lkey(left[0]));
    var here := JoinOne(left[0], m);
    assert |here| == 1;
    assert here[0] == (left[0], Lookup(right, rkey, lkey(left[0])));
    assert here == [(left[0], Lookup(right, rkey, lkey(left[0])))];
  }

  /** `key` never increases along `s` (the order ORDER BY key DESC produces). */
  predicate NonIncreasing<T>(s: seq<T>, key: T -> real)
  {
    forall i, j :: 0 <= i < j < |s| ==> key(s[i]) >= key(s[j])
  }

  lemma ConsNonIncreasing<T>(a: T, t: seq<T>, key: T -> real)
    requires NonIncreasing(t, key)
    requires t != [] ==> key(a) >= key(t[0])
    ensures NonIncreasing([a] + t, key)
  {
    forall i, j | 0 <= i < j < |[a] + t| ensures key(([a] + t)[i]) >= key(([a] + t)[j]) {
      if i == 0 && j > 1 {
        assert key(t[0]) >= key(t[j - 1]);
      }
    }
  }

  lemma NonIncreasingTail<T>(s: seq<T>, key: T -> real)
    requires NonIncreasing(s, key)
    requires s != []
    ensures NonIncreasing(s[1..], key)
  {
    forall i, j | 0 <= i < j < |s| - 1 ensures key(s[1..][i]) >= key(s[1..][j]) {
      assert s[1..][i] == s[i + 1] && s[1..][j] == s[j + 1];
    }
  }

  /**
   * Inserts `x` before the first row of `s` whose key is not larger than
   * x's, so rows with equal keys keep their order.
   */
  function InsertDesc<T>(x: T, s: seq<T>, key: T -> real): (r: seq<T>)
    ensures multiset(r) == multiset(s) + multiset{x}
    ensures |r| == |s| + 1
  {
    if s == [] || key(x) >= key(s[0]) then
      [x] + s
    else
      assert s == [s[0]] + s[1..];
      [s[0]] + InsertDesc(x, s[1..], key)
  }

  /** Inserting into a non-increasing sequence keeps it non-increasing. */
  lemma {:induction false} InsertDescSorted<T>(x: T, s: seq<T>, key: T -> real)
    requires NonIncreasing(s, key)
    ensures NonIncreasing(InsertDesc(x, s, key), key)
    ensures s != [] ==> InsertDesc(x, s, key)[0] == x || InsertDesc(x, s, key)[0] == s[0]
  {
    if s == [] || key(x) >= key(s[0]) {
      ConsNonIncreasing(x, s, key);
    } else {
      NonIncreasingTail(s, key);
      InsertDescSorted(x, s[1..], key);
      var t := InsertDesc(x, s[1..], key);
      assert key(s[0]) >= key(t[0]) by {
        if |s| > 1 { assert s[1..][0] == s[1]; }
      }
      ConsNonIncreasing(s[0], t, key);
    }
  }

  /**
   * ORDER BY key DESC: the rows rearranged so that `key` never increases;
   * rows with equal keys keep their input order.
   */
  function SortDesc<T>(rows: seq<T>, key: T -> real): (r: seq<T>)
    ensures multiset(r) == multiset(rows)
    ensures NonIncreasing(r, key)
    ensures |r| == |rows|
  {
    if rows == [] then []
    else
      assert rows == [rows[0]] + rows[1..];
      var t := SortDesc(rows[1..], key);
      InsertDescSorted(rows[0], t, key);
      InsertDesc(rows[0], t, key)
  }

  lemma {:induction false} TwiceInSeq<T>(s: seq<T>, i: nat, j: nat)
    requires i < j < |s| && s[i] == s[j]
    ensures multiset(s)[s[i]] >= 2
  {
    assert s == s[..j] + s[j..];
    assert s[i] == s[..j][i];
    assert s[j] == s[j..][0];
    assert multiset(s) == multiset(s[..j]) + multiset(s[j..]);
  }

  lemma {:induction false} TwiceInMultiset<T>(s: seq<T>, x: T)
    requires multiset(s)[x] >= 2
    ensures exists i, j :: 0 <= i < j < |s| && s[i] == x && s[j] == x
  {
    assert x in multiset(s);
    var k :| 0 <= k < |s| && s[k] == x;
    assert s == s[..k] + [x] + s[k + 1..];
    assert multiset(s) == multiset(s[..k]) + multiset{x} + multiset(s[k + 1..]);
    if x in multiset(s[..k]) {
      var i :| 0 <= i < k && s[..k][i] == x;
      assert s[i] == x;
    } else {
      assert x in multiset(s[k + 1..]);
      var j :| 0 <= j < |s[k + 1..]| && s[k + 1..][j] == x;
      assert s[k + 1 + j] == x;
    }
  }

  /** A row of a table is found, at some position, in any rearrangement of it. */
  lemma PermutationIndex<T>(s: seq<T>, t: seq<T>, x: T) returns (i: nat)
    requires x in s
    requires multiset(s) == multiset(t)
    ensures i < |t| && t[i] == x
  {
    assert x in multiset(s);
    i :| 0 <= i < |t| && t[i] == x;
  }

  /** Rearranging a table (same rows, same multiplicities) keeps its keys unique. */
  lemma UniqueKeysPermutation<T, K>(a: seq<T>, b: seq<T>, key: T -> K)
    requires multiset(a) == multiset(b)
    requires UniqueKeys(a, key)
    ensures UniqueKeys(b, key)
  {
    forall i, j | 0 <= i < j < |b| ensures key(b[i]) != key(b[j]) {
      if b[i] == b[j] {
        TwiceInSeq(b, i, j);
        TwiceInMultiset(a, b[i]);
      } else {
        assert b[i] in multiset(a) && b[j] in multiset(a);
        var i' :| 0 <= i' < |a| && a[i'] == b[i];
        var j' :| 0 <= j' < |a| && a[j'] == b[j];
        if i' > j' {
          assert key(a[j']) != key(a[i']);
        }
      }
    }
  }
}
