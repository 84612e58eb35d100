/** Generic operations on table snapshots: the `where` filter, the first
    match of `findFirst`/`findUnique`, counting, `orderBy` on one key, and
    the grouping fold behind `groupBy` and the admin daily histogram. */
module Seqs {
  import opened Wrappers

  // ---------------------------------------------------------------------
  // Filtering (a `where` clause)
  // ---------------------------------------------------------------------

  /** The rows of `s` satisfying `p`, in table order. */
  function Filter<T(!new)>(s: seq<T>, p: T -> bool): (r: seq<T>)
    ensures |r| <= |s|
    ensures forall x :: x in r <==> x in s && p(x)
    ensures forall i :: 0 <= i < |r| ==> p(r[i])
    ensures multiset(r) <= multiset(s)
  {
    if s == [] then []
    else
      assert s == [s[0]] + s[1..];
      if p(s[0]) then [s[0]] + Filter(s[1..], p)
      else Filter(s[1..], p)
  }

  /** Number of rows satisfying `p` (Prisma `count({ where })`). */
  function Count<T(!new)>(s: seq<T>, p: T -> bool): (n: nat)
    ensures n <= |s|
    ensures n == 0 <==> forall i :: 0 <= i < |s| ==> !p(s[i])
  {
    FilterEmpty(s, p);
    |Filter(s, p)|
  }

  lemma {:induction false} FilterEmpty<T(!new)>(s: seq<T>, p: T -> bool)
    ensures Filter(s, p) == [] <==> forall i :: 0 <= i < |s| ==> !p(s[i])
  {
    if s != [] {
      FilterEmpty(s[1..], p);
      if !p(s[0]) {
        forall i | 0 < i < |s| ensures !p(s[i]) <== Filter(s[1..], p) == [] {
          assert s[i] == s[1..][i - 1];
        }
      }
    }
  }

  lemma {:induction false} FilterAppend<T(!new)>(a: seq<T>, b: seq<T>, p: T -> bool)
    ensures Filter(a + b, p) == Filter(a, p) + Filter(b, p)
  {
    if a == [] {
      assert a + b == b;
    } else {
      assert (a + b)[0] == a[0];
      assert (a + b)[1..] == a[1..] + b;
      FilterAppend(a[1..], b, p);
    }
  }

  /** A filter applied twice keeps what it kept once. */
  lemma {:induction false} FilterIdempotent<T(!new)>(s: seq<T>, p: T -> bool)
    ensures Filter(Filter(s, p), p) == Filter(s, p)
  {
    if s != [] {
      FilterIdempotent(s[1..], p);
      if p(s[0]) {
        var f := Filter(s, p);
        assert f[0] == s[0] && f[1..] == Filter(s[1..], p);
      }
    }
  }

  /** A filter that every row passes keeps the whole table. */
  lemma {:induction false} FilterKeepsAll<T(!new)>(s: seq<T>, p: T -> bool)
    requires forall i :: 0 <= i < |s| ==> p(s[i])
    ensures Filter(s, p) == s
  {
    if s != [] {
      FilterKeepsAll(s[1..], p);
      assert [s[0]] + s[1..] == s;
    }
  }

  /** A stricter condition keeps no more rows. */
  lemma {:induction false} FilterMonotone<T(!new)>(s: seq<T>, p: T -> bool, q: T -> bool)
    requires forall i :: 0 <= i < |s| && p(s[i]) ==> q(s[i])
    ensures |Filter(s, p)| <= |Filter(s, q)|
  {
    if s != [] {
      FilterMonotone(s[1..], p, q);
    }
  }

  /** Rows of two exclusive kinds number at most the whole table. */
  lemma {:induction false} CountDisjoint<T(!new)>(s: seq<T>, p: T -> bool, q: T -> bool)
    requires forall i :: 0 <= i < |s| ==> !(p(s[i]) && q(s[i]))
    ensures Count(s, p) + Count(s, q) <= |s|
  {
    if s != [] {
      CountDisjoint(s[1..], p, q);
    }
  }

  // ---------------------------------------------------------------------
  // First match (`findFirst` / `findUnique`)
  // ---------------------------------------------------------------------

  /** Index of the first row satisfying `p`, if any. */
  function FindFirst<T>(s: seq<T>, p: T -> bool): (r: Option<nat>)
    ensures r.Some? ==> r.value < |s| && p(s[r.value])
    ensures r.Some? ==> forall j :: 0 <= j < r.value ==> !p(s[j])
    ensures r.None? <==> forall j :: 0 <= j < |s| ==> !p(s[j])
  {
    if s == [] then None
    else if p(s[0]) then Some(0)
    else match FindFirst(s[1..], p)
      case None => None
      case Some(i) => Some(i + 1)
  }

  /** `s` without the row at index `i`. */
  function RemoveAt<T>(s: seq<T>, i: nat): (r: seq<T>)
    requires i < |s|
    ensures |r| == |s| - 1
    ensures forall j :: 0 <= j < i ==> r[j] == s[j]
    ensures forall j :: i <= j < |r| ==> r[j] == s[j + 1]
    ensures multiset(r) == multiset(s) - multiset{s[i]}
  {
    assert s == s[..i] + [s[i]] + s[i + 1..];
    s[..i] + s[i + 1..]
  }

  // ---------------------------------------------------------------------
  // Ordering on one integer key (`orderBy`)
  // ---------------------------------------------------------------------

  ghost predicate SortedBy<T>(s: seq<T>, key: T -> int) {
    forall i, j :: 0 <= i < j < |s| ==> key(s[i]) <= key(s[j])
  }

  function Insert<T>(x: T, s: seq<T>, key: T -> int): (r: seq<T>)
    requires SortedBy(s, key)
    ensures |r| == |s| + 1
    ensures multiset(r) == multiset(s) + multiset{x}
    ensures forall y :: y in r ==> y == x || y in s
    ensures SortedBy(r, key)
  {
    if s == [] then [x]
    else if key(x) <= key(s[0]) then [x] + s
    else
      assert s == [s[0]] + s[1..];
      var t := Insert(x, s[1..], key);
      HeadBelowRest(x, s, t, key);
      [s[0]] + t
  }

  lemma HeadBelowRest<T>(x: T, s: seq<T>, t: seq<T>, key: T -> int)
    requires s != [] && SortedBy(s, key) && key(s[0]) < key(x)
    requires SortedBy(t, key)
    requires forall y :: y in t ==> y == x || y in s[1..]
    ensures SortedBy([s[0]] + t, key)
  {
    forall k | 0 <= k < |t| ensures key(s[0]) <= key(t[k]) {
      assert t[k] in t;
      if t[k] != x {
        assert t[k] in s[1..];
        var j :| 0 <= j < |s[1..]| && s[1..][j] == t[k];
        assert s[j + 1] == t[k];
      }
    }
  }

  /** The rows of `s` ordered by ascending `key` (equal keys keep table order). */
  function SortBy<T>(s: seq<T>, key: T -> int): (r: seq<T>)
    ensures SortedBy(r, key)
    ensures multiset(r) == multiset(s)
    ensures |r| == |s|
  {
    if s == [] then []
    else
      assert s == [s[0]] + s[1..];
      Insert(s[0], SortBy(s[1..], key), key)
  }

  // ---------------------------------------------------------------------
  // Grouping counts (`acc[k] = (acc[k] || 0) + 1`, Prisma `groupBy`)
  // ---------------------------------------------------------------------

  /** How many rows of `s` have key `k`. */
  function KeyCount<T, K(==)>(s: seq<T>, key: T -> K, k: K): nat
  {
    if s == [] then 0
    else KeyCount(s[..|s| - 1], key, k) + (if key(s[|s| - 1]) == k then 1 else 0)
  }

  /** The left fold that counts rows per key. */
  function Histogram<T, K(==,!new)>(s: seq<T>, key: T -> K): (h: map<K, nat>)
    ensures forall k :: k in h <==> KeyCount(s, key, k) > 0
    ensures forall k :: k in h ==> h[k] == KeyCount(s, key, k)
  {
    if s == [] then map[]
    else
      var h := Histogram(s[..|s| - 1], key);
      var k := key(s[|s| - 1]);
      h[k := (if k in h then h[k] else 0) + 1]
  }

  lemma {:induction false} KeyCountPositive<T, K>(s: seq<T>, key: T -> K, k: K)
    ensures KeyCount(s, key, k) > 0 <==> exists i :: 0 <= i < |s| && key(s[i]) == k
  {
    if s != [] {
      var init := s[..|s| - 1];
      KeyCountPositive(init, key, k);
      if exists i :: 0 <= i < |init| && key(init[i]) == k {
        var i :| 0 <= i < |init| && key(init[i]) == k;
        assert key(s[i]) == k;
      }
      if exists i :: 0 <= i < |s| && key(s[i]) == k {
        var i :| 0 <= i < |s| && key(s[i]) == k;
        if i < |s| - 1 {
          assert key(init[i]) == k;
        }
      }
    }
  }

  /** Sum of the counts of a grouping. */
  ghost function MapSum<K>(m: map<K, nat>): nat
    decreases |m|
  {
    if m == map[] then 0
    else
      var k :| k in m;
      m[k] + MapSum(m - {k})
  }

  lemma {:induction false} MapSumPick<K>(m: map<K, nat>, k: K)
    requires k in m
    ensures MapSum(m) == m[k] + MapSum(m - {k})
    decreases |m|
  {
    var k0 :| k0 in m && MapSum(m) == m[k0] + MapSum(m - {k0});
    if k0 != k {
      MapSumPick(m - {k0}, k);
      MapSumPick(m - {k}, k0);
      assert m - {k0} - {k} == m - {k} - {k0};
    }
  }

  /** The counts of a grouping add up to the number of rows grouped. */
  lemma {:induction false} HistogramTotal<T, K(!new)>(s: seq<T>, key: T -> K)
    ensures MapSum(Histogram(s, key)) == |s|
  {
    if s != [] {
      var init := s[..|s| - 1];
      var h := Histogram(init, key);
      var k := key(s[|s| - 1]);
      HistogramTotal(init, key);
      var h' := h[k := (if k in h then h[k] else 0) + 1];
      assert Histogram(s, key) == h';
      MapSumPick(h', k);
      if k in h {
        MapSumPick(h, k);
        assert h' - {k} == h - {k};
      } else {
        assert h' - {k} == h;
      }
    }
  }
}
