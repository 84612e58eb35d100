/** The `skip`/`take` pagination shared by the listing search and the
    admin lists: page `page` (1-based) of size `limit`, the total count of
    the filtered rows, and `totalPages = Math.ceil(total / limit)`. */
module Paging {
  import opened Seqs

  datatype Page<T> = Page(data: seq<T>, total: nat, page: nat, limit: nat, totalPages: nat)

  /** `Math.ceil(total / limit)` on whole numbers. */
  function CeilDiv(total: nat, limit: nat): (q: nat)
    requires limit >= 1
    ensures total <= q * limit
    ensures q == 0 || (q - 1) * limit < total
    ensures q == 0 <==> total == 0
  {
    var q := (total + limit - 1) / limit;
    DivBounds(total + limit - 1, limit);
    q
  }

  lemma DivBounds(n: nat, d: nat)
    requires d >= 1
    ensures n / d * d <= n < n / d * d + d
  {
  }

  /** `skip: skip, take: limit` over an ordered result set. */
  function Window<T>(s: seq<T>, skip: nat, limit: nat): (w: seq<T>)
    ensures |w| <= limit
    ensures forall i :: 0 <= i < |w| ==> skip + i < |s| && w[i] == s[skip + i]
    ensures |w| == if skip >= |s| then 0 else if skip + limit <= |s| then limit else |s| - skip
  {
    if skip >= |s| then []
    else if skip + limit <= |s| then s[skip..skip + limit]
    else s[skip..]
  }

  /** `skip: (page - 1) * limit, take: limit` over an ordered result set. */
  function Paginate<T>(s: seq<T>, page: nat, limit: nat): (p: Page<T>)
    requires page >= 1 && limit >= 1
    ensures p.total == |s| && p.page == page && p.limit == limit
    ensures |p.data| <= limit
    ensures forall i :: 0 <= i < |p.data| ==> (page - 1) * limit + i < |s| && p.data[i] == s[(page - 1) * limit + i]
    ensures |p.data| == if (page - 1) * limit >= |s| then 0
                        else if (page - 1) * limit + limit <= |s| then limit
                        else |s| - (page - 1) * limit
    ensures p.totalPages == CeilDiv(|s|, limit)
  {
    Page(Window(s, (page - 1) * limit, limit), |s|, page, limit, CeilDiv(|s|, limit))
  }

  /** Every row of the ordered result set is on exactly the page its position
      says, and that page is within `totalPages`: walking the pages from 1 to
      `totalPages` visits the whole result. */
  lemma {:induction false} RowOnItsPage<T>(s: seq<T>, limit: nat, k: nat)
    requires limit >= 1 && k < |s|
    ensures var p := Paginate(s, k / limit + 1, limit);
            1 <= p.page <= p.totalPages && k % limit < |p.data| && p.data[k % limit] == s[k]
  {
    var q, m := k / limit, k % limit;
    DivBounds(k, limit);
    assert q * limit + m == k;
    var p := Paginate(s, q + 1, limit);
    assert (q + 1 - 1) * limit == q * limit;
    assert m < |p.data| && p.data[m] == s[q * limit + m];
    var pages := CeilDiv(|s|, limit);
    if pages < q + 1 {
      MulMonotone(pages, q, limit);
      assert false;
    }
  }

  lemma MulMonotone(a: nat, b: nat, c: nat)
    requires a <= b
    ensures a * c <= b * c
  {
  }

  /** Walking the pages from 1 to `totalPages` meets every row of the result set. */
  lemma EveryRowIsOnSomePage<T>(s: seq<T>, limit: nat, x: T)
    requires limit >= 1 && x in s
    ensures exists page: nat :: 1 <= page <= Paginate(s, page, limit).totalPages && x in Paginate(s, page, limit).data
  {
    var k :| 0 <= k < |s| && s[k] == x;
    RowOnItsPage(s, limit, k);
    var p := Paginate(s, k / limit + 1, limit);
    assert p.data[k % limit] == x;
  }

  /** A page is a slice of the result set, so it keeps its rows and their order. */
  lemma PageOfSorted<T>(s: seq<T>, page: nat, limit: nat, key: T -> int)
    requires page >= 1 && limit >= 1
    ensures forall i :: 0 <= i < |Paginate(s, page, limit).data| ==> Paginate(s, page, limit).data[i] in s
    ensures SortedBy(s, key) ==> SortedBy(Paginate(s, page, limit).data, key)
  {
    WindowOfSorted(s, (page - 1) * limit, limit, key);
  }

  lemma WindowOfSorted<T>(s: seq<T>, skip: nat, limit: nat, key: T -> int)
    ensures forall i :: 0 <= i < |Window(s, skip, limit)| ==> Window(s, skip, limit)[i] in s
    ensures SortedBy(s, key) ==> SortedBy(Window(s, skip, limit), key)
  {
    var d := Window(s, skip, limit);
    if SortedBy(s, key) {
      forall i, j | 0 <= i < j < |d| ensures key(d[i]) <= key(d[j]) {
        assert d[i] == s[skip + i] && d[j] == s[skip + j];
      }
    }
  }
}
