/**
 * The paging arithmetic the list endpoints and pages share: a query number with
 * a default for a missing or zero value, the page count `Math.ceil(total / limit)`,
 * and the window `skip(s).limit(l)` a page shows.
 */
module Paging {
  import opened Common

  /**
   * `parseInt(x) || d`: the parsed number, or the default when it is missing
   * (NaN) or zero, both of which are falsy.
   */
  function OrDefault(v: Option<int>, d: int): (r: int)
    ensures v.Some? && v.value != 0 ==> r == v.value
    ensures v.None? || v.value == 0 ==> r == d
  {
    if v.Some? && v.value != 0 then v.value else d
  }

  /** `Math.ceil(total / limit)`: the fewest pages of `limit` entries that hold `total` entries. */
  function CeilDiv(total: nat, limit: nat): (r: nat)
    requires limit > 0
    ensures total <= r * limit
    ensures r > 0 ==> (r - 1) * limit < total
  {
    if total == 0 then 0
    else if total <= limit then 1
    else 1 + CeilDiv(total - limit, limit)
  }

  /** `find(query)`: the documents satisfying a test, in stored order. */
  function Select<T>(s: seq<T>, test: T -> bool): (r: seq<T>)
    ensures |r| <= |s|
    ensures forall k :: 0 <= k < |r| ==> test(r[k]) && r[k] in s
  {
    if |s| == 0 then []
    else
      var last := s[|s| - 1];
      Select(s[..|s| - 1], test) + (if test(last) then [last] else [])
  }

  /** Nothing that passes the test is left out. */
  lemma {:induction false} SelectComplete<T>(s: seq<T>, test: T -> bool)
    ensures forall x :: x in s && test(x) ==> x in Select(s, test)
  {
    if |s| > 0 {
      var n := |s| - 1;
      SelectComplete(s[..n], test);
      assert s == s[..n] + [s[n]];
    }
  }

  /** `skip(skip).limit(limit)`: at most `limit` entries starting at position `skip`. */
  function Window<T>(s: seq<T>, skip: nat, limit: nat): (w: seq<T>)
    ensures skip >= |s| ==> w == []
    ensures skip < |s| ==> |w| == (if |s| - skip < limit then |s| - skip else limit)
    ensures forall k {:trigger w[k]} :: 0 <= k < |w| ==> skip + k < |s| && w[k] == s[skip + k]
  {
    if skip >= |s| then [] else s[skip..if skip + limit < |s| then skip + limit else |s|]
  }

  /** `(page - 1) * limit`: the entries on the pages before page `page`. */
  function PageStart(page: nat, limit: nat): nat
    requires page >= 1
  {
    (page - 1) * limit
  }

  /**
   * Every entry is on exactly one page: entry `i` is entry `i % limit` of page
   * `i / limit + 1`, and that page is within the page count.
   */
  lemma WindowPosition<T>(s: seq<T>, limit: nat, i: nat)
    requires limit > 0 && i < |s|
    ensures var page := i / limit + 1;
            var w := Window(s, (page - 1) * limit, limit);
            i % limit < |w| && w[i % limit] == s[i] && page <= CeilDiv(|s|, limit)
  {
    var q, m := i / limit, i % limit;
    assert q * limit + m == i;
    WindowEntry(s, limit, q + 1, m);
  }

  /**
   * Entry `offset` of page `page` is entry `(page - 1) * limit + offset` of the
   * whole sequence whenever that exists, and the page is then within the page count.
   */
  lemma WindowEntry<T>(s: seq<T>, limit: nat, page: nat, offset: nat)
    requires limit > 0 && page >= 1 && offset < limit && (page - 1) * limit + offset < |s|
    ensures var w := Window(s, (page - 1) * limit, limit);
            offset < |w| && w[offset] == s[(page - 1) * limit + offset] && page <= CeilDiv(|s|, limit)
  {
    var n := CeilDiv(|s|, limit);
    if n <= page - 1 {
      MulMonotone(n, page - 1, limit);
      assert false;
    }
  }

  /** A page is non-empty exactly when its number is at most the page count. */
  lemma NonEmptyPages<T>(s: seq<T>, limit: nat, page: nat)
    requires limit > 0 && page >= 1
    ensures |Window(s, (page - 1) * limit, limit)| > 0 <==> page <= CeilDiv(|s|, limit)
  {
    var n := CeilDiv(|s|, limit);
    if page <= n {
      MulMonotone(page - 1, n - 1, limit);
    } else {
      MulMonotone(n, page - 1, limit);
    }
  }

  lemma MulMonotone(a: nat, b: nat, c: nat)
    requires a <= b
    ensures a * c <= b * c
  {
  }
}
