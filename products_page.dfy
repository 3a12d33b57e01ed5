/**
 * The shop's product page keeps its filters in the URL query string. A filter
 * change copies the current parameters, sets or deletes one key, resets the
 * page to 1 for any key other than the page itself, and hands the copy to the
 * router. The query string is an ordered list of key/value pairs, as
 * `URLSearchParams` keeps it.
 */
module ProductsPage {
  import opened Common

  type Param = (string, string)

  /** `get(key)`: the value of the first pair with the key. */
  function GetParam(ps: seq<Param>, key: string): (r: Option<string>)
    ensures r.None? <==> forall i :: 0 <= i < |ps| ==> ps[i].0 != key
  {
    if |ps| == 0 then None
    else if ps[0].0 == key then Some(ps[0].1)
    else GetParam(ps[1..], key)
  }

  /** `delete(key)`: every pair with the key removed, the others kept in order. */
  function DeleteParam(ps: seq<Param>, key: string): (r: seq<Param>)
    ensures forall i :: 0 <= i < |r| ==> r[i].0 != key && r[i] in ps
    ensures forall x :: x in ps && x.0 != key ==> x in r
  {
    if |ps| == 0 then []
    else if ps[0].0 == key then DeleteParam(ps[1..], key)
    else [ps[0]] + DeleteParam(ps[1..], key)
  }

  /**
   * `set(key, value)`: the first pair with the key takes the value and later
   * pairs with the key are removed; with no such pair, one is appended.
   */
  function SetParam(ps: seq<Param>, key: string, value: string): (r: seq<Param>)
    ensures forall x :: x in r <==> x == (key, value) || (x in ps && x.0 != key)
  {
    if |ps| == 0 then [(key, value)]
    else if ps[0].0 == key then [(key, value)] + DeleteParam(ps[1..], key)
    else [ps[0]] + SetParam(ps[1..], key, value)
  }

  /** After a delete the key is absent and every other key reads as before. */
  lemma {:induction false} DeleteParamEffect(ps: seq<Param>, key: string, other: string)
    ensures GetParam(DeleteParam(ps, key), key) == None
    ensures other != key ==> GetParam(DeleteParam(ps, key), other) == GetParam(ps, other)
  {
    if |ps| > 0 {
      DeleteParamEffect(ps[1..], key, other);
    }
  }

  /** After a set the key reads as the value and every other key reads as before. */
  lemma {:induction false} SetParamEffect(ps: seq<Param>, key: string, value: string, other: string)
    ensures GetParam(SetParam(ps, key, value), key) == Some(value)
    ensures other != key ==> GetParam(SetParam(ps, key, value), other) == GetParam(ps, other)
  {
    if |ps| > 0 {
      if ps[0].0 == key {
        DeleteParamEffect(ps[1..], key, other);
      } else {
        SetParamEffect(ps[1..], key, value, other);
      }
    }
  }

  /** A mutable copy of the query string, as `new URLSearchParams(searchParams)` makes it. */
  class SearchParams {
    var entries: seq<Param>

    constructor Copy(ps: seq<Param>)
      ensures entries == ps
    {
      entries := ps;
    }

    method Set(key: string, value: string)
      modifies this
      ensures entries == SetParam(old(entries), key, value)
    {
      entries := SetParam(entries, key, value);
    }

    method Delete(key: string)
      modifies this
      ensures entries == DeleteParam(old(entries), key)
    {
      entries := DeleteParam(entries, key);
    }
  }

  /**
   * The query string a filter change produces from the rendered one: the key
   * with its value when the value is non-empty and absent otherwise, the page
   * at "1" for any other key, and every other pair kept.
   */
  function FilterChange(ps: seq<Param>, key: string, value: string): (r: seq<Param>)
    ensures value != "" ==> (key, value) in r
    ensures value == "" ==> forall x :: x in r ==> x.0 != key
    ensures key != "page" ==> ("page", "1") in r
    ensures forall x :: x in ps && x.0 != key && x.0 != "page" ==> x in r
    ensures forall x :: x in r ==> x in ps || x == (key, value) || x == ("page", "1")
  {
    var changed := if value != "" then SetParam(ps, key, value) else DeleteParam(ps, key);
    if key != "page" then SetParam(changed, "page", "1") else changed
  }

  /** `handleFilterChange`: copy, set or delete the key, reset the page for other keys. */
  method HandleFilterChange(ps: seq<Param>, key: string, value: string) returns (r: seq<Param>)
    ensures r == FilterChange(ps, key, value)
  {
    var next := new SearchParams.Copy(ps);
    if value != "" {
      next.Set(key, value);
    } else {
      next.Delete(key);
    }
    if key != "page" {
      next.Set("page", "1");
    }
    r := next.entries;
  }

  /**
   * A filter change sets the key to a non-empty value and removes it for an empty
   * one; for any key but the page it also sends the page back to "1"; every other
   * key keeps its value.
   */
  lemma FilterChangeEffect(ps: seq<Param>, key: string, value: string, other: string)
    ensures var r := FilterChange(ps, key, value);
            (key != "page" ==> GetParam(r, key) == (if value != "" then Some(value) else None)
                                && GetParam(r, "page") == Some("1"))
            && (key == "page" ==> GetParam(r, "page") == (if value != "" then Some(value) else None))
            && (other != key && other != "page" ==> GetParam(r, other) == GetParam(ps, other))
  {
    var changed := if value != "" then SetParam(ps, key, value) else DeleteParam(ps, key);
    if value != "" {
      SetParamEffect(ps, key, value, other);
      SetParamEffect(ps, key, value, key);
    } else {
      DeleteParamEffect(ps, key, other);
    }
    if key != "page" {
      SetParamEffect(changed, "page", "1", key);
      SetParamEffect(changed, "page", "1", other);
    }
  }

  /**
   * The product page's router state: the query string of the current render and
   * the one most recently handed to `setSearchParams`, which takes effect at the
   * next render.
   */
  class ProductsView {
    var rendered: seq<Param>
    var requested: seq<Param>

    constructor (ps: seq<Param>)
      ensures rendered == ps && requested == ps
    {
      rendered := ps;
      requested := ps;
    }

    /** `handleFilterChange` inside a render: computed from the rendered parameters. */
    method OnFilterChange(key: string, value: string)
      modifies this`requested
      ensures requested == FilterChange(rendered, key, value)
    {
      requested := HandleFilterChange(rendered, key, value);
    }

    /**
     * The sort selector's handler: two filter changes in one render, for the sort
     * field and then the order. Both start from the same rendered parameters.
     */
    method OnSortChange(sortBy: string, sortOrder: string)
      modifies this`requested
      ensures requested == FilterChange(rendered, "sortOrder", sortOrder)
    {
      OnFilterChange("sortBy", sortBy);
      OnFilterChange("sortOrder", sortOrder);
    }
  }

  /**
   * The sort handler loses its first change: the resulting query string keeps the
   * rendered sort field, whatever field was chosen, and takes only the new order.
   */
  lemma SortChangeLosesField(ps: seq<Param>, sortBy: string, sortOrder: string)
    requires sortOrder != ""
    ensures var r := FilterChange(ps, "sortOrder", sortOrder);
            GetParam(r, "sortBy") == GetParam(ps, "sortBy") && GetParam(r, "sortOrder") == Some(sortOrder)
  {
    FilterChangeEffect(ps, "sortOrder", sortOrder, "sortBy");
  }

  /**
   * The sort change as intended: the order's change applied on top of the
   * field's, so both new values and the first page are in the result.
   */
  function SortChange(ps: seq<Param>, sortBy: string, sortOrder: string): (r: seq<Param>)
    ensures sortBy != "" && sortOrder != "" ==>
              ("sortBy", sortBy) in r && ("sortOrder", sortOrder) in r && ("page", "1") in r
  {
    FilterChange(FilterChange(ps, "sortBy", sortBy), "sortOrder", sortOrder)
  }

  /** The intended sort change sets both the field and the order, sends the page to 1, and keeps every other key. */
  lemma SortChangeSetsBoth(ps: seq<Param>, sortBy: string, sortOrder: string, other: string)
    requires sortBy != "" && sortOrder != ""
    ensures var r := SortChange(ps, sortBy, sortOrder);
            GetParam(r, "sortBy") == Some(sortBy) && GetParam(r, "sortOrder") == Some(sortOrder)
            && GetParam(r, "page") == Some("1")
            && (other != "sortBy" && other != "sortOrder" && other != "page" ==> GetParam(r, other) == GetParam(ps, other))
  {
    FilterChangeEffect(ps, "sortBy", sortBy, other);
    FilterChangeEffect(FilterChange(ps, "sortBy", sortBy), "sortOrder", sortOrder, other);
    FilterChangeEffect(FilterChange(ps, "sortBy", sortBy), "sortOrder", sortOrder, "sortBy");
  }
}
