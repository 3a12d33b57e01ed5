/**
 * The administrator's demo-data page: a selection of data types, a quantity per
 * type, and the "Generate All Selected" request built from them.
 */
module DemoDataPage {
  import opened Common
  import opened Store
  import AdminRoutes

  /** The five data types the page lists, in its order. */
  const DataTypes: seq<string> := ["users", "categories", "products", "orders", "reviews"]

  predicate NoDuplicates(s: seq<string>)
  {
    forall i, j :: 0 <= i < j < |s| ==> s[i] != s[j]
  }

  /** `filter(t => t !== type)`. */
  function Without(s: seq<string>, t: string): (r: seq<string>)
    ensures forall x :: x in r <==> x in s && x != t
    ensures NoDuplicates(s) ==> NoDuplicates(r)
  {
    if |s| == 0 then []
    else
      var rest := Without(s[1..], t);
      assert forall x :: x in s[1..] ==> x in s;
      if s[0] == t then rest
      else
        assert NoDuplicates(s) ==> s[0] !in s[1..];
        [s[0]] + rest
  }

  /** `toggleDataSelection`: remove the type when selected, append it otherwise. */
  function Toggle(s: seq<string>, t: string): seq<string>
  {
    if t in s then Without(s, t) else s + [t]
  }

  /**
   * A toggle flips the type's membership and leaves every other type's alone, so
   * toggling twice restores the selection as a set; a selection without repeats
   * stays without repeats.
   */
  lemma ToggleEffect(s: seq<string>, t: string, x: string)
    ensures x in Toggle(s, t) <==> (if x == t then t !in s else x in s)
    ensures x in Toggle(Toggle(s, t), t) <==> x in s
    ensures NoDuplicates(s) ==> NoDuplicates(Toggle(s, t))
  {
  }

  /** `Math.max(1, value)`. */
  function AtLeastOne(v: int): (r: int)
    ensures r >= 1 && r >= v && (v >= 1 ==> r == v)
  {
    if v >= 1 then v else 1
  }

  /** The quantity of one type; 0 for a type the page does not list. */
  function QuantityOf(q: AdminRoutes.DemoQuantities, t: string): int
  {
    if t == "users" then q.users
    else if t == "categories" then q.categories
    else if t == "products" then q.products
    else if t == "orders" then q.orders
    else if t == "reviews" then q.reviews
    else 0
  }

  /** `{ ...prev, [type]: v }` on the five quantities; another key is not read back by the page. */
  function WithQuantity(q: AdminRoutes.DemoQuantities, t: string, v: int): (r: AdminRoutes.DemoQuantities)
    ensures t in DataTypes ==> QuantityOf(r, t) == v
    ensures forall u :: u != t ==> QuantityOf(r, u) == QuantityOf(q, u)
  {
    if t == "users" then q.(users := v)
    else if t == "categories" then q.(categories := v)
    else if t == "products" then q.(products := v)
    else if t == "orders" then q.(orders := v)
    else if t == "reviews" then q.(reviews := v)
    else q
  }

  predicate Positive(q: AdminRoutes.DemoQuantities)
  {
    q.users >= 1 && q.categories >= 1 && q.products >= 1 && q.orders >= 1 && q.reviews >= 1
  }

  /** `handleGenerateAll` as written: an object holding the selected types' quantities only. */
  function SelectedQuantities(s: seq<string>, q: AdminRoutes.DemoQuantities): AdminRoutes.QuantityRequest
  {
    AdminRoutes.QuantityRequest(
      if "users" in s then Some(q.users) else None,
      if "categories" in s then Some(q.categories) else None,
      if "products" in s then Some(q.products) else None,
      if "orders" in s then Some(q.orders) else None,
      if "reviews" in s then Some(q.reviews) else None)
  }

  /**
   * As written, the server fills every type left out with its default, so asking
   * for the users alone also generates 5 categories, 20 products, 15 orders and 30
   * reviews.
   */
  lemma UnselectedStillGenerated(q: AdminRoutes.DemoQuantities)
    requires 1 <= q.users <= 100
    ensures AdminRoutes.GenerateAllRequest(Some(SelectedQuantities(["users"], q)))
            == Success(AdminRoutes.DemoQuantities(q.users, 5, 20, 15, 30))
  {
  }

  /** The request as intended: every type present, with 0 for a type not selected. */
  function GenerateAllQuantities(s: seq<string>, q: AdminRoutes.DemoQuantities): AdminRoutes.QuantityRequest
  {
    AdminRoutes.QuantityRequest(
      Some(if "users" in s then q.users else 0),
      Some(if "categories" in s then q.categories else 0),
      Some(if "products" in s then q.products else 0),
      Some(if "orders" in s then q.orders else 0),
      Some(if "reviews" in s then q.reviews else 0))
  }

  /**
   * With the intended request the server generates a type exactly when it is
   * selected, in the selected quantity, and accepts the request whenever every
   * quantity is at most 100.
   */
  lemma GenerateAllSelectedOnly(s: seq<string>, q: AdminRoutes.DemoQuantities, t: string)
    requires Positive(q) && QuantityOf(q, "users") <= 100 && q.categories <= 100 && q.products <= 100
             && q.orders <= 100 && q.reviews <= 100
    requires t in DataTypes
    ensures var r := AdminRoutes.GenerateAllRequest(Some(GenerateAllQuantities(s, q)));
            r.Success? && (QuantityOf(r.value, t) > 0 <==> t in s)
            && (t in s ==> QuantityOf(r.value, t) == QuantityOf(q, t))
  {
  }

  class DemoDataForm {
    var selected: seq<string>
    var quantities: AdminRoutes.DemoQuantities
    var loading: bool
    /** The generate-all requests the page has sent. */
    var sent: seq<AdminRoutes.QuantityRequest>

    /** Every quantity at least 1 and the selection without repeats. */
    predicate Valid()
      reads this
    {
      Positive(quantities) && NoDuplicates(selected)
    }

    constructor ()
      ensures Valid() && selected == [] && quantities == AdminRoutes.DemoQuantities(10, 5, 20, 15, 30)
      ensures !loading && sent == []
    {
      selected := [];
      quantities := AdminRoutes.DemoQuantities(10, 5, 20, 15, 30);
      loading := false;
      sent := [];
    }

    method ToggleDataSelection(t: string)
      requires Valid()
      modifies this`selected
      ensures Valid() && selected == Toggle(old(selected), t)
    {
      ToggleEffect(selected, t, t);
      selected := Toggle(selected, t);
    }

    /** `updateQuantity`: the type's quantity becomes max(1, value); the others stay. */
    method UpdateQuantity(t: string, value: int)
      requires Valid()
      modifies this`quantities
      ensures Valid() && quantities == WithQuantity(old(quantities), t, AtLeastOne(value))
    {
      quantities := WithQuantity(quantities, t, AtLeastOne(value));
    }

    method SelectAll()
      requires Valid()
      modifies this`selected
      ensures Valid() && selected == DataTypes
    {
      selected := DataTypes;
    }

    method ClearSelection()
      requires Valid()
      modifies this`selected
      ensures Valid() && selected == []
    {
      selected := [];
    }

    /** The button is disabled while a request runs or when nothing is selected. */
    predicate GenerateAllDisabled()
      reads this
    {
      loading || |selected| == 0
    }

    /**
     * An enabled button never sends an empty request: some selected type is
     * asked for at least one record.
     */
    lemma EnabledRequestNotEmpty()
      requires Valid() && !GenerateAllDisabled()
      requires forall t :: t in selected ==> t in DataTypes
      ensures GenerateAllQuantities(selected, quantities)
              != AdminRoutes.QuantityRequest(Some(0), Some(0), Some(0), Some(0), Some(0))
    {
      assert selected[0] in DataTypes;
    }

    /** `handleGenerateAll`, with the intended request; loading is over once the server answers. */
    method HandleGenerateAll()
      requires Valid()
      modifies this`sent, this`loading
      ensures Valid() && !loading
      ensures sent == old(sent) + [GenerateAllQuantities(selected, quantities)]
    {
      loading := true;
      sent := sent + [GenerateAllQuantities(selected, quantities)];
      loading := false;
    }
  }
}
