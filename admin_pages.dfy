/**
 * The logic of the administrator's product and order tables: which badge a
 * product row shows, when its stock figure is highlighted, the "Showing" line
 * with its fixed page size of 10, and which status changes an order row offers.
 */
module AdminPages {
  import opened Common
  import opened Catalog
  import opened OrderModel
  import opened PageNumbers
  import AdminRoutes
  import ProductDetailPage

  // ---------------------------------------------------------------- product table

  datatype ProductBadge = InactiveBadge | OnSaleBadge | FeaturedBadge | ActiveBadge

  /** The row badge: inactive first, then on sale, then featured, otherwise active. */
  function StatusBadge(p: Product): (b: ProductBadge)
    ensures b == InactiveBadge <==> !p.isActive
    ensures b == OnSaleBadge <==> p.isActive && p.isOnSale
    ensures b == FeaturedBadge <==> p.isActive && !p.isOnSale && p.isFeatured
    ensures b == ActiveBadge <==> p.isActive && !p.isOnSale && !p.isFeatured
  {
    if !p.isActive then InactiveBadge
    else if p.isOnSale then OnSaleBadge
    else if p.isFeatured then FeaturedBadge
    else ActiveBadge
  }

  /** The stock figure is highlighted at or below the product's low-stock threshold. */
  predicate LowStock(p: Product)
  {
    p.stockQuantity <= p.lowStockThreshold
  }

  /**
   * With the schema's default threshold of 10, the table's highlight and the
   * detail page's "Only n items left!" alert agree on every product in stock; a
   * product out of stock is highlighted but shows no alert.
   */
  lemma LowStockMatchesAlert(p: Product)
    requires p.lowStockThreshold == 10
    ensures p.stockQuantity > 0 ==> (LowStock(p) <==> ProductDetailPage.LowStockAlert(p.stockQuantity))
    ensures p.stockQuantity <= 0 ==> LowStock(p) && !ProductDetailPage.LowStockAlert(p.stockQuantity)
  {
  }

  /** The product table's "Showing" line, always with 10 rows a page. */
  function AdminShowing(page: int, total: int): (r: Showing)
    ensures r == ShowingRange(page, Some(10), total)
    ensures r.first == (page - 1) * 10 + 1
  {
    Showing((page - 1) * 10 + 1, Min(page * 10, total))
  }

  // ---------------------------------------------------------------- order table

  /** The status changes an order row offers for the order's current status. */
  function Offered(s: OrderStatus): (r: seq<OrderStatus>)
    ensures Refunded !in r && Pending !in r
    ensures s in {Delivered, Cancelled, Refunded} <==> r == []
  {
    match s
    case Pending => [Processing, Cancelled]
    case Processing => [Shipped]
    case Shipped => [Delivered]
    case _ => []
  }

  /** A run of statuses an order can go through, starting new and taking only offered changes. */
  predicate OfferedPath(path: seq<OrderStatus>)
  {
    |path| >= 1 && path[0] == Pending
    && forall i :: 0 <= i < |path| - 1 ==> path[i + 1] in Offered(path[i])
  }

  const Fulfilment: seq<OrderStatus> := [Pending, Processing, Shipped, Delivered]
  const Cancellation: seq<OrderStatus> := [Pending, Cancelled]

  predicate IsPrefix(p: seq<OrderStatus>, q: seq<OrderStatus>)
  {
    |p| <= |q| && p == q[..|p|]
  }

  /**
   * Taking only the offered changes, an order goes through a prefix of
   * pending, processing, shipped, delivered, or of pending, cancelled; it is
   * never refunded.
   */
  lemma {:induction false} OfferedPaths(path: seq<OrderStatus>)
    requires OfferedPath(path)
    ensures IsPrefix(path, Fulfilment) || IsPrefix(path, Cancellation)
    ensures Refunded !in path
  {
    if |path| > 1 {
      var n := |path| - 1;
      var init := path[..n];
      assert OfferedPath(init) by {
        forall i | 0 <= i < |init| - 1
          ensures init[i + 1] in Offered(init[i])
        {
          assert init[i + 1] == path[i + 1] && init[i] == path[i];
        }
      }
      OfferedPaths(init);
      assert path == init + [path[n]];
      assert path[n] in Offered(path[n - 1]);
      if IsPrefix(init, Fulfilment) {
        assert path[n - 1] == Fulfilment[n - 1];
      } else {
        assert path[n - 1] == Cancellation[n - 1];
      }
    }
  }

  /**
   * Choosing an offered change on a stored order sends one status update with
   * exactly that status, which the server applies whatever the transition.
   */
  lemma OfferedActionApplied(orders: seq<Order>, id: OrderId, chosen: OrderStatus)
    requires exists j :: 0 <= j < |orders| && orders[j].id == id && chosen in Offered(orders[j].status)
    ensures var r := AdminRoutes.UpdateOrderStatusResult(orders, id, chosen);
            r.Success? && r.value.status == chosen && r.value.id == id
  {
  }

  /** The badge label of an order status; an unknown status shows as pending. */
  function OrderBadge(status: string): (shown: string)
    ensures ParseStatus(status).None? ==> shown == "Pending"
    ensures shown == "Pending" <==> ParseStatus(status) in {None, Some(Pending)}
  {
    match ParseStatus(status)
    case None => "Pending"
    case Some(s) => StatusLabel(s)
  }

  function StatusLabel(s: OrderStatus): string
  {
    match s
    case Pending => "Pending"
    case Processing => "Processing"
    case Shipped => "Shipped"
    case Delivered => "Delivered"
    case Cancelled => "Cancelled"
    case Refunded => "Refunded"
  }

  /** The badge label of a payment status; an unknown status shows as pending. */
  function PaymentBadge(status: string): (shown: string)
    ensures ParsePaymentStatus(status).None? ==> shown == "Pending"
    ensures shown == "Pending" <==> ParsePaymentStatus(status) in {None, Some(PaymentPending)}
  {
    match ParsePaymentStatus(status)
    case None => "Pending"
    case Some(s) => PaymentLabel(s)
  }

  function PaymentLabel(s: PaymentStatus): string
  {
    match s
    case PaymentPending => "Pending"
    case Paid => "Paid"
    case PaymentFailed => "Failed"
    case PaymentRefunded => "Refunded"
  }

  /**
   * Every known status shows its own label under its stored name, and no two
   * statuses share a label.
   */
  lemma BadgesDistinguishKnownStatuses(a: OrderStatus, b: OrderStatus, p: PaymentStatus, q: PaymentStatus)
    ensures OrderBadge(StatusName(a)) == StatusLabel(a)
    ensures StatusLabel(a) == StatusLabel(b) ==> a == b
    ensures PaymentBadge(PaymentStatusName(p)) == PaymentLabel(p)
    ensures PaymentLabel(p) == PaymentLabel(q) ==> p == q
  {
    ParseStatusName(a);
    assert ParsePaymentStatus(PaymentStatusName(p)) == Some(p) by {
      match p
      case PaymentPending =>
      case Paid =>
      case PaymentFailed =>
      case PaymentRefunded =>
    }
  }
}
