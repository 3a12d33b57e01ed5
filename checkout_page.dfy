/**
 * The checkout page: a two-step form. Step 1 collects the shipping address and
 * moves on only when the required fields are filled in; step 2 chooses a payment
 * method, optionally attaches a prescription image, and sends the order. The
 * order summary shows the cart's subtotal, its tax (total minus subtotal) and
 * its total.
 */
module CheckoutPage {
  import opened Common
  import opened Catalog
  import opened CartModel
  import opened OrderModel
  import OrderRoutes

  // ---------------------------------------------------------------- the address form

  datatype Section = ShippingSection | BillingSection
  datatype Field = FirstName | LastName | Street | City | State | ZipCode | Country | Phone

  function GetField(a: Address, f: Field): string
  {
    match f
    case FirstName => a.firstName
    case LastName => a.lastName
    case Street => a.street
    case City => a.city
    case State => a.state
    case ZipCode => a.zipCode
    case Country => a.country
    case Phone => a.phone
  }

  /** `{ ...address, [field]: value }`. */
  function SetField(a: Address, f: Field, v: string): (r: Address)
    ensures GetField(r, f) == v
    ensures forall g :: g != f ==> GetField(r, g) == GetField(a, g)
  {
    match f
    case FirstName => a.(firstName := v)
    case LastName => a.(lastName := v)
    case Street => a.(street := v)
    case City => a.(city := v)
    case State => a.(state := v)
    case ZipCode => a.(zipCode := v)
    case Country => a.(country := v)
    case Phone => a.(phone := v)
  }

  /** Both address forms start empty except for the country. The billing form has no phone. */
  const BlankAddress: Address := Address("", "", "", "", "", "", "United States", "")

  /**
   * Step 1's check: seven fields non-empty as typed; the country is not checked.
   * An address the server accepts always passes it.
   */
  predicate ShippingFilled(a: Address): (b: bool)
    ensures ShippingAddressValid(a) ==> b
  {
    assert Trim("") == "";
    a.firstName != "" && a.lastName != "" && a.street != "" && a.city != ""
    && a.state != "" && a.zipCode != "" && a.phone != ""
  }

  /** The payment methods the page offers as radio buttons. */
  const OfferedPayments: seq<string> := ["credit_card", "paypal", "cash_on_delivery"]

  class CheckoutForm {
    var step: int
    var shipping: Address
    var billing: Address
    var paymentMethod: string
    var useSameAddress: bool
    /** The data URL of the prescription image read from the chosen file, if any. */
    var prescription: Option<string>
    /** The orders the page has sent to the order endpoint, oldest first. */
    var sent: seq<OrderRoutes.OrderRequest>

    /** Step 1 with a form no control can leave: a known step, an offered payment method, the same address. */
    predicate Valid()
      reads this
    {
      step in {1, 2} && paymentMethod in OfferedPayments && useSameAddress
    }

    constructor ()
      ensures Valid() && step == 1 && shipping == BlankAddress && billing == BlankAddress
      ensures paymentMethod == "credit_card" && useSameAddress && prescription == None && sent == []
    {
      step := 1;
      shipping := BlankAddress;
      billing := BlankAddress;
      paymentMethod := "credit_card";
      useSameAddress := true;
      prescription := None;
      sent := [];
    }

    /** The order step 2 sends: the billing address is the shipping one while `useSameAddress` holds. */
    function OrderData(): (r: OrderRoutes.OrderRequest)
      reads this
      ensures r.shippingAddress == shipping && r.billingAddress.Some?
      ensures useSameAddress ==> r.billingAddress == Some(shipping)
      ensures r.prescriptionImage == prescription && r.paymentMethod == paymentMethod
    {
      OrderRoutes.OrderRequest(shipping, Some(if useSameAddress then shipping else billing),
                               paymentMethod, prescription)
    }

    /** `handleInputChange`: one field of one section takes the typed value. */
    method InputChange(section: Section, f: Field, value: string)
      modifies this`shipping, this`billing
      ensures section == ShippingSection ==> shipping == SetField(old(shipping), f, value) && billing == old(billing)
      ensures section == BillingSection ==> billing == SetField(old(billing), f, value) && shipping == old(shipping)
    {
      if section == ShippingSection {
        shipping := SetField(shipping, f, value);
      } else {
        billing := SetField(billing, f, value);
      }
    }

    /** A payment radio button. */
    method ChoosePayment(i: nat)
      requires Valid() && i < |OfferedPayments|
      modifies this`paymentMethod
      ensures Valid() && paymentMethod == OfferedPayments[i]
    {
      paymentMethod := OfferedPayments[i];
    }

    /** `handlePrescriptionUpload`: a chosen file's contents replace the preview; no file changes nothing. */
    method UploadPrescription(file: Option<string>)
      modifies this`prescription
      ensures prescription == if file.Some? then file else old(prescription)
    {
      if file.Some? {
        prescription := file;
      }
    }

    /**
     * `handleSubmit`: on step 1 it moves to step 2 exactly when the shipping form is
     * filled in; on step 2 it sends the order and stays on the step.
     */
    method Submit()
      requires Valid()
      modifies this`step, this`sent
      ensures Valid()
      ensures old(step) == 1 ==> sent == old(sent) && step == (if ShippingFilled(shipping) then 2 else 1)
      ensures old(step) == 2 ==> step == 2 && sent == old(sent) + [OrderData()]
    {
      if step == 1 {
        if !ShippingFilled(shipping) {
          return;
        }
        step := 2;
      } else if step == 2 {
        sent := sent + [OrderData()];
      }
    }

    /** The "Back to Shipping" button. */
    method BackToShipping()
      requires Valid()
      modifies this`step
      ensures Valid() && step == 1
    {
      step := 1;
    }
  }

  /**
   * Every order the page sends has a payment method the server accepts and a
   * billing address equal to the shipping address.
   */
  lemma SentOrdersAccepted(m: string, shipping: Address, billing: Address, prescription: Option<string>)
    requires m in OfferedPayments
    ensures var r := OrderRoutes.OrderRequest(shipping, Some(shipping), m, prescription);
            ParsePaymentMethod(r.paymentMethod).Some? && r.billingAddress == Some(r.shippingAddress)
  {
    assert m == OfferedPayments[0] || m == OfferedPayments[1] || m == OfferedPayments[2];
  }

  /**
   * The converse fails: the page moves on with a field of spaces or an emptied
   * country, and the server then rejects the order.
   */
  lemma StepOneWeakerThanServer()
    ensures var blanks := Address(" ", "Doe", "1 Main St", "Springfield", "IL", "62701", "United States", "555");
            ShippingFilled(blanks) && !ShippingAddressValid(blanks)
    ensures var noCountry := Address("Jane", "Doe", "1 Main St", "Springfield", "IL", "62701", "", "555");
            ShippingFilled(noCountry) && !ShippingAddressValid(noCountry)
  {
    assert Trim(" ") == "" by {
      assert TrimStart(" ") == TrimStart("");
    }
    assert Trim("") == "";
  }

  // ---------------------------------------------------------------- the order summary

  /**
   * A cart line as the page receives it: the product document when the server
   * populated it, none when it sent only the id.
   */
  datatype ShownLine = ShownLine(product: Option<Product>, quantity: int, price: int)

  /** `requiresPrescription`: some populated line's product needs a prescription; no cart needs none. */
  function RequiresPrescription(cart: Option<seq<ShownLine>>): (r: bool)
    ensures r <==> cart.Some? && exists i :: 0 <= i < |cart.value| && cart.value[i].product.Some?
                                             && cart.value[i].product.value.prescriptionRequired
  {
    match cart
    case None => false
    case Some(lines) => AnyPrescription(lines)
  }

  function AnyPrescription(lines: seq<ShownLine>): (r: bool)
    ensures r <==> exists i :: 0 <= i < |lines| && lines[i].product.Some? && lines[i].product.value.prescriptionRequired
  {
    if |lines| == 0 then false
    else if lines[0].product.Some? && lines[0].product.value.prescriptionRequired then true
    else
      var r := AnyPrescription(lines[1..]);
      assert r ==> exists i :: 0 <= i < |lines| && lines[i].product.Some? && lines[i].product.value.prescriptionRequired by {
        if r {
          var i :| 0 <= i < |lines[1..]| && lines[1..][i].product.Some? && lines[1..][i].product.value.prescriptionRequired;
          assert lines[i + 1] == lines[1..][i];
        }
      }
      assert (exists i :: 0 <= i < |lines| && lines[i].product.Some? && lines[i].product.value.prescriptionRequired) ==> r by {
        if exists i :: 0 <= i < |lines| && lines[i].product.Some? && lines[i].product.value.prescriptionRequired {
          var i :| 0 <= i < |lines| && lines[i].product.Some? && lines[i].product.value.prescriptionRequired;
          assert i != 0;
          assert lines[1..][i - 1] == lines[i];
        }
      }
      r
  }

  /**
   * The page asks for a prescription exactly when the server will mark the order
   * as needing one, provided every line arrives populated with the product the
   * server checks.
   */
  lemma PrescriptionPromptMatchesOrder(products: map<ProductId, Product>, items: seq<CartLine>, shown: seq<ShownLine>)
    requires |shown| == |items|
    requires forall i :: 0 <= i < |items| ==> items[i].product in products && shown[i].product == Some(products[items[i].product])
    requires OrderRoutes.CheckLines(products, items).Success?
    ensures RequiresPrescription(Some(shown)) == OrderRoutes.CheckLines(products, items).value.prescriptionRequired
  {
    OrderRoutes.CheckLinesOutcome(products, items);
  }

  /**
   * The tax line: total minus subtotal. The server keeps a saved cart's total
   * equal to its subtotal, so the line always reads zero.
   */
  function DisplayedTax(c: Cart): (r: int)
    ensures CartValid(c) ==> r == 0
  {
    c.total - c.subtotal
  }
}
