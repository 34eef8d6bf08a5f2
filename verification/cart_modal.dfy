/** The checkout flow of the cart modal
    (`src/components/organisms/CartModal.jsx`): quantity controls, the
    empty-cart check, required delivery fields, order pricing, and what a
    successful or failed order submission leaves behind. The call to the
    order service is an outcome passed in by the caller. */
module CartModal {
  import opened Wrappers
  import opened CartSlice

  /** The checkout form's `customerInfo` state. */
  datatype CustomerInfo = CustomerInfo(
    name: string,
    email: string,
    phone: string,
    address: string,
    city: string,
    zipCode: string,
    specialInstructions: string)

  const EmptyCustomerInfo := CustomerInfo("", "", "", "", "", "", "")

  /** The `name` attribute of each input of the checkout form. */
  datatype CustomerField = Name | Email | Phone | Address | City | ZipCode | SpecialInstructions

  datatype StreetAddress = StreetAddress(street: string, city: string, zipCode: string)
  datatype Customer = Customer(name: string, email: string, phone: string, address: StreetAddress)

  /** The `orderData` payload handed to the order service. */
  datatype OrderData = OrderData(
    customer: Customer,
    items: seq<CartLine>,
    subtotal: real,
    tax: real,
    deliveryFee: real,
    total: real,
    paymentMethod: string,
    specialInstructions: string)

  const TaxRate: real := 0.08
  const DeliveryFee: real := 5.0

  /** Any of the four required fields left empty blocks the submission. */
  predicate MissingRequired(info: CustomerInfo) {
    info.name == "" || info.email == "" || info.phone == "" || info.address == ""
  }

  function WithField(info: CustomerInfo, field: CustomerField, value: string): (r: CustomerInfo)
    ensures field == Name ==> r == info.(name := value)
    ensures field == Email ==> r == info.(email := value)
    ensures field == Phone ==> r == info.(phone := value)
    ensures field == Address ==> r == info.(address := value)
    ensures field == City ==> r == info.(city := value)
    ensures field == ZipCode ==> r == info.(zipCode := value)
    ensures field == SpecialInstructions ==> r == info.(specialInstructions := value)
  {
    match field
    case Name => info.(name := value)
    case Email => info.(email := value)
    case Phone => info.(phone := value)
    case Address => info.(address := value)
    case City => info.(city := value)
    case ZipCode => info.(zipCode := value)
    case SpecialInstructions => info.(specialInstructions := value)
  }

  /** The order built from the form and the cart. The grand total is 108%
      of the cart amount plus the flat delivery fee. */
  function BuildOrder(info: CustomerInfo, items: seq<CartLine>, totalAmount: real): (o: OrderData)
    ensures o.customer == Customer(info.name, info.email, info.phone, StreetAddress(info.address, info.city, info.zipCode))
    ensures o.items == items && o.subtotal == totalAmount
    ensures 100.0 * o.tax == 8.0 * totalAmount
    ensures o.deliveryFee == 5.0
    ensures o.total == o.subtotal + o.tax + o.deliveryFee
    ensures 100.0 * (o.total - 5.0) == 108.0 * totalAmount
    ensures o.paymentMethod == "credit_card"
    ensures o.specialInstructions == info.specialInstructions
  {
    OrderData(
      Customer(info.name, info.email, info.phone, StreetAddress(info.address, info.city, info.zipCode)),
      items,
      totalAmount,
      totalAmount * TaxRate,
      DeliveryFee,
      totalAmount + totalAmount * TaxRate + DeliveryFee,
      "credit_card",
      info.specialInstructions)
  }

  /** A cart worth 20.00 is charged 1.60 tax and 26.60 in all. */
  lemma TwentyDollarOrder(info: CustomerInfo, items: seq<CartLine>)
    ensures var o := BuildOrder(info, items, 20.0);
      o.tax == 1.6 && o.deliveryFee == 5.0 && o.total == 26.6
  {
  }

  /** Pressing minus on a line whose quantity is 1 requests quantity 0,
      which removes every line with that id. */
  lemma MinusOnSingleRemoves(lines: seq<CartLine>, i: nat)
    requires i < |lines| && lines[i].quantity == 1
    ensures Updated(lines, lines[i].item.id, lines[i].quantity - 1) == WithoutId(lines, lines[i].item.id)
  {
    UpdateNonPositiveRemoves(lines, lines[i].item.id, 0);
  }

  /** In a cart with one line per id, plus and minus move that line's
      quantity by one as long as it stays positive. */
  lemma StepperMovesByOne(lines: seq<CartLine>, i: nat, delta: int)
    requires UniqueIds(lines) && i < |lines|
    requires (delta == 1 || delta == -1) && lines[i].quantity + delta > 0
    ensures var r := Updated(lines, lines[i].item.id, lines[i].quantity + delta);
      |r| == |lines| && r[i].quantity == lines[i].quantity + delta
      && forall j :: 0 <= j < |lines| && j != i ==> r[j] == lines[j]
  {
    UpdatePositiveSets(lines, lines[i].item.id, lines[i].quantity + delta);
  }

  class CartModalState {
    const cart: Cart
    var isOpen: bool
    var isCheckingOut: bool
    var showCheckoutForm: bool
    var customerInfo: CustomerInfo

    /** The store's totals agree with its lines, and it holds one line per
        item id (every reducer keeps that, from the empty initial state). */
    ghost predicate Valid()
      reads this, cart
    {
      cart.Valid() && UniqueIds(cart.items)
    }

    /** The modal as it opens over a cart, with an empty form. */
    constructor (cart: Cart)
      requires cart.Valid() && UniqueIds(cart.items)
      ensures Valid() && this.cart == cart && isOpen
      ensures !isCheckingOut && !showCheckoutForm && customerInfo == EmptyCustomerInfo
    {
      this.cart := cart;
      isOpen := true;
      isCheckingOut := false;
      showCheckoutForm := false;
      customerInfo := EmptyCustomerInfo;
    }

    /** `handleUpdateQuantity` */
    method HandleUpdateQuantity(itemId: string, newQuantity: int)
      requires Valid()
      modifies cart
      ensures Valid() && cart.items == Updated(old(cart.items), itemId, newQuantity)
    {
      cart.UpdateQuantity(itemId, newQuantity);
    }

    /** The minus button of line i. */
    method PressMinus(i: nat)
      requires Valid() && i < |cart.items|
      modifies cart
      ensures Valid()
      ensures cart.items == Updated(old(cart.items), old(cart.items[i].item.id), old(cart.items[i].quantity) - 1)
      ensures old(cart.items[i].quantity) == 1 ==> cart.items == WithoutId(old(cart.items), old(cart.items[i].item.id))
      ensures old(cart.items[i].quantity) > 1 ==>
        && |cart.items| == old(|cart.items|) && cart.items[i].quantity == old(cart.items[i].quantity) - 1
        && forall j :: 0 <= j < |cart.items| && j != i ==> cart.items[j] == old(cart.items[j])
    {
      if cart.items[i].quantity == 1 {
        MinusOnSingleRemoves(cart.items, i);
      } else if cart.items[i].quantity > 1 {
        StepperMovesByOne(cart.items, i, -1);
      }
      HandleUpdateQuantity(cart.items[i].item.id, cart.items[i].quantity - 1);
    }

    /** The plus button of line i. */
    method PressPlus(i: nat)
      requires Valid() && i < |cart.items|
      modifies cart
      ensures Valid()
      ensures cart.items == Updated(old(cart.items), old(cart.items[i].item.id), old(cart.items[i].quantity) + 1)
      ensures old(cart.items[i].quantity) >= 0 ==>
        && |cart.items| == old(|cart.items|) && cart.items[i].quantity == old(cart.items[i].quantity) + 1
        && forall j :: 0 <= j < |cart.items| && j != i ==> cart.items[j] == old(cart.items[j])
    {
      if cart.items[i].quantity >= 0 {
        StepperMovesByOne(cart.items, i, 1);
      }
      HandleUpdateQuantity(cart.items[i].item.id, cart.items[i].quantity + 1);
    }

    /** `handleRemoveItem` */
    method HandleRemoveItem(itemId: string)
      requires Valid()
      modifies cart
      ensures Valid() && cart.items == WithoutId(old(cart.items), itemId)
    {
      cart.RemoveFromCart(itemId);
    }

    /** `handleInputChange` */
    method HandleInputChange(field: CustomerField, value: string)
      modifies this
      ensures customerInfo == WithField(old(customerInfo), field, value)
      ensures isOpen == old(isOpen) && isCheckingOut == old(isCheckingOut)
      ensures showCheckoutForm == old(showCheckoutForm)
    {
      customerInfo := WithField(customerInfo, field, value);
    }

    /** `handleCheckout`: refused on an empty cart, otherwise shows the form. */
    method HandleCheckout() returns (shown: bool)
      modifies this
      ensures shown <==> |cart.items| > 0
      ensures showCheckoutForm == (shown || old(showCheckoutForm))
      ensures isOpen == old(isOpen) && isCheckingOut == old(isCheckingOut)
      ensures customerInfo == old(customerInfo)
    {
      if |cart.items| == 0 {
        return false;
      }
      showCheckoutForm := true;
      shown := true;
    }

    /** `handleSubmitOrder`. `sent` is the order passed to the order service
        (`None`: the required-field check stopped it before any call);
        `created` is whether that call resolved. */
    method HandleSubmitOrder(created: bool) returns (sent: Option<OrderData>)
      requires Valid()
      modifies this, cart
      ensures Valid()
      ensures sent == if MissingRequired(old(customerInfo)) then None
                      else Some(BuildOrder(old(customerInfo), old(cart.items), old(cart.totalAmount)))
      ensures sent.Some? ==> sent.value.subtotal == AmountSum(old(cart.items))
      ensures sent.Some? && created ==>
        && cart.items == [] && cart.totalAmount == 0.0 && cart.totalItems == 0
        && !isOpen && !showCheckoutForm && customerInfo == EmptyCustomerInfo
      ensures sent.None? || !created ==>
        && cart.items == old(cart.items) && cart.totalAmount == old(cart.totalAmount)
        && cart.totalItems == old(cart.totalItems)
        && isOpen == old(isOpen) && showCheckoutForm == old(showCheckoutForm)
        && customerInfo == old(customerInfo)
      ensures isCheckingOut == (sent.None? && old(isCheckingOut))
    {
      if MissingRequired(customerInfo) {
        return None;
      }
      isCheckingOut := true;
      var order := BuildOrder(customerInfo, cart.items, cart.totalAmount);
      sent := Some(order);
      if created {
        cart.ClearCart();
        isOpen := false;
        showCheckoutForm := false;
        customerInfo := EmptyCustomerInfo;
      }
      isCheckingOut := false;
    }
  }
}
