/** The four record batches `createOrder` writes, in order: the order, its shipping
    information, its payment information and one item per cart line, each of the last
    three linked to the id the first write returns. That id and the current time are
    parameters; the writes themselves are outside the model. */
module OrderService {
  import opened Wrappers
  import opened Text
  import opened CartSlice
  import Checkout

  /** `orderData.shipping`. This is the caller's object, not the checkout form: `createOrder`
      reads `phone || ""`, so a missing phone must be representable, which the form's
      always-present string field is not. */
  datatype ShippingData = ShippingData(
    fullName: string, address: string, city: string, state: string,
    zipCode: string, email: string, phone: Option<string>)

  /** `orderData.payment`, of which only the holder, the card number and the expiry date are
      read. */
  datatype PaymentData = PaymentData(
    cardHolder: string, cardNumber: string, expiryDate: string, cvv: string)

  /** `orderData`. */
  datatype OrderData = OrderData(orderNumber: nat, total: int, shipping: ShippingData, payment: PaymentData)

  datatype OrderRecord = OrderRecord(name: string, orderNumber: nat, date: string, total: int, status: string)

  datatype ShippingRecord = ShippingRecord(
    name: string, fullName: string, address: string, city: string, state: string,
    zipCode: string, email: string, phone: string, order: int)

  /** The stored payment: there is no field for the full card number or the cvv. */
  datatype PaymentRecord = PaymentRecord(
    name: string, cardHolder: string, cardNumberLast4: string, expiryDate: string, order: int)

  datatype OrderItemRecord = OrderItemRecord(name: string, quantity: int, price: int, order: int, book: int)

  datatype CreateOrderResult = CreateOrderResult(success: bool, orderId: int, orderNumber: nat)

  /** Everything `createOrder` sends and returns, given the created order's id. */
  datatype OrderWrites = OrderWrites(
    order: OrderRecord, shipping: ShippingRecord, payment: PaymentRecord,
    items: seq<OrderItemRecord>, result: CreateOrderResult)

  /** `Order ${orderNumber}` */
  function OrderName(orderNumber: nat): string {
    "Order " + Decimal(orderNumber)
  }

  /** The record of the first write: named after the order number and still pending. */
  function OrderRecordFor(data: OrderData, date: string): (r: OrderRecord)
    ensures r.name == OrderName(data.orderNumber) && r.status == "pending"
    ensures r.orderNumber == data.orderNumber && r.total == data.total && r.date == date
  {
    OrderRecord(OrderName(data.orderNumber), data.orderNumber, date, data.total, "pending")
  }

  /** `phone || ""` */
  function PhoneOrEmpty(phone: Option<string>): (r: string)
    ensures phone.Some? ==> r == phone.value
    ensures phone.None? ==> r == ""
  {
    if phone.Some? && phone.value != "" then phone.value else ""
  }

  /** The shipping record copies the six address and contact fields and links to the order. */
  function ShippingRecordFor(data: OrderData, orderId: int): (r: ShippingRecord)
    ensures r.name == "Shipping for " + OrderName(data.orderNumber) && r.order == orderId
    ensures r.fullName == data.shipping.fullName && r.address == data.shipping.address
    ensures r.city == data.shipping.city && r.state == data.shipping.state
    ensures r.zipCode == data.shipping.zipCode && r.email == data.shipping.email
    ensures r.phone == PhoneOrEmpty(data.shipping.phone)
  {
    var s := data.shipping;
    ShippingRecord("Shipping for " + OrderName(data.orderNumber), s.fullName, s.address,
                   s.city, s.state, s.zipCode, s.email, PhoneOrEmpty(s.phone), orderId)
  }

  /** The payment record keeps the holder, the expiry date and `cardNumber.slice(-4)`. */
  function PaymentRecordFor(data: OrderData, orderId: int): (r: PaymentRecord)
    ensures r.name == "Payment for " + OrderName(data.orderNumber) && r.order == orderId
    ensures r.cardHolder == data.payment.cardHolder && r.expiryDate == data.payment.expiryDate
    ensures |r.cardNumberLast4| == if |data.payment.cardNumber| < 4 then |data.payment.cardNumber| else 4
    ensures r.cardNumberLast4 == data.payment.cardNumber[|data.payment.cardNumber| - |r.cardNumberLast4|..]
  {
    var p := data.payment;
    PaymentRecord("Payment for " + OrderName(data.orderNumber), p.cardHolder,
                  SliceLast(p.cardNumber, 4), p.expiryDate, orderId)
  }

  /** `cartItems.map(...)`: one item record per cart line. */
  function OrderItemRecords(data: OrderData, cartItems: seq<CartItem>, orderId: int): (r: seq<OrderItemRecord>)
    ensures |r| == |cartItems|
    ensures forall i :: 0 <= i < |r| ==>
      r[i] == OrderItemRecord("Item in " + OrderName(data.orderNumber), cartItems[i].quantity,
                              cartItems[i].Price(), orderId, cartItems[i].Id())
  {
    if cartItems == [] then []
    else
      [OrderItemRecord("Item in " + OrderName(data.orderNumber), cartItems[0].quantity,
                       cartItems[0].Price(), orderId, cartItems[0].Id())]
      + OrderItemRecords(data, cartItems[1..], orderId)
  }

  /** `createOrder(orderData, cartItems)` once the order write has returned `orderId`. */
  function CreateOrder(data: OrderData, cartItems: seq<CartItem>, date: string, orderId: int): (w: OrderWrites)
    ensures w.order == OrderRecordFor(data, date)
    ensures w.shipping == ShippingRecordFor(data, orderId) && w.payment == PaymentRecordFor(data, orderId)
    ensures w.items == OrderItemRecords(data, cartItems, orderId) && |w.items| == |cartItems|
    ensures w.shipping.order == orderId && w.payment.order == orderId
    ensures forall i :: 0 <= i < |w.items| ==> w.items[i].order == orderId
    ensures w.result == CreateOrderResult(true, orderId, data.orderNumber)
  {
    OrderWrites(
      OrderRecordFor(data, date),
      ShippingRecordFor(data, orderId),
      PaymentRecordFor(data, orderId),
      OrderItemRecords(data, cartItems, orderId),
      CreateOrderResult(true, orderId, data.orderNumber))
  }

  /** Sum of `price * quantity` over the item records. */
  function ItemsAmount(items: seq<OrderItemRecord>): int {
    if items == [] then 0 else items[0].price * items[0].quantity + ItemsAmount(items[1..])
  }

  /** Sum of the quantities over the item records. */
  function ItemsQuantity(items: seq<OrderItemRecord>): int {
    if items == [] then 0 else items[0].quantity + ItemsQuantity(items[1..])
  }

  /** The item records carry the cart's amount and its number of copies. */
  lemma {:induction false} ItemsMatchCartTotals(data: OrderData, cartItems: seq<CartItem>, orderId: int)
    ensures ItemsAmount(OrderItemRecords(data, cartItems, orderId)) == SumAmounts(cartItems)
    ensures ItemsQuantity(OrderItemRecords(data, cartItems, orderId)) == SumQuantities(cartItems)
  {
    if cartItems != [] {
      ItemsMatchCartTotals(data, cartItems[1..], orderId);
    }
  }

  /** Orders with different numbers get different names. */
  lemma OrderNameInjective(m: nat, n: nat)
    requires OrderName(m) == OrderName(n)
    ensures m == n
  {
    assert Decimal(m) == OrderName(m)[6..];
    assert Decimal(n) == OrderName(n)[6..];
    DecimalRoundTrip(m);
    DecimalRoundTrip(n);
  }

  /** The stored payment does not depend on the cvv, nor on the card number beyond its last
      four characters. */
  lemma PaymentRecordForgetsSecrets(data: OrderData, cvv: string, prefix: string, orderId: int)
    requires |data.payment.cardNumber| >= 4
    ensures PaymentRecordFor(data.(payment := data.payment.(cvv := cvv, cardNumber := prefix + data.payment.cardNumber)), orderId)
      == PaymentRecordFor(data, orderId)
  {
    var c := data.payment.cardNumber;
    assert (prefix + c)[|prefix + c| - 4..] == c[|c| - 4..];
  }

  /** The last four characters stored here are the ones the checkout's order object keeps
      after its `xxxx-xxxx-xxxx-` mask. */
  lemma Last4MatchesMaskedCard(data: OrderData, orderId: int)
    ensures Checkout.MaskCardNumber(data.payment.cardNumber)[15..] == PaymentRecordFor(data, orderId).cardNumberLast4
  {
  }
}
