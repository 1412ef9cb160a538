// Order.API domain: the order statuses, an order and its lines, the totals
// they carry, payment-card masking, and the checks a create request must
// pass. A null string or list is modelled as the empty one: no rule here
// tells the two apart.

module OrderDomain {
  import opened Common

  datatype OrderStatus = Pending | Confirmed | Processing | Shipped | Delivered | Cancelled | Refunded

  /** `OrderStatus.ToString()`. */
  function StatusName(s: OrderStatus): string
  {
    match s
    case Pending => "Pending"
    case Confirmed => "Confirmed"
    case Processing => "Processing"
    case Shipped => "Shipped"
    case Delivered => "Delivered"
    case Cancelled => "Cancelled"
    case Refunded => "Refunded"
  }

  datatype PaymentMethod = CreditCard | DebitCard | PayPal | BankTransfer

  /** A line of an order. OrderItemDto has the same five fields. */
  datatype OrderItem = OrderItem(productId: string, productName: string, quantity: Int32, unitPrice: real, totalPrice: real)

  datatype Address = Address(street: string, city: string, state: string, country: string, zipCode: string, phoneNumber: string)

  datatype Payment = Payment(cardName: string, cardNumber: string, expiration: string, cvv: string, paymentMethod: PaymentMethod)

  /** Every field of an order, as stored and as returned (OrderDto has the same fields). */
  datatype OrderRecord = OrderRecord(
    id: string,
    orderNumber: string,
    userId: string,
    userName: string,
    totalAmount: real,
    status: OrderStatus,
    orderItems: seq<OrderItem>,
    shippingAddress: Option<Address>,
    paymentInfo: Option<Payment>,
    createdAt: Time,
    updatedAt: Time)

  // ------------------------------------------------------------------ totals

  /** OrderItem.CalculateItemTotal: quantity times unit price, exact decimal arithmetic. */
  function CalculateItemTotal(item: OrderItem): (r: real)
    ensures item.quantity == 0 ==> r == 0.0
    ensures item.quantity >= 0 && item.unitPrice >= 0.0 ==> r >= 0.0
  {
    item.quantity as real * item.unitPrice
  }

  /** The reference sum: quantity times unit price over all lines. */
  function LineSum(items: seq<OrderItem>): real
  {
    if items == [] then 0.0 else CalculateItemTotal(items[0]) + LineSum(items[1..])
  }

  /** Order.CalculateTotal: the sum of the lines' TotalPrice; 0 for no lines. */
  function CalculateTotal(items: seq<OrderItem>): (r: real)
    ensures items == [] ==> r == 0.0
  {
    if items == [] then 0.0 else items[0].totalPrice + CalculateTotal(items[1..])
  }

  /** Each line with TotalPrice set to its CalculateItemTotal and every other field kept. */
  function PriceItems(items: seq<OrderItem>): (r: seq<OrderItem>)
    ensures |r| == |items|
    ensures forall i :: 0 <= i < |r| ==>
      && r[i].totalPrice == items[i].quantity as real * items[i].unitPrice
      && r[i].(totalPrice := items[i].totalPrice) == items[i]
  {
    seq(|items|, i requires 0 <= i < |items| => items[i].(totalPrice := CalculateItemTotal(items[i])))
  }

  /** The total of two lists of lines is the sum of their totals. */
  lemma {:induction false} CalculateTotalAppend(a: seq<OrderItem>, b: seq<OrderItem>)
    ensures CalculateTotal(a + b) == CalculateTotal(a) + CalculateTotal(b)
  {
    if a != [] {
      assert (a + b)[1..] == a[1..] + b;
      CalculateTotalAppend(a[1..], b);
    } else {
      assert a + b == b;
    }
  }

  /** Once every line is priced, the order total is the sum of quantity times unit price. */
  lemma {:induction false} PricedTotal(items: seq<OrderItem>)
    ensures CalculateTotal(PriceItems(items)) == LineSum(items)
  {
    if items != [] {
      assert PriceItems(items)[1..] == PriceItems(items[1..]);
      PricedTotal(items[1..]);
    }
  }

  /** Lines with non-negative quantities and prices give a non-negative total. */
  lemma {:induction false} LineSumNonNegative(items: seq<OrderItem>)
    requires forall i :: 0 <= i < |items| ==> items[i].quantity >= 0 && items[i].unitPrice >= 0.0
    ensures LineSum(items) >= 0.0
  {
    if items != [] {
      LineSumNonNegative(items[1..]);
    }
  }

  /** Two units at 49.99 come to 99.98. */
  lemma ItemTotalExample()
    ensures CalculateItemTotal(OrderItem("p", "Product", 2, 49.99, 0.0)) == 99.98
  {
  }

  // ------------------------------------------------------------ cancellation

  /** Order.CanBeCancelled: only before the order has shipped or finished. */
  predicate CanBeCancelled(s: OrderStatus)
  {
    s == Pending || s == Confirmed || s == Processing
  }

  /** The order of the statuses along the delivery path. */
  function Stage(s: OrderStatus): nat
  {
    match s
    case Pending => 0
    case Confirmed => 1
    case Processing => 2
    case Shipped => 3
    case Delivered => 4
    case Cancelled => 5
    case Refunded => 6
  }

  /** An order can be cancelled exactly while it is at one of the first three stages. */
  lemma CancellableBeforeShipping(s: OrderStatus)
    ensures CanBeCancelled(s) <==> Stage(s) < Stage(Shipped)
  {
  }

  // ------------------------------------------------------------------ masking

  const MaskPrefix: string := "****"
  const MaskedCvv: string := "***"

  /** MaskCardNumber: four stars, then the last four characters when there are at least four. */
  function MaskCardNumber(cardNumber: string): (r: string)
    ensures |r| == if |cardNumber| < 4 then 4 else 8
    ensures r[..4] == MaskPrefix
    ensures |cardNumber| >= 4 ==> r[4..] == cardNumber[|cardNumber| - 4..]
  {
    if |cardNumber| < 4 then MaskPrefix
    else MaskPrefix + cardNumber[|cardNumber| - 4..]
  }

  /** Masking keeps only the last four characters: numbers that end alike mask alike. */
  lemma MaskHidesPrefix(a: string, b: string)
    requires |a| >= 4 && |b| >= 4 && a[|a| - 4..] == b[|b| - 4..]
    ensures MaskCardNumber(a) == MaskCardNumber(b)
  {
  }

  /** Masking an already masked number of at least four characters changes nothing. */
  lemma MaskStable(cardNumber: string)
    requires |cardNumber| >= 4
    ensures MaskCardNumber(MaskCardNumber(cardNumber)) == MaskCardNumber(cardNumber)
  {
    var m := MaskCardNumber(cardNumber);
    assert m[|m| - 4..] == m[4..];
  }

  /**
   * The masking step of CreateOrderAsync: a payment with a card number gets
   * the masked number and CVV "***". With no card number the CVV is kept as
   * sent.
   */
  function MaskPayment(p: Option<Payment>): (r: Option<Payment>)
    ensures r.Some? <==> p.Some?
    ensures p.Some? ==> && r.value.cardName == p.value.cardName
                        && r.value.expiration == p.value.expiration
                        && r.value.paymentMethod == p.value.paymentMethod
    ensures p.Some? && p.value.cardNumber != "" ==>
      r.value.cardNumber == MaskCardNumber(p.value.cardNumber) && r.value.cvv == MaskedCvv
    ensures p.Some? && p.value.cardNumber == "" ==> r == p
  {
    if p.Some? && p.value.cardNumber != "" then
      Some(p.value.(cardNumber := MaskCardNumber(p.value.cardNumber), cvv := MaskedCvv))
    else p
  }

  // -------------------------------------------------------------- validation

  /** The create request as bound from JSON; a missing property is None. */
  datatype CreateOrderDto = CreateOrderDto(
    userId: Option<string>,
    userName: Option<string>,
    items: Option<seq<OrderItem>>,
    shippingAddress: Option<Address>,
    paymentInfo: Option<Payment>)

  /**
   * The validation attributes of CreateOrderDto: UserId and UserName
   * required (UserId also at least one character long), at least one item,
   * and an address and a payment present. Lines, address and payment carry
   * no attributes of their own.
   */
  predicate ValidCreateOrder(d: CreateOrderDto)
  {
    && RequiredString(d.userId) && |d.userId.value| >= 1
    && RequiredString(d.userName)
    && d.items.Some? && |d.items.value| >= 1
    && d.shippingAddress.Some?
    && d.paymentInfo.Some?
  }

  /** A valid request names a user, has at least one line, and stays valid whatever its nested objects hold. */
  lemma ValidCreateOrderFacts(d: CreateOrderDto, items: seq<OrderItem>, address: Address, payment: Payment)
    requires ValidCreateOrder(d) && items != []
    ensures d.userId.value != "" && d.items.value != []
    ensures ValidCreateOrder(d.(items := Some(items), shippingAddress := Some(address), paymentInfo := Some(payment)))
  {
  }

  /** A request without items, or with an empty list, is rejected. */
  lemma NoItemsInvalid(d: CreateOrderDto)
    requires d.items == None || d.items == Some([])
    ensures !ValidCreateOrder(d)
  {
  }

  /**
   * The entity the mapping profile makes from a request: no id, order number
   * or total yet, status Pending, both timestamps now, every other field
   * copied (a missing list becomes an empty one).
   */
  function MapCreateOrder(d: CreateOrderDto, now: Time): (o: OrderRecord)
    ensures o.status == Pending && o.createdAt == now && o.updatedAt == now
    ensures o.orderItems == OrElse(d.items, [])
  {
    OrderRecord("", "", OrElse(d.userId, ""), OrElse(d.userName, ""), 0.0, Pending,
                OrElse(d.items, []), d.shippingAddress, d.paymentInfo, now, now)
  }

  // -------------------------------------------------------------- the entity

  /** The Order entity: fields that the service and UpdateStatus change in place. */
  class Order {
    var id: string
    var orderNumber: string
    var userId: string
    var userName: string
    var totalAmount: real
    var status: OrderStatus
    var orderItems: seq<OrderItem>
    var shippingAddress: Option<Address>
    var paymentInfo: Option<Payment>
    var createdAt: Time
    var updatedAt: Time

    constructor (r: OrderRecord)
      ensures Snapshot() == r
    {
      id := r.id;
      orderNumber := r.orderNumber;
      userId := r.userId;
      userName := r.userName;
      totalAmount := r.totalAmount;
      status := r.status;
      orderItems := r.orderItems;
      shippingAddress := r.shippingAddress;
      paymentInfo := r.paymentInfo;
      createdAt := r.createdAt;
      updatedAt := r.updatedAt;
    }

    function Snapshot(): OrderRecord
      reads this
    {
      OrderRecord(id, orderNumber, userId, userName, totalAmount, status, orderItems,
                  shippingAddress, paymentInfo, createdAt, updatedAt)
    }

    /** UpdateStatus: the new status and the time of the change; nothing else moves. */
    method UpdateStatus(newStatus: OrderStatus, now: Time)
      modifies this
      ensures Snapshot() == old(Snapshot()).(status := newStatus, updatedAt := now)
    {
      status := newStatus;
      updatedAt := now;
    }
  }
}
