// OrderService: creating, listing, reading, re-statusing and cancelling
// orders. The repository's answers are parameters; `effects` holds what
// reached the store and the message bus, in order. The event publisher
// swallows its own errors, so publishing never fails.

module OrderApplication {
  import opened Common
  import opened OrderDomain

  datatype OrderEvent =
    | OrderCreatedEvent(orderId: string, userId: string, items: seq<OrderItem>, totalAmount: real, createdAt: Time)
    | OrderStatusChangedEvent(orderId: string, oldStatus: OrderStatus, newStatus: OrderStatus, changedAt: Time)
    | OrderCancelledEvent(orderId: string, reason: string, cancelledAt: Time)

  /** A document written to the order collection, or an event published. */
  datatype OrderEffect = Inserted(order: OrderRecord) | Replaced(order: OrderRecord) | Published(event: OrderEvent)

  const CancelReason: string := "Cancelled by user"

  function OrderNotFound(id: string): string
  {
    "Order with ID " + id + " not found"
  }

  function CannotCancel(o: OrderRecord): string
  {
    "Order " + o.orderNumber + " cannot be cancelled in status " + StatusName(o.status)
  }

  function Objects(lookup: Lookup<Order>): set<object>
  {
    if lookup.Found? then {lookup.entity} else {}
  }

  function View(lookup: Lookup<Order>): Fetched<OrderRecord>
    reads Objects(lookup)
  {
    match lookup
    case LookupFailed => FetchFailed
    case Missing => NotStored
    case Found(o) => Fetched(o.Snapshot())
  }

  // ------------------------------------------------------------------ create

  /**
   * The steps of CreateOrderAsync after the mapping: the order number, every
   * line priced, the total of the lines, status Pending and the card masked.
   */
  function Complete(o: OrderRecord, orderNumber: string): OrderRecord
  {
    var items := PriceItems(o.orderItems);
    o.(orderNumber := orderNumber, orderItems := items, totalAmount := CalculateTotal(items),
       status := Pending, paymentInfo := MaskPayment(o.paymentInfo))
  }

  /** The order CreateOrderAsync hands to the store: the mapped request, completed. */
  function PrepareOrder(d: CreateOrderDto, now: Time, orderNumber: string): OrderRecord
  {
    Complete(MapCreateOrder(d, now), orderNumber)
  }

  /** What CreateOrderAsync returns: the stored order with the id the store gave it, or the store's exception. */
  function CreateResult(d: CreateOrderDto, now: Time, orderNumber: string, inserted: Result<string, Fault>): Result<OrderRecord, Fault>
  {
    match inserted
    case Ok(id) => Ok(PrepareOrder(d, now, orderNumber).(id := id))
    case Err(f) => Err(f)
  }

  /** One insert and one OrderCreatedEvent when the store accepts the order; nothing otherwise. */
  function CreateEffects(d: CreateOrderDto, now: Time, orderNumber: string, inserted: Result<string, Fault>): seq<OrderEffect>
  {
    match inserted
    case Ok(id) =>
      var o := PrepareOrder(d, now, orderNumber).(id := id);
      [Inserted(o), Published(OrderCreatedEvent(id, o.userId, o.orderItems, o.totalAmount, o.createdAt))]
    case Err(_) => []
  }

  /**
   * A created order: status Pending, every line's total is its quantity
   * times its unit price, the order total is the sum of those, the card is
   * masked, and the user, lines and address are those of the request.
   */
  lemma PrepareOrderFacts(d: CreateOrderDto, now: Time, orderNumber: string)
    ensures var o := PrepareOrder(d, now, orderNumber);
      var items := OrElse(d.items, []);
      && o.status == Pending
      && o.orderNumber == orderNumber
      && o.createdAt == now && o.updatedAt == now
      && o.userId == OrElse(d.userId, "") && o.userName == OrElse(d.userName, "")
      && |o.orderItems| == |items|
      && (forall i :: 0 <= i < |items| ==>
            o.orderItems[i].totalPrice == items[i].quantity as real * items[i].unitPrice
            && o.orderItems[i].(totalPrice := items[i].totalPrice) == items[i])
      && o.totalAmount == LineSum(items)
      && o.shippingAddress == d.shippingAddress
      && o.paymentInfo == MaskPayment(d.paymentInfo)
  {
    PricedTotal(OrElse(d.items, []));
  }

  /** An accepted create writes exactly once and publishes exactly once, an event that matches the stored order. */
  lemma CreateOnceEach(d: CreateOrderDto, now: Time, orderNumber: string, id: string)
    ensures var e := CreateEffects(d, now, orderNumber, Ok(id));
      var o := CreateResult(d, now, orderNumber, Ok(id)).value;
      && |e| == 2 && e[0] == Inserted(o) && e[1].Published?
      && e[1].event == OrderCreatedEvent(o.id, o.userId, o.orderItems, o.totalAmount, o.createdAt)
  {
  }

  // ---------------------------------------------------- status and cancel

  /** UpdateOrderStatusAsync's answer: the store's, once the order exists. */
  function StatusResult(id: string, f: Fetched<OrderRecord>, replaced: Result<bool, Fault>): Result<bool, Fault>
  {
    match f
    case FetchFailed => Err(StoreFailure)
    case NotStored => Err(KeyNotFound(OrderNotFound(id)))
    case Fetched(_) => replaced
  }

  /** The replaced order and the status-change event, only when the store reports a modified document. */
  function StatusEffects(f: Fetched<OrderRecord>, newStatus: OrderStatus, now: Time, replaced: Result<bool, Fault>): seq<OrderEffect>
  {
    if f.Fetched? && replaced == Ok(true) then
      [Replaced(f.value.(status := newStatus, updatedAt := now)),
       Published(OrderStatusChangedEvent(f.value.id, f.value.status, newStatus, now))]
    else []
  }

  /** CancelOrderAsync's answer: a missing order, then a status that forbids it, then the store's answer. */
  function CancelResult(id: string, f: Fetched<OrderRecord>, replaced: Result<bool, Fault>): Result<bool, Fault>
  {
    match f
    case FetchFailed => Err(StoreFailure)
    case NotStored => Err(KeyNotFound(OrderNotFound(id)))
    case Fetched(o) => if !CanBeCancelled(o.status) then Err(InvalidOperation(CannotCancel(o))) else replaced
  }

  function CancelEffects(f: Fetched<OrderRecord>, now: Time, replaced: Result<bool, Fault>): seq<OrderEffect>
  {
    if f.Fetched? && CanBeCancelled(f.value.status) && replaced == Ok(true) then
      [Replaced(f.value.(status := Cancelled, updatedAt := now)),
       Published(OrderCancelledEvent(f.value.id, CancelReason, now))]
    else []
  }

  /**
   * The status-change event carries the old and the new status, and is sent
   * exactly when the order exists and the store modified it.
   */
  lemma StatusEventFacts(id: string, f: Fetched<OrderRecord>, newStatus: OrderStatus, now: Time, replaced: Result<bool, Fault>)
    ensures var e := StatusEffects(f, newStatus, now, replaced);
      && (e != [] <==> StatusResult(id, f, replaced) == Ok(true))
      && (e != [] ==> e[1] == Published(OrderStatusChangedEvent(f.value.id, f.value.status, newStatus, now)))
  {
  }

  /**
   * Cancelling fails without a write for an unknown order (KeyNotFound) and
   * for an order past processing (InvalidOperation); a delivered order is
   * one of those. Otherwise the order becomes Cancelled, and the event goes
   * out exactly when the store modified it.
   */
  lemma CancelFacts(id: string, f: Fetched<OrderRecord>, now: Time, replaced: Result<bool, Fault>)
    ensures var r := CancelResult(id, f, replaced);
      var e := CancelEffects(f, now, replaced);
      && (f == NotStored ==> r.Err? && r.error.KeyNotFound? && e == [])
      && (f.Fetched? && !CanBeCancelled(f.value.status) ==> r.Err? && r.error.InvalidOperation? && e == [])
      && (f.Fetched? && f.value.status == Delivered ==> r.Err? && r.error.InvalidOperation?)
      && (e != [] <==> r == Ok(true))
      && (e != [] ==> e[0].order.status == Cancelled && e[1] == Published(OrderCancelledEvent(f.value.id, CancelReason, now)))
  {
  }

  /** Once a cancel has gone through, cancelling the stored order again is refused. */
  lemma CancelTwiceRefused(id: string, o: OrderRecord, now: Time, replaced: Result<bool, Fault>, again: Result<bool, Fault>)
    requires CancelResult(id, Fetched(o), replaced) == Ok(true)
    ensures var stored := CancelEffects(Fetched(o), now, replaced)[0].order;
      CancelResult(id, Fetched(stored), again) == Err(InvalidOperation(CannotCancel(stored)))
  {
  }

  // ----------------------------------------------------------------- listing

  /** GetByUserIdAsync: the orders whose UserId is `userId`, in the store's order. */
  function OrdersOf(all: seq<OrderRecord>, userId: string): (r: seq<OrderRecord>)
    ensures forall o :: o in r <==> o in all && o.userId == userId
    ensures |r| <= |all|
  {
    if all == [] then []
    else (if all[0].userId == userId then [all[0]] else []) + OrdersOf(all[1..], userId)
  }

  // ----------------------------------------------------------------- service

  class OrderService {
    var effects: seq<OrderEffect>

    constructor ()
      ensures effects == []
    {
      effects := [];
    }

    /**
     * CreateOrderAsync. `orderNumber` stands for the generated
     * ORD-date-guid number; `inserted` is the id the store assigned, or its
     * exception.
     */
    method CreateOrder(d: CreateOrderDto, now: Time, orderNumber: string, inserted: Result<string, Fault>)
      returns (r: Result<OrderRecord, Fault>)
      modifies this
      ensures r == CreateResult(d, now, orderNumber, inserted)
      ensures effects == old(effects) + CreateEffects(d, now, orderNumber, inserted)
    {
      var order := new Order(MapCreateOrder(d, now));
      order.orderNumber := orderNumber;
      order.orderItems := PriceLines(order.orderItems);
      order.totalAmount := CalculateTotal(order.orderItems);
      order.status := Pending;
      MaskCard(order);
      assert order.Snapshot() == PrepareOrder(d, now, orderNumber);
      match inserted {
        case Err(f) =>
          r := Err(f);
        case Ok(id) =>
          order.id := id;
          var created := order.Snapshot();
          effects := effects + [Inserted(created), Published(OrderCreatedEvent(created.id, created.userId, created.orderItems, created.totalAmount, created.createdAt))];
          r := Ok(created);
      }
    }

    /** The masking step of CreateOrderAsync, applied to the entity in place. */
    static method MaskCard(order: Order)
      modifies order
      ensures order.Snapshot() == old(order.Snapshot()).(paymentInfo := MaskPayment(old(order.paymentInfo)))
    {
      if order.paymentInfo.Some? && order.paymentInfo.value.cardNumber != "" {
        var p := order.paymentInfo.value;
        order.paymentInfo := Some(p.(cardNumber := MaskCardNumber(p.cardNumber), cvv := MaskedCvv));
      }
    }

    /** The pricing loop of CreateOrderAsync: every line's TotalPrice becomes its CalculateItemTotal. */
    static method PriceLines(lines: seq<OrderItem>) returns (items: seq<OrderItem>)
      ensures items == PriceItems(lines)
    {
      items := lines;
      var i := 0;
      while i < |items|
        invariant 0 <= i <= |lines| == |items|
        invariant items == PriceItems(lines[..i]) + lines[i..]
      {
        var item := items[i];
        items := items[i := item.(totalPrice := CalculateItemTotal(item))];
        assert lines[..i + 1] == lines[..i] + [lines[i]];
        assert PriceItems(lines[..i + 1]) == PriceItems(lines[..i]) + [lines[i].(totalPrice := CalculateItemTotal(lines[i]))];
        i := i + 1;
      }
      assert lines[..i] == lines;
    }

    /**
     * GetOrdersAsync over the stored orders (newest first, as the store
     * sorts them): all of them for a null or empty user id, that user's
     * otherwise.
     */
    method GetOrders(userId: string, stored: Result<seq<OrderRecord>, Fault>) returns (r: Result<seq<OrderRecord>, Fault>)
      ensures stored.Err? ==> r == stored
      ensures stored.Ok? && userId == "" ==> r == stored
      ensures stored.Ok? && userId != "" ==> r == Ok(OrdersOf(stored.value, userId))
    {
      if stored.Err? {
        r := stored;
      } else if userId != "" {
        r := Ok(OrdersOf(stored.value, userId));
      } else {
        r := stored;
      }
    }

    /** GetOrderByIdAsync: KeyNotFoundException for a missing order. */
    method GetOrderById(id: string, lookup: Lookup<Order>) returns (r: Result<OrderRecord, Fault>)
      ensures View(lookup) == FetchFailed ==> r == Err(StoreFailure)
      ensures View(lookup) == NotStored ==> r == Err(KeyNotFound(OrderNotFound(id)))
      ensures View(lookup).Fetched? ==> r == Ok(View(lookup).value)
    {
      match lookup {
        case LookupFailed => r := Err(StoreFailure);
        case Missing => r := Err(KeyNotFound(OrderNotFound(id)));
        case Found(o) => r := Ok(o.Snapshot());
      }
    }

    /**
     * UpdateOrderStatusAsync. The fetched entity takes the new status before
     * the store is asked; `replaced` is what the store's UpdateAsync answered.
     */
    method UpdateOrderStatus(id: string, newStatus: OrderStatus, now: Time, lookup: Lookup<Order>, replaced: Result<bool, Fault>)
      returns (r: Result<bool, Fault>)
      modifies this, Objects(lookup)
      ensures r == StatusResult(id, old(View(lookup)), replaced)
      ensures effects == old(effects) + StatusEffects(old(View(lookup)), newStatus, now, replaced)
      ensures lookup.Found? ==> lookup.entity.Snapshot() == old(lookup.entity.Snapshot()).(status := newStatus, updatedAt := now)
    {
      match lookup {
        case LookupFailed => r := Err(StoreFailure);
        case Missing => r := Err(KeyNotFound(OrderNotFound(id)));
        case Found(o) =>
          var oldStatus := o.status;
          o.UpdateStatus(newStatus, now);
          r := replaced;
          if replaced == Ok(true) {
            effects := effects + [Replaced(o.Snapshot()), Published(OrderStatusChangedEvent(o.id, oldStatus, newStatus, now))];
          }
      }
    }

    /** CancelOrderAsync: the order must exist and still be cancellable. */
    method CancelOrder(id: string, now: Time, lookup: Lookup<Order>, replaced: Result<bool, Fault>)
      returns (r: Result<bool, Fault>)
      modifies this, Objects(lookup)
      ensures r == CancelResult(id, old(View(lookup)), replaced)
      ensures effects == old(effects) + CancelEffects(old(View(lookup)), now, replaced)
      ensures lookup.Found? && CanBeCancelled(old(lookup.entity.status)) ==>
        lookup.entity.Snapshot() == old(lookup.entity.Snapshot()).(status := Cancelled, updatedAt := now)
      ensures lookup.Found? && !CanBeCancelled(old(lookup.entity.status)) ==>
        lookup.entity.Snapshot() == old(lookup.entity.Snapshot())
    {
      match lookup {
        case LookupFailed => r := Err(StoreFailure);
        case Missing => r := Err(KeyNotFound(OrderNotFound(id)));
        case Found(o) =>
          if !CanBeCancelled(o.status) {
            r := Err(InvalidOperation(CannotCancel(o.Snapshot())));
            return;
          }
          o.UpdateStatus(Cancelled, now);
          r := replaced;
          if replaced == Ok(true) {
            effects := effects + [Replaced(o.Snapshot()), Published(OrderCancelledEvent(o.id, CancelReason, now))];
          }
      }
    }
  }
}
