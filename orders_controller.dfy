// OrdersController: the estimated-delivery table behind the tracking
// endpoint, the guard on create requests, and how each action turns the
// service's answer or exception into an HTTP response.

module OrderApi {
  import opened Common
  import opened OrderDomain
  import opened OrderApplication

  /** The responses the actions produce: 200 with a body or a message, 201, 400, 404 and 500. */
  datatype ActionResult<T> =
    | OkBody(body: T)
    | OkMessage(message: string)
    | CreatedAt(id: string, body: T)
    | BadRequest(message: string)
    | NotFound(message: string)
    | ServerError(message: string)

  // ------------------------------------------------------- delivery estimate

  /** Days from creation to the estimated delivery; none once delivered, cancelled or refunded. */
  function DeliveryDays(s: OrderStatus): Option<nat>
  {
    match s
    case Pending => Some(7)
    case Confirmed => Some(6)
    case Processing => Some(5)
    case Shipped => Some(3)
    case Delivered => None
    case Cancelled => None
    case Refunded => None
  }

  /** CalculateEstimatedDelivery: `createdAt.AddDays(n)` for the status's n. */
  function CalculateEstimatedDelivery(s: OrderStatus, createdAt: Time): Option<Time>
  {
    match DeliveryDays(s)
    case Some(n) => Some(createdAt + n * SecondsPerDay)
    case None => None
  }

  /** An estimate exists exactly for the statuses before delivery, and it lies after the creation time. */
  lemma EstimateExistsBeforeDelivery(s: OrderStatus, createdAt: Time)
    ensures var e := CalculateEstimatedDelivery(s, createdAt);
      && (e.Some? <==> Stage(s) < Stage(Delivered))
      && (e.Some? ==> e.value >= createdAt + 3 * SecondsPerDay)
  {
  }

  /** Further along the path (Pending, Confirmed, Processing, Shipped), the estimate comes strictly sooner. */
  lemma EstimateSoonerAsOrderAdvances(s: OrderStatus, t: OrderStatus, createdAt: Time)
    requires Stage(s) < Stage(t) < Stage(Delivered)
    ensures CalculateEstimatedDelivery(t, createdAt).value < CalculateEstimatedDelivery(s, createdAt).value
  {
  }

  /** A cancellable order is still at least five days from its estimated delivery at creation. */
  lemma CancellableHasEstimate(s: OrderStatus, createdAt: Time)
    requires CanBeCancelled(s)
    ensures var e := CalculateEstimatedDelivery(s, createdAt);
      e.Some? && e.value >= createdAt + 5 * SecondsPerDay
  {
  }

  datatype Tracking = Tracking(
    orderId: string,
    orderNumber: string,
    status: string,
    createdAt: Time,
    updatedAt: Time,
    estimatedDelivery: Option<Time>)

  function TrackingOf(o: OrderRecord): Tracking
  {
    Tracking(o.id, o.orderNumber, StatusName(o.status), o.createdAt, o.updatedAt,
             CalculateEstimatedDelivery(o.status, o.createdAt))
  }

  // --------------------------------------------------------------- responses

  /** GetOrders (`forUser` false) and GetUserOrders (`forUser` true): the list, or 500 with the action's own message. */
  function OrdersResponse(outcome: Result<seq<OrderRecord>, Fault>, forUser: bool): (a: ActionResult<seq<OrderRecord>>)
    ensures a.OkBody? <==> outcome.Ok?
    ensures a.OkBody? ==> a.body == outcome.value
    ensures !a.OkBody? ==> a.ServerError?
  {
    match outcome
    case Ok(orders) => OkBody(orders)
    case Err(_) =>
      ServerError(if forUser then "An error occurred while retrieving user orders"
                  else "An error occurred while retrieving orders")
  }

  /** GetOrder: the order, 404 for KeyNotFoundException, 500 for anything else. */
  function OrderResponse(id: string, outcome: Result<OrderRecord, Fault>): (a: ActionResult<OrderRecord>)
    ensures a.OkBody? <==> outcome.Ok?
    ensures a.NotFound? <==> outcome.Err? && outcome.error.KeyNotFound?
    ensures a.OkBody? || a.NotFound? || a.ServerError?
  {
    match outcome
    case Ok(o) => OkBody(o)
    case Err(KeyNotFound(_)) => NotFound(OrderNotFound(id))
    case Err(_) => ServerError("An error occurred while retrieving the order")
  }

  /** GetOrderTracking: the tracking view of the order, with the same error mapping as GetOrder. */
  function TrackingResponse(id: string, outcome: Result<OrderRecord, Fault>): (a: ActionResult<Tracking>)
    ensures a.OkBody? <==> outcome.Ok?
    ensures a.OkBody? ==> a.body.estimatedDelivery == CalculateEstimatedDelivery(outcome.value.status, outcome.value.createdAt)
    ensures a.NotFound? <==> outcome.Err? && outcome.error.KeyNotFound?
  {
    match outcome
    case Ok(o) => OkBody(TrackingOf(o))
    case Err(KeyNotFound(_)) => NotFound(OrderNotFound(id))
    case Err(_) => ServerError("An error occurred while retrieving order tracking")
  }

  /** The checks CreateOrder makes before calling the service: a body, and at least one item. */
  function CreateGuard(dto: Option<CreateOrderDto>): (a: Option<ActionResult<OrderRecord>>)
    ensures a.Some? <==> dto.None? || dto.value.items.None? || dto.value.items.value == []
    ensures a.Some? ==> a.value.BadRequest?
  {
    if dto.None? then Some(BadRequest("Order data is required"))
    else if dto.value.items.None? || dto.value.items.value == [] then Some(BadRequest("Order must contain at least one item"))
    else None
  }

  /** A request that passes validation also passes the controller's own guard. */
  lemma ValidPassesGuard(d: CreateOrderDto)
    requires ValidCreateOrder(d)
    ensures CreateGuard(Some(d)) == None
  {
  }

  /** CreateOrder after the guard: 201 pointing at the new order's id, or 500. */
  function CreateResponse(outcome: Result<OrderRecord, Fault>): (a: ActionResult<OrderRecord>)
    ensures a.CreatedAt? <==> outcome.Ok?
    ensures a.CreatedAt? ==> a.id == outcome.value.id && a.body == outcome.value
    ensures !a.CreatedAt? ==> a.ServerError?
  {
    match outcome
    case Ok(o) => CreatedAt(o.id, o)
    case Err(_) => ServerError("An error occurred while creating the order")
  }

  /** UpdateOrderStatus: 200 on true; 404 on false or KeyNotFoundException; 500 otherwise. */
  function StatusResponse<T>(id: string, outcome: Result<bool, Fault>): (a: ActionResult<T>)
    ensures a.OkMessage? <==> outcome == Ok(true)
    ensures a.NotFound? <==> outcome == Ok(false) || (outcome.Err? && outcome.error.KeyNotFound?)
    ensures a.OkMessage? || a.NotFound? || a.ServerError?
  {
    match outcome
    case Ok(true) => OkMessage("Order status updated successfully")
    case Ok(false) => NotFound(OrderNotFound(id))
    case Err(KeyNotFound(_)) => NotFound(OrderNotFound(id))
    case Err(_) => ServerError("An error occurred while updating order status")
  }

  /**
   * CancelOrder: 200 (with a message, not 204) on true; 404 on false or
   * KeyNotFoundException; 400 with the exception's message on
   * InvalidOperationException; 500 otherwise.
   */
  function CancelResponse<T>(id: string, outcome: Result<bool, Fault>): (a: ActionResult<T>)
    ensures a.OkMessage? <==> outcome == Ok(true)
    ensures a.NotFound? <==> outcome == Ok(false) || (outcome.Err? && outcome.error.KeyNotFound?)
    ensures a.BadRequest? <==> outcome.Err? && outcome.error.InvalidOperation?
    ensures a.BadRequest? ==> a.message == outcome.error.message
  {
    match outcome
    case Ok(true) => OkMessage("Order cancelled successfully")
    case Ok(false) => NotFound(OrderNotFound(id))
    case Err(KeyNotFound(_)) => NotFound(OrderNotFound(id))
    case Err(InvalidOperation(m)) => BadRequest(m)
    case Err(_) => ServerError("An error occurred while cancelling the order")
  }

  /** Cancelling a stored order that is past processing is a 400 naming its status, and nothing is written. */
  lemma CancelPastProcessingIsBadRequest(id: string, o: OrderRecord, now: Time, replaced: Result<bool, Fault>)
    requires !CanBeCancelled(o.status)
    ensures CancelResponse<()>(id, CancelResult(id, Fetched(o), replaced)) == BadRequest(CannotCancel(o))
    ensures CancelEffects(Fetched(o), now, replaced) == []
  {
  }

  /** Cancelling an order the store does not hold is a 404, and nothing is written. */
  lemma CancelMissingIsNotFound(id: string, now: Time, replaced: Result<bool, Fault>)
    ensures CancelResponse<()>(id, CancelResult(id, NotStored, replaced)) == NotFound(OrderNotFound(id))
    ensures CancelEffects(NotStored, now, replaced) == []
  {
  }

  // ----------------------------------------------------------------- actions

  /** CreateOrder: the guard first; only a request that passes it reaches the service. */
  method CreateOrder(service: OrderService, dto: Option<CreateOrderDto>, now: Time, orderNumber: string, inserted: Result<string, Fault>)
    returns (a: ActionResult<OrderRecord>)
    modifies service
    ensures CreateGuard(dto).Some? ==> a == CreateGuard(dto).value && service.effects == old(service.effects)
    ensures CreateGuard(dto).None? ==>
      && a == CreateResponse(CreateResult(dto.value, now, orderNumber, inserted))
      && service.effects == old(service.effects) + CreateEffects(dto.value, now, orderNumber, inserted)
  {
    var guard := CreateGuard(dto);
    if guard.Some? {
      return guard.value;
    }
    var outcome := service.CreateOrder(dto.value, now, orderNumber, inserted);
    a := CreateResponse(outcome);
  }

  /** UpdateOrderStatus. */
  method UpdateOrderStatus(service: OrderService, id: string, newStatus: OrderStatus, now: Time,
                           lookup: Lookup<Order>, replaced: Result<bool, Fault>)
    returns (a: ActionResult<()>)
    modifies service, Objects(lookup)
    ensures a == StatusResponse(id, StatusResult(id, old(View(lookup)), replaced))
    ensures service.effects == old(service.effects) + StatusEffects(old(View(lookup)), newStatus, now, replaced)
  {
    var outcome := service.UpdateOrderStatus(id, newStatus, now, lookup, replaced);
    a := StatusResponse(id, outcome);
  }

  /** CancelOrder. */
  method CancelOrder(service: OrderService, id: string, now: Time, lookup: Lookup<Order>, replaced: Result<bool, Fault>)
    returns (a: ActionResult<()>)
    modifies service, Objects(lookup)
    ensures a == CancelResponse(id, CancelResult(id, old(View(lookup)), replaced))
    ensures service.effects == old(service.effects) + CancelEffects(old(View(lookup)), now, replaced)
  {
    var outcome := service.CancelOrder(id, now, lookup, replaced);
    a := CancelResponse(id, outcome);
  }
}
