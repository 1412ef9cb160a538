// The two message consumers that feed the recommendation graph: an order
// becomes a purchase record, a product view becomes a view record.

module Consumers {
  import opened Common
  import opened RecommendationDtos
  import opened Graph
  import opened RepositorySpec
  import opened Repository
  import Service

  datatype OrderItemEvent = OrderItemEvent(productId: string, quantity: Int32, price: real)

  datatype OrderCreatedEvent = OrderCreatedEvent(
    orderId: string,
    userId: string,
    items: seq<OrderItemEvent>,
    createdAt: Time)

  datatype ProductViewedEvent = ProductViewedEvent(
    userId: string,
    productId: string,
    viewedAt: Time,
    duration: Int32,
    source: string)

  /** The `Select` of OrderCreatedEventConsumer: one purchase item per event item, in order, with the same fields. */
  function ToPurchaseItems(items: seq<OrderItemEvent>): (r: seq<PurchaseItem>)
    ensures |r| == |items|
    ensures forall i :: 0 <= i < |r| ==>
      r[i].productId == items[i].productId && r[i].quantity == items[i].quantity && r[i].price == items[i].price
  {
    seq(|items|, i requires 0 <= i < |items| => PurchaseItem(items[i].productId, items[i].quantity, items[i].price))
  }

  /** What consuming an order does to the repository: the purchase of the event's user and order, once. */
  function OrderCreatedCall(g: Graph, faults: set<nat>, n: nat, e: OrderCreatedEvent, now: Time): Run<()>
  {
    PurchaseCall(g, faults, n, e.userId, e.orderId, ToPurchaseItems(e.items), now)
  }

  /** The order's own timestamp is not forwarded: the purchase is stamped with the store's clock. */
  lemma CreatedAtIgnored(g: Graph, faults: set<nat>, n: nat, e: OrderCreatedEvent, t: Time, now: Time)
    ensures OrderCreatedCall(g, faults, n, e, now) == OrderCreatedCall(g, faults, n, e.(createdAt := t), now)
  {
  }

  /**
   * Consume for OrderCreatedEvent: records the purchase and lets any failure
   * through to the message bus.
   */
  method ConsumeOrderCreated(repo: RecommendationRepository, e: OrderCreatedEvent, now: Time)
    returns (r: Result<(), Failure>)
    requires repo.Valid()
    modifies repo
    ensures repo.Valid()
    ensures var run := OrderCreatedCall(old(repo.Snapshot()), repo.faults, old(|repo.log|), e, now);
      r == run.result && repo.log == old(repo.log) + run.issued && repo.Snapshot() == run.after
  {
    var items := ToPurchaseItems(e.items);
    r := Service.RecordPurchase(repo, e.userId, e.orderId, items, now);
  }

  /** What consuming a view does to the repository: one view record with the event's four fields. */
  function ProductViewedCall(g: Graph, faults: set<nat>, n: nat, e: ProductViewedEvent, now: Time): Run<()>
  {
    ViewCall(g, faults, n, e.userId, e.productId, e.duration, Some(e.source), now)
  }

  /** The view's own timestamp is not forwarded either. */
  lemma ViewedAtIgnored(g: Graph, faults: set<nat>, n: nat, e: ProductViewedEvent, t: Time, now: Time)
    ensures ProductViewedCall(g, faults, n, e, now) == ProductViewedCall(g, faults, n, e.(viewedAt := t), now)
  {
  }

  /** Exactly one view statement goes out per event, carrying the event's user, product, duration and source. */
  lemma ProductViewedSendsOne(g: Graph, faults: set<nat>, n: nat, e: ProductViewedEvent, now: Time)
    ensures ProductViewedCall(g, faults, n, e, now).issued == [ViewStmt(e.userId, e.productId, e.duration, Some(e.source))]
  {
  }

  /** Consume for ProductViewedEvent: forwards the view; nothing is raised. */
  method ConsumeProductViewed(repo: RecommendationRepository, e: ProductViewedEvent, now: Time)
    requires repo.Valid()
    modifies repo
    ensures repo.Valid()
    ensures var run := ProductViewedCall(old(repo.Snapshot()), repo.faults, old(|repo.log|), e, now);
      repo.log == old(repo.log) + run.issued && repo.Snapshot() == run.after
  {
    Service.RecordView(repo, e.userId, e.productId, now, e.duration, Some(e.source));
  }
}
