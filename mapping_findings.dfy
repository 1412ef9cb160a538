// The mapping profile's CreateOrderDto-to-Order map configures the id, the
// order number, the total, the status and the two timestamps, and nothing for
// the lines. The request calls them `Items` and the entity `OrderItems`; no
// source member is named `OrderItems`, and flattening would need a source
// member `Order`, so AutoMapper pairs nothing with them and the entity keeps
// the empty list it is constructed with. The configuration is never
// validated at startup, so nothing reports the unmapped member. The rest of
// the model uses OrderDomain.MapCreateOrder, which copies the lines, as the
// integration test of order creation expects.

module MappingFindings {
  import opened Common
  import opened OrderDomain
  import opened OrderApplication

  /** The profile as written: the intended mapping without the lines. */
  function MapCreateOrderAsWritten(d: CreateOrderDto, now: Time): (o: OrderRecord)
    ensures o == MapCreateOrder(d, now).(orderItems := [])
  {
    OrderRecord("", "", OrElse(d.userId, ""), OrElse(d.userName, ""), 0.0, Pending,
                [], d.shippingAddress, d.paymentInfo, now, now)
  }

  /** The order CreateOrderAsync hands to the store, as written. */
  function PrepareOrderAsWritten(d: CreateOrderDto, now: Time, orderNumber: string): OrderRecord
  {
    Complete(MapCreateOrderAsWritten(d, now), orderNumber)
  }

  /**
   * For every valid request, the order as written has no lines and a total
   * of 0, while the intended order has the request's lines, at least one,
   * and their sum as its total. Everything else agrees.
   */
  lemma AsWrittenDropsLines(d: CreateOrderDto, now: Time, orderNumber: string)
    requires ValidCreateOrder(d)
    ensures var o := PrepareOrderAsWritten(d, now, orderNumber);
      o.orderItems == [] && o.totalAmount == 0.0
    ensures var o := PrepareOrder(d, now, orderNumber);
      |o.orderItems| == |d.items.value| >= 1 && o.totalAmount == LineSum(d.items.value)
    ensures PrepareOrderAsWritten(d, now, orderNumber)
         == PrepareOrder(d, now, orderNumber).(orderItems := [], totalAmount := 0.0)
  {
    PrepareOrderFacts(d, now, orderNumber);
  }

  /** The request of the integration test: one line of two at 49.99. */
  const TestRequest: CreateOrderDto := CreateOrderDto(
    Some("integration-user-001"), Some("Integration Test User"),
    Some([OrderItem("prod-int-001", "Integration Test Product", 2, 49.99, 0.0)]),
    Some(Address("456 Test Avenue", "Test City", "TC", "TestLand", "12345", "+1555000111")),
    Some(Payment("Test User", "4111111111111111", "12/27", "456", CreditCard)))

  /**
   * The integration test's order: as written it is stored with no line and
   * a total of 0; intended are one line and 99.98.
   */
  lemma MappingCounterexample(now: Time, orderNumber: string, id: string)
    ensures ValidCreateOrder(TestRequest)
    ensures var o := PrepareOrderAsWritten(TestRequest, now, orderNumber);
      o.orderItems == [] && o.totalAmount == 0.0
    ensures var o := PrepareOrder(TestRequest, now, orderNumber);
      |o.orderItems| == 1 && o.totalAmount == 99.98
  {
    assert !IsWhiteSpace(TestRequest.userId.value[0]) && !IsWhiteSpace(TestRequest.userName.value[0]);
    AsWrittenDropsLines(TestRequest, now, orderNumber);
    var items := TestRequest.items.value;
    assert LineSum(items) == CalculateItemTotal(items[0]) + LineSum(items[1..]);
    assert items[1..] == [];
  }
}
