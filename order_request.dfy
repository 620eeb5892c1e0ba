/** The payload literal built by `placeOrder`. */
module OrderRequest {
  import opened AppTypes

  /** The user id is hard-wired. */
  const UserId: int := 1
  /** The one line item every order carries. */
  const SampleItem: LineItem := LineItem(1, "Sample Item", 1, 1599)
  /** The total written in the payload literal. */
  const SampleTotal: int := 1599
  const TestPaymentMethod: string := "pm_test_card"

  /** Reference definition of what an item list costs. */
  function ItemsTotal(items: seq<LineItem>): int
  {
    if items == [] then 0
    else ItemsTotal(items[..|items| - 1]) + items[|items| - 1].price * items[|items| - 1].quantity
  }

  /** What every payload sent by the component satisfies. */
  predicate WellFormedPayload(p: Payload)
  {
    && p.userId == UserId
    && |p.items| > 0
    && (forall i :: 0 <= i < |p.items| ==> p.items[i].quantity > 0 && p.items[i].price >= 0)
    && p.total == ItemsTotal(p.items)
    && p.paymentInfo.paymentMethodId == TestPaymentMethod
  }

  function BuildPayload(restaurantId: int): (p: Payload)
    ensures WellFormedPayload(p)
    ensures p.restaurantId == restaurantId
    ensures p.items == [SampleItem]
    ensures p.total == SampleItem.price * SampleItem.quantity
  {
    Payload(UserId, restaurantId, [SampleItem], SampleTotal, PaymentInfo(TestPaymentMethod))
  }

  /** The payload depends on the restaurant id alone: two payloads differ exactly in it. */
  lemma PayloadDependsOnlyOnRestaurant(a: int, b: int)
    ensures BuildPayload(a).(restaurantId := b) == BuildPayload(b)
    ensures BuildPayload(a) == BuildPayload(b) <==> a == b
  {
  }
}
