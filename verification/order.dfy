/** The order an observation answers. */
module Order {
  import opened Wrappers
  import opened Primitives

  datatype Order = Order(
    universalServiceId: CE,
    orderingProviderId: Option<string>,
    orderId: Option<CV>)

  /** Order(): an empty service code and no provider or order identifier. */
  function Default(): (o: Order)
    ensures o.universalServiceId == CEWithCode("")
    ensures o.orderingProviderId == None
    ensures o.orderId == None
  {
    Order(CEWithCode(""), None, None)
  }
}
