/**
 * FTX endpoint selection: fetches use the plain order endpoint, cancels use the
 * conditional-order endpoint for stop and take-profit orders.
 */
module Routing {
  const MethodKey := "method"
  const FetchOrderMethod := "privateGetOrdersOrderId"
  const CancelPlainMethod := "privateDeleteOrdersOrderId"
  const CancelConditionalMethod := "privateDeleteConditionalOrdersOrderId"

  /** The order types FTX files as conditional orders. */
  predicate IsConditional(orderType: string) {
    orderType == "stop" || orderType == "take_profit"
  }

  /** The cancel endpoint for an order of type `info.type`. */
  function CancelMethodFor(orderType: string): (m: string)
    ensures m == CancelConditionalMethod <==> IsConditional(orderType)
    ensures m == CancelPlainMethod <==> !IsConditional(orderType)
    ensures m != FetchOrderMethod
  {
    if IsConditional(orderType) then CancelConditionalMethod else CancelPlainMethod
  }
}
