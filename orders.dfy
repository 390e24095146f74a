/** The order kinds the wrappers post, and what a `post_*` call returns. */
module Orders {
  import opened Gateway

  /** The four order kinds, with the price each one carries. */
  datatype OrderKind = MarketOrder | LimitOrder(limit: real) | StopLossOrder(stop: real) | TakeProfitOrder(trigger: real)

  /** A `post_*` result: `{}` or `False` when nothing was sent, else the exchange's reply. */
  datatype Placement = NotSubmitted | Submitted(reply: Order)

  /** The `type` argument of `create_order` for each kind. */
  function OrderTypeName(kind: OrderKind): string {
    match kind
    case MarketOrder => "market"
    case LimitOrder(_) => "limit"
    case StopLossOrder(_) => "stop"
    case TakeProfitOrder(_) => "takeProfit"
  }
}
