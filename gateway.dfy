/**
 * The exchange client seen from the wrapper: the answers it gives are
 * inputs of the model, and every request the wrapper makes of it is
 * appended to a trace, in order.
 */
module Gateway {
  import opened Wrappers

  /** A value in a request's `params` dictionary. */
  datatype ParamValue = Num(n: real) | Text(s: string)

  type ParamMap = map<string, ParamValue>

  /**
   * A caller-owned `params` dictionary. The wrapper's `params.update(...)`
   * changes it in place, so the caller sees the new keys afterwards.
   */
  class Params {
    var entries: ParamMap

    constructor(entries: ParamMap)
      ensures this.entries == entries
    {
      this.entries := entries;
    }

    /** `params.update({key: value})`. */
    method Update(key: string, value: ParamValue)
      modifies this
      ensures entries == old(entries)[key := value]
    {
      entries := entries[key := value];
    }
  }

  /** The dictionary a method works with: `params is None` becomes `{}`. */
  function EntriesOf(params: Params?): (m: ParamMap)
    reads params
    ensures params == null ==> m == map[]
    ensures params != null ==> m == params.entries
  {
    if params == null then map[] else params.entries
  }

  /** The two quoted prices of a ticker. */
  datatype Ticker = Ticker(bid: real, ask: real)

  /** `fetch_balance()`: per currency, per field ("free", "total", ...). */
  type Balances = map<string, map<string, real>>

  /**
   * `balances.get(token, {}).get('free', 0)`: the free amount of a currency,
   * 0 when the currency or its "free" field is missing.
   */
  function FreeBalance(balances: Balances, currency: string): (free: real)
    ensures currency !in balances ==> free == 0.0
    ensures currency in balances && "free" !in balances[currency] ==> free == 0.0
    ensures currency in balances && "free" in balances[currency] ==> free == balances[currency]["free"]
  {
    if currency in balances && "free" in balances[currency] then balances[currency]["free"] else 0.0
  }

  /**
   * What `market(symbol)` tells the sizing code: the truncated decimal
   * exponent `int(log10(precision["amount"]))` and `limits["amount"]["min"]`.
   */
  datatype MarketInfo = MarketInfo(precisionExponent: int, minAmount: real)

  /**
   * The `info` part of an order dictionary. `remaining` is `None` when the
   * field holds JSON null; a missing key would raise `KeyError` in the source,
   * which the model does not represent.
   */
  datatype OrderInfo = OrderInfo(id: string, orderType: string, status: string, remaining: Option<real>)

  datatype Order = Order(info: OrderInfo)

  /** One request made of the exchange client. */
  datatype Call =
    | LoadMarkets
    | FetchTicker(market: string, params: ParamMap)
    | FetchBalance(params: ParamMap)
    | MarketLookup(market: string)
    | CreateOrder(market: string, orderType: string, side: string, amount: real, price: Option<real>, params: ParamMap)
    | CancelOrder(orderId: string, symbol: Option<string>, params: ParamMap)
    | FetchOrder(orderId: string, symbol: Option<string>, params: ParamMap)
    | FetchOrders(symbol: Option<string>, params: ParamMap)
    | FetchOpenOrders(symbol: Option<string>, params: ParamMap)

  datatype Credentials = Credentials(apiKey: string, secret: string)

  /** An instantiated exchange client: its account and the requests made of it. */
  class Exchange {
    const name: string
    const credentials: Option<Credentials>
    var calls: seq<Call>

    constructor(name: string, credentials: Option<Credentials>)
      ensures this.name == name && this.credentials == credentials
      ensures calls == []
    {
      this.name := name;
      this.credentials := credentials;
      calls := [];
    }

    /** Sends one request. */
    method Issue(c: Call)
      modifies this
      ensures calls == old(calls) + [c]
    {
      calls := calls + [c];
    }
  }
}
