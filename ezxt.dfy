/**
 * The first wrapper draft: `Client`, which holds one exchange client,
 * loads its markets on construction and calls it without any state check.
 */
module Ezxt {
  import opened Wrappers
  import opened Decimal
  import opened Symbols
  import opened Gateway
  import opened Wrapping
  import opened Routing
  import opened Sizing
  import opened Orders
  import Ezxt2

  // ---------------------------------------------------------------------
  // post_market_order, post_limit_order, post_stop, post_take_profit
  // ---------------------------------------------------------------------

  /**
   * The request each `post_*` makes: market and limit orders use the caller's
   * side and no params; stop and take-profit orders always sell, pass no price
   * and carry the price as `stopPrice` or `triggerPrice`.
   */
  function LegacyOrderRequest(kind: OrderKind, symbol: string, side: string, amount: real): (c: Call)
    ensures c.CreateOrder? && c.market == symbol && c.amount == amount && c.orderType == OrderTypeName(kind)
    ensures kind.MarketOrder? || kind.LimitOrder? ==> c.side == side && c.params == map[]
    ensures kind.StopLossOrder? || kind.TakeProfitOrder? ==> c.side == "sell"
    ensures kind.StopLossOrder? ==> c.params == map["stopPrice" := Num(kind.stop)]
    ensures kind.TakeProfitOrder? ==> c.params == map["triggerPrice" := Num(kind.trigger)]
    ensures c.price.Some? <==> kind.LimitOrder?
    ensures kind.LimitOrder? ==> c.price == Some(kind.limit)
  {
    match kind
    case MarketOrder => CreateOrder(symbol, "market", side, amount, None, map[])
    case LimitOrder(p) => CreateOrder(symbol, "limit", side, amount, Some(p), map[])
    case StopLossOrder(p) => CreateOrder(symbol, "stop", "sell", amount, None, map["stopPrice" := Num(p)])
    case TakeProfitOrder(p) => CreateOrder(symbol, "takeProfit", "sell", amount, None, map["triggerPrice" := Num(p)])
  }

  /** A `post_*` call: `False` for an amount of exactly 0, else one request. */
  function LegacyPlaceRun(kind: OrderKind, symbol: string, side: string, amount: real, reply: Order): Run<Placement> {
    if amount == 0.0 then Run(Success(NotSubmitted), [])
    else Run(Success(Submitted(reply)), [LegacyOrderRequest(kind, symbol, side, amount)])
  }

  /**
   * Only an amount of exactly 0 is refused: a negative amount is sent as it
   * is, where the other draft refuses every amount that is not positive.
   */
  lemma LegacyGuardOnlyZero(kind: OrderKind, symbol: string, side: string, amount: real, reply: Order)
    ensures LegacyPlaceRun(kind, symbol, side, amount, reply).result == Success(NotSubmitted) <==> amount == 0.0
    ensures amount < 0.0 ==>
      && LegacyPlaceRun(kind, symbol, side, amount, reply).calls == [LegacyOrderRequest(kind, symbol, side, amount)]
      && Ezxt2.PlaceRun(Authenticated, kind, symbol, side, amount, map[], reply) == Run(Success(NotSubmitted), [])
  {
  }

  // ---------------------------------------------------------------------
  // cancel_order, get_order, get_order_status, get_all_orders
  // ---------------------------------------------------------------------

  /** `cancel_order`: cancels `info.id` with no symbol, routed on `info.type`. */
  function LegacyCancelRequest(order: Order): (c: Call)
    ensures c.CancelOrder? && c.orderId == order.info.id && c.symbol == None
    ensures c.params.Keys == {MethodKey}
    ensures c.params[MethodKey] == Text(CancelConditionalMethod) <==> IsConditional(order.info.orderType)
    ensures c.params[MethodKey] == Text(CancelPlainMethod) <==> !IsConditional(order.info.orderType)
  {
    CancelOrder(order.info.id, None, map[MethodKey := Text(CancelMethodFor(order.info.orderType))])
  }

  /** Both drafts send the same cancel endpoint for the same order. */
  lemma CancelRoutingAgrees(order: Order, market: string, reply: Order)
    ensures var ftx := Ezxt2.CancelByObjectRun(Authenticated, order, market, map[], reply).calls;
      |ftx| == 1 && ftx[0].params == LegacyCancelRequest(order).params && ftx[0].orderId == LegacyCancelRequest(order).orderId
  {
  }

  /** The fetch request of `get_order` and `get_order_status`. */
  function LegacyFetchRequest(orderId: string): Call {
    FetchOrder(orderId, None, map[MethodKey := Text(FetchOrderMethod)])
  }

  /**
   * `get_order_status`'s answer for an order's `info`: "filled" whenever
   * nothing remains, whatever the status; otherwise "open" or "canceled" when
   * the status says so; otherwise nothing (`None`).
   */
  function NormaliseStatus(info: OrderInfo): (s: Option<string>)
    ensures s == Some("filled") <==> info.remaining == Some(0.0)
    ensures s == Some("open") <==> info.remaining != Some(0.0) && info.status == "open"
    ensures s == Some("canceled") <==> info.remaining != Some(0.0) && info.status == "canceled"
    ensures s.None? <==> info.remaining != Some(0.0) && info.status != "open" && info.status != "canceled"
  {
    if info.remaining == Some(0.0) then Some("filled")
    else if info.status == "open" then Some("open")
    else if info.status == "canceled" then Some("canceled")
    else None
  }

  // ---------------------------------------------------------------------
  // get_buy_size, get_sell_size
  // ---------------------------------------------------------------------

  /** `(amount * balance) / 100`: `amount` percent of a balance, in this draft's order of operations. */
  function LegacyPercentOf(amount: real, balance: real): real {
    amount * balance / 100.0
  }

  /** The two drafts' percentage formulas agree. */
  lemma PercentFormulasAgree(amount: real, balance: real)
    ensures LegacyPercentOf(amount, balance) == Ezxt2.PercentOf(amount, balance)
  {
  }

  /** The balance a sizing uses: the one supplied, else one `get_free_balance`. */
  function BalanceCalls(supplied: Option<real>): seq<Call> {
    if supplied.None? then [LoadMarkets, FetchBalance(map[])] else []
  }

  /**
   * `get_buy_size`: a percentage of the free quote balance, converted at the
   * price (the ask unless given), truncated and limited; the balance, the
   * market and the ticker are requested in that order, each only when needed.
   */
  function BuySizeRun(coin: string, pair: string, amount: real, price: Option<real>, freeBalance: Option<real>,
                      balances: Balances, ticker: Ticker, info: MarketInfo): Run<real>
  {
    var scaled := LegacyPercentOf(amount, freeBalance.GetOr(FreeBalance(balances, coin)));
    var p := price.GetOr(ticker.ask);
    var calls := BalanceCalls(freeBalance) + [MarketLookup(pair)]
                 + (if price.None? then [LoadMarkets, FetchTicker(pair, map[])] else []);
    if p == 0.0 then Run(Failure(ZeroDivision), calls)
    else Run(Success(LimitSize(scaled / p, info)), calls)
  }

  /** `get_sell_size`: a percentage of the free base balance, truncated and limited; no price. */
  function SellSizeRun(symbol: string, pair: string, amount: real, freeBalance: Option<real>,
                       balances: Balances, info: MarketInfo): Run<real>
  {
    var scaled := LegacyPercentOf(amount, freeBalance.GetOr(FreeBalance(balances, symbol)));
    Run(Success(LimitSize(scaled, info)), BalanceCalls(freeBalance) + [MarketLookup(pair)])
  }

  /**
   * Buy sizing returns `truncate((amount * balance / 100) / price, digits)`, or
   * 0 when that is below the market minimum; it fails only on a zero price.
   */
  lemma BuySizeValue(coin: string, pair: string, amount: real, price: Option<real>, freeBalance: Option<real>,
                     balances: Balances, ticker: Ticker, info: MarketInfo)
    ensures var r := BuySizeRun(coin, pair, amount, price, freeBalance, balances, ticker, info).result;
            var p := price.GetOr(ticker.ask);
      && (r.Failure? <==> p == 0.0)
      && (r.Failure? ==> r.error == ZeroDivision)
      && (p != 0.0 ==>
            var raw := (amount * freeBalance.GetOr(FreeBalance(balances, coin)) / 100.0) / p;
            && (r.value == 0.0 || r.value >= info.minAmount)
            && (r.value != 0.0 ==> r.value == TruncateTo(raw, MarketDigits(info)))
            && (TruncateTo(raw, MarketDigits(info)) >= info.minAmount ==> r.value == TruncateTo(raw, MarketDigits(info)))
            && (TruncateTo(raw, MarketDigits(info)) < info.minAmount ==> r.value == 0.0))
  {
  }

  /**
   * Sell sizing returns `truncate(amount * balance / 100, digits)`, or 0 when
   * that is below the market minimum.
   */
  lemma SellSizeValue(symbol: string, pair: string, amount: real, freeBalance: Option<real>,
                      balances: Balances, info: MarketInfo)
    ensures var r := SellSizeRun(symbol, pair, amount, freeBalance, balances, info).result;
            var raw := amount * freeBalance.GetOr(FreeBalance(balances, symbol)) / 100.0;
      && r.Success?
      && (r.value == 0.0 || r.value >= info.minAmount)
      && (r.value != 0.0 ==> r.value == TruncateTo(raw, MarketDigits(info)))
      && (TruncateTo(raw, MarketDigits(info)) >= info.minAmount ==> r.value == TruncateTo(raw, MarketDigits(info)))
      && (TruncateTo(raw, MarketDigits(info)) < info.minAmount ==> r.value == 0.0)
  {
  }

  /** A supplied balance means no balance request. */
  lemma SuppliedBalanceSkipsFetch(coin: string, pair: string, amount: real, price: Option<real>, balance: real,
                                  balances: Balances, ticker: Ticker, info: MarketInfo)
    ensures FetchBalance(map[]) !in BuySizeRun(coin, pair, amount, price, Some(balance), balances, ticker, info).calls
    ensures FetchBalance(map[]) !in SellSizeRun(coin, pair, amount, Some(balance), balances, info).calls
  {
  }

  /**
   * Buy sizing of the quote currency agrees with the other draft's
   * `currency_2_percent` sizing whenever both use the same price, which holds
   * when a price is given or the side is not "buy" (that draft prices a "buy"
   * at the bid, this one at the ask).
   */
  lemma BuySizeAgreesWithOrderSize(market: string, cp: CurrencyPair, side: string, amount: real, price: Option<real>,
                                   balances: Balances, ticker: Ticker, info: MarketInfo)
    requires SplitPair(market) == Some(cp)
    requires price.Some? || side != "buy"
    ensures BuySizeRun(cp.quote, market, amount, price, None, balances, ticker, info).result
         == Ezxt2.OrderSizeRun(Authenticated, market, side, "currency_2_percent", amount, price, map[],
                               ticker, balances, info).result
  {
    PercentFormulasAgree(amount, FreeBalance(balances, cp.quote));
  }

  /** Sell sizing of the base currency agrees with the other draft's `currency_1_percent` sizing. */
  lemma SellSizeAgreesWithOrderSize(market: string, cp: CurrencyPair, side: string, amount: real, price: Option<real>,
                                    balances: Balances, ticker: Ticker, info: MarketInfo)
    requires SplitPair(market) == Some(cp)
    ensures SellSizeRun(cp.base, market, amount, None, balances, info).result
         == Ezxt2.OrderSizeRun(Authenticated, market, side, "currency_1_percent", amount, price, map[],
                               ticker, balances, info).result
  {
    PercentFormulasAgree(amount, FreeBalance(balances, cp.base));
  }

  // ---------------------------------------------------------------------
  // The client
  // ---------------------------------------------------------------------

  /** `Client`: the exchange client, created with the account iff both keys are given. */
  class Client {
    const exchange: Exchange

    /** `__init__`: create the client, then `load_markets()`. */
    constructor(name: string, apiKey: Option<string>, apiSecret: Option<string>)
      ensures fresh(exchange) && exchange.name == name
      ensures exchange.credentials == CredentialsOf(apiKey, apiSecret)
      ensures exchange.calls == [LoadMarkets]
    {
      var e: Exchange;
      if apiKey.Some? && apiSecret.Some? {
        e := new Exchange(name, Some(Credentials(apiKey.value, apiSecret.value)));
      } else {
        e := new Exchange(name, None);
      }
      e.Issue(LoadMarkets);
      exchange := e;
    }

    /** `get_bid`. */
    method GetBid(symbol: string, ticker: Ticker) returns (bid: real)
      modifies exchange
      ensures bid == ticker.bid
      ensures exchange.calls == old(exchange.calls) + [LoadMarkets, FetchTicker(symbol, map[])]
    {
      exchange.Issue(LoadMarkets);
      exchange.Issue(FetchTicker(symbol, map[]));
      return ticker.bid;
    }

    /** `get_ask`. */
    method GetAsk(symbol: string, ticker: Ticker) returns (ask: real)
      modifies exchange
      ensures ask == ticker.ask
      ensures exchange.calls == old(exchange.calls) + [LoadMarkets, FetchTicker(symbol, map[])]
    {
      exchange.Issue(LoadMarkets);
      exchange.Issue(FetchTicker(symbol, map[]));
      return ticker.ask;
    }

    /** `get_free_balance`: 0 when the currency or its "free" field is missing. */
    method GetFreeBalance(symbol: string, balances: Balances) returns (free: real)
      modifies exchange
      ensures free == FreeBalance(balances, symbol)
      ensures exchange.calls == old(exchange.calls) + [LoadMarkets, FetchBalance(map[])]
    {
      exchange.Issue(LoadMarkets);
      exchange.Issue(FetchBalance(map[]));
      return FreeBalance(balances, symbol);
    }

    /** `post_market_order`. */
    method PostMarketOrder(symbol: string, side: string, amount: real, reply: Order) returns (r: Placement)
      modifies exchange
      ensures var run := LegacyPlaceRun(MarketOrder, symbol, side, amount, reply);
        Success(r) == run.result && exchange.calls == old(exchange.calls) + run.calls
    {
      if amount == 0.0 {
        return NotSubmitted;
      }
      exchange.Issue(LegacyOrderRequest(MarketOrder, symbol, side, amount));
      return Submitted(reply);
    }

    /** `post_limit_order` (ccxt's `create_limit_order`, a `create_order` of type "limit"). */
    method PostLimitOrder(symbol: string, side: string, amount: real, price: real, reply: Order) returns (r: Placement)
      modifies exchange
      ensures var run := LegacyPlaceRun(LimitOrder(price), symbol, side, amount, reply);
        Success(r) == run.result && exchange.calls == old(exchange.calls) + run.calls
    {
      if amount == 0.0 {
        return NotSubmitted;
      }
      exchange.Issue(LegacyOrderRequest(LimitOrder(price), symbol, side, amount));
      return Submitted(reply);
    }

    /** `post_stop`: always a sell. */
    method PostStop(symbol: string, amount: real, price: real, reply: Order) returns (r: Placement)
      modifies exchange
      ensures var run := LegacyPlaceRun(StopLossOrder(price), symbol, "sell", amount, reply);
        Success(r) == run.result && exchange.calls == old(exchange.calls) + run.calls
    {
      if amount == 0.0 {
        return NotSubmitted;
      }
      exchange.Issue(LegacyOrderRequest(StopLossOrder(price), symbol, "sell", amount));
      return Submitted(reply);
    }

    /** `post_take_profit`: always a sell. */
    method PostTakeProfit(symbol: string, amount: real, price: real, reply: Order) returns (r: Placement)
      modifies exchange
      ensures var run := LegacyPlaceRun(TakeProfitOrder(price), symbol, "sell", amount, reply);
        Success(r) == run.result && exchange.calls == old(exchange.calls) + run.calls
    {
      if amount == 0.0 {
        return NotSubmitted;
      }
      exchange.Issue(LegacyOrderRequest(TakeProfitOrder(price), symbol, "sell", amount));
      return Submitted(reply);
    }

    /** `cancel_order`. */
    method CancelOrder(order: Order, reply: Order) returns (r: Order)
      modifies exchange
      ensures r == reply
      ensures exchange.calls == old(exchange.calls) + [LegacyCancelRequest(order)]
    {
      var orderType := order.info.orderType;
      if orderType == "stop" || orderType == "take_profit" {
        exchange.Issue(Gateway.CancelOrder(order.info.id, None, map[MethodKey := Text(CancelConditionalMethod)]));
        return reply;
      }
      exchange.Issue(Gateway.CancelOrder(order.info.id, None, map[MethodKey := Text(CancelPlainMethod)]));
      return reply;
    }

    /** `get_order`: always fetches, by `order_id` if given, else by the order's `info.id`. */
    method GetOrder(order: Order, orderId: Option<string>, fetched: Order) returns (r: Order)
      modifies exchange
      ensures r == fetched
      ensures exchange.calls == old(exchange.calls) + [LegacyFetchRequest(orderId.GetOr(order.info.id))]
    {
      var id := order.info.id;
      if orderId.Some? {
        id := orderId.value;
      }
      exchange.Issue(FetchOrder(id, None, map[MethodKey := Text(FetchOrderMethod)]));
      return fetched;
    }

    /** `get_all_orders`: the open-orders query when `open_only`, else all orders. */
    method GetAllOrders(symbol: Option<string>, openOnly: bool, orders: seq<Order>) returns (r: seq<Order>)
      modifies exchange
      ensures r == orders
      ensures openOnly ==> exchange.calls == old(exchange.calls) + [FetchOpenOrders(symbol, map[])]
      ensures !openOnly ==> exchange.calls == old(exchange.calls) + [FetchOrders(symbol, map[])]
    {
      if openOnly {
        exchange.Issue(FetchOpenOrders(symbol, map[]));
      } else {
        exchange.Issue(FetchOrders(symbol, map[]));
      }
      return orders;
    }

    /**
     * `get_order_status`: without an `order_id` the order is fetched again by
     * its `info.id`; with one, the given order is read as it is.
     */
    method GetOrderStatus(order: Order, orderId: Option<string>, fetched: Order) returns (status: Option<string>)
      modifies exchange
      ensures orderId.None? ==> status == NormaliseStatus(fetched.info)
      ensures orderId.None? ==> exchange.calls == old(exchange.calls) + [LegacyFetchRequest(order.info.id)]
      ensures orderId.Some? ==> status == NormaliseStatus(order.info) && exchange.calls == old(exchange.calls)
    {
      var current := order;
      if orderId.None? {
        exchange.Issue(FetchOrder(order.info.id, None, map[MethodKey := Text(FetchOrderMethod)]));
        current := fetched;
      }
      if current.info.remaining == Some(0.0) {
        return Some("filled");
      } else if current.info.status == "open" {
        return Some("open");
      } else if current.info.status == "canceled" {
        return Some("canceled");
      }
      return None;
    }

    /** `get_buy_size`. */
    method GetBuySize(coin: string, pair: string, amount: real, price: Option<real>, freeCurrencyBalance: Option<real>,
                      balances: Balances, ticker: Ticker, info: MarketInfo)
      returns (r: Result<real, Error>)
      modifies exchange
      ensures var run := BuySizeRun(coin, pair, amount, price, freeCurrencyBalance, balances, ticker, info);
        r == run.result && exchange.calls == old(exchange.calls) + run.calls
    {
      var balance: real;
      if freeCurrencyBalance.None? {
        balance := GetFreeBalance(coin, balances);
      } else {
        balance := freeCurrencyBalance.value;
      }
      var size := LegacyPercentOf(amount, balance);
      exchange.Issue(MarketLookup(pair));
      var digits := MarketDigits(info);
      var p: real;
      if price.None? {
        p := GetAsk(pair, ticker);
      } else {
        p := price.value;
      }
      if p == 0.0 {
        return Failure(ZeroDivision);
      }
      size := size / p;
      size := Truncate(size, IntPlaces(digits)).value;
      if size < info.minAmount {
        return Success(0.0);
      }
      return Success(size);
    }

    /** `get_sell_size`. */
    method GetSellSize(symbol: string, pair: string, amount: real, freeTokenBalance: Option<real>,
                       balances: Balances, info: MarketInfo)
      returns (size: real)
      modifies exchange
      ensures var run := SellSizeRun(symbol, pair, amount, freeTokenBalance, balances, info);
        Success(size) == run.result && exchange.calls == old(exchange.calls) + run.calls
    {
      var balance: real;
      if freeTokenBalance.None? {
        balance := GetFreeBalance(symbol, balances);
      } else {
        balance := freeTokenBalance.value;
      }
      size := LegacyPercentOf(amount, balance);
      exchange.Issue(MarketLookup(pair));
      var digits := MarketDigits(info);
      size := Truncate(size, IntPlaces(digits)).value;
      if size < info.minAmount {
        size := 0.0;
      }
    }
  }
}
