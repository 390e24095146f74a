/**
 * The second wrapper draft: `WrappedGenericExchange` and its FTX variant.
 * Each public method is specified by a function that gives its `Run` (result
 * and requests) from the client state, the arguments and the exchange's
 * answers; the lemmas state what those runs promise.
 */
module Ezxt2 {
  import opened Wrappers
  import opened Decimal
  import opened Symbols
  import opened Gateway
  import opened Wrapping
  import opened Routing
  import opened Sizing
  import opened Orders

  /** The `size_type` values `get_order_size` tells apart; any other name is `Unrecognised`. */
  datatype SizeType = Currency1Amount | Currency2Amount | Currency1Percent | Currency2Percent | Unrecognised

  /** The branch of the `size_type` chain (lines 445-455) a name selects. */
  function SizeTypeOf(name: string): SizeType {
    if name == "currency_2_amount" then Currency2Amount
    else if name == "currency_2_percent" then Currency2Percent
    else if name == "currency_1_percent" then Currency1Percent
    else if name == "currency_1_amount" then Currency1Amount
    else Unrecognised
  }

  // ---------------------------------------------------------------------
  // get_free_balance
  // ---------------------------------------------------------------------

  /** `get_free_balance`, decorated with `only_authenticated` and then `load_markets`. */
  function FreeBalanceRun(state: ClientState, token: string, params: ParamMap, balances: Balances): (run: Run<real>)
    ensures state == NotAuthenticated ==> run == Run(Failure(NotAuthenticatedError), [])
    ensures state == NotInstantiated ==> run == Run(Failure(NoClient), [])
    ensures state == Authenticated ==>
      run == Run(Success(FreeBalance(balances, token)), [LoadMarkets, FetchBalance(params)])
  {
    OnlyAuthenticated(state,
      WithLoadMarkets(state != NotInstantiated,
        Run(Success(FreeBalance(balances, token)), [FetchBalance(params)])))
  }

  // ---------------------------------------------------------------------
  // get_order_size
  // ---------------------------------------------------------------------

  /** The price used for sizing: the given one, else the bid for "buy" and the ask otherwise. */
  function ResolvedPrice(side: string, price: Option<real>, ticker: Ticker): real {
    price.GetOr(if side == "buy" then ticker.bid else ticker.ask)
  }

  /** The size types whose conversion divides by the price. */
  predicate DividesByPrice(sizeType: SizeType) {
    sizeType == Currency2Amount || sizeType == Currency2Percent
  }

  /** The size types whose conversion reads a free balance. */
  predicate ReadsBalance(sizeType: SizeType) {
    sizeType == Currency1Percent || sizeType == Currency2Percent
  }

  /**
   * The size in the base currency that `size` of kind `sizeType` stands for,
   * before truncation: an amount of quote currency is divided by the price, a
   * percentage of a free balance is taken of that balance (and, for the quote
   * currency, divided by the price); anything else is already in the base.
   */
  function RawOrderSize(sizeType: SizeType, size: real, price: real, baseFree: real, quoteFree: real): real
    requires DividesByPrice(sizeType) ==> price != 0.0
  {
    if sizeType == Currency2Amount then size / price
    else if sizeType == Currency2Percent then PercentOf(size, quoteFree) / price
    else if sizeType == Currency1Percent then PercentOf(size, baseFree)
    else size
  }

  /** `size / 100 * balance`: `size` percent of a balance, in the source's order of operations. */
  function PercentOf(size: real, balance: real): real {
    size / 100.0 * balance
  }

  /** Step 1 (lines 438-442): the price, fetched from the ticker only when none is given. */
  function PriceRun(hasClient: bool, market: string, side: string, price: Option<real>, ticker: Ticker): Run<real> {
    if price.Some? then Run(Success(price.value), [])
    else if !hasClient then Run(Failure(NoClient), [])
    else Run(Success(if side == "buy" then ticker.bid else ticker.ask), [FetchTicker(market, map[])])
  }

  /** Step 2 (lines 445-455): the size-type conversion, in the source's order of operations. */
  function ConvertRun(state: ClientState, pair: CurrencyPair, sizeType: SizeType, size: real, price: real,
                      params: ParamMap, balances: Balances): Run<real>
  {
    if sizeType == Currency2Amount then
      if price == 0.0 then Run(Failure(ZeroDivision), []) else Run(Success(size / price), [])
    else if sizeType == Currency2Percent then
      var b := FreeBalanceRun(state, pair.quote, params, balances);
      if b.result.Failure? then b
      else if price == 0.0 then Run(Failure(ZeroDivision), b.calls)
      else Run(Success(PercentOf(size, b.result.value) / price), b.calls)
    else if sizeType == Currency1Percent then
      var b := FreeBalanceRun(state, pair.base, params, balances);
      if b.result.Failure? then b else Run(Success(PercentOf(size, b.result.value)), b.calls)
    else Run(Success(size), [])
  }

  /** Steps 2 and 3 (lines 445-469): convert at a known price, then apply the market's limits. */
  function SizeAtPriceRun(state: ClientState, market: string, pair: CurrencyPair, kind: SizeType, size: real,
                          price: real, params: ParamMap, balances: Balances, info: MarketInfo): Run<real>
  {
    var cv := ConvertRun(state, pair, kind, size, price, params, balances);
    if cv.result.Failure? then cv
    else if state == NotInstantiated then Run(Failure(NoClient), cv.calls)
    else Run(Success(LimitSize(cv.result.value, info)), cv.calls + [MarketLookup(market)])
  }

  /** The body of `get_order_size`: split the symbol, price, convert, then limit. */
  function OrderSizeBody(state: ClientState, market: string, side: string, sizeType: string, size: real,
                         price: Option<real>, params: ParamMap, ticker: Ticker, balances: Balances,
                         info: MarketInfo): Run<real>
  {
    match SplitPair(market)
    case None => Run(Failure(BadMarketSymbol), [])
    case Some(pair) =>
      var pr := PriceRun(state != NotInstantiated, market, side, price, ticker);
      if pr.result.Failure? then pr
      else
        var rest := SizeAtPriceRun(state, market, pair, SizeTypeOf(sizeType), size, pr.result.value,
                                   params, balances, info);
        Run(rest.result, pr.calls + rest.calls)
  }

  /** `get_order_size` under its `only_authenticated` decorator. */
  function OrderSizeRun(state: ClientState, market: string, side: string, sizeType: string, size: real,
                        price: Option<real>, params: ParamMap, ticker: Ticker, balances: Balances,
                        info: MarketInfo): Run<real>
  {
    OnlyAuthenticated(state, OrderSizeBody(state, market, side, sizeType, size, price, params, ticker, balances, info))
  }

  /** The requests an authenticated sizing makes when it succeeds. */
  function OrderSizeCalls(market: string, sizeType: SizeType, price: Option<real>, params: ParamMap): seq<Call> {
    (if price.None? then [FetchTicker(market, map[])] else [])
    + (if ReadsBalance(sizeType) then [LoadMarkets, FetchBalance(params)] else [])
    + [MarketLookup(market)]
  }

  /**
   * With an authenticated client and a "BASE/QUOTE" symbol, sizing succeeds
   * unless it divides by a zero price; it then returns the limited raw size and
   * makes the ticker, balance and market requests it needs, in that order.
   */
  lemma OrderSizeAuthenticated(market: string, side: string, sizeType: string, size: real, price: Option<real>,
                               params: ParamMap, ticker: Ticker, balances: Balances, info: MarketInfo,
                               pair: CurrencyPair)
    requires SplitPair(market) == Some(pair)
    requires DividesByPrice(SizeTypeOf(sizeType)) ==> ResolvedPrice(side, price, ticker) != 0.0
    ensures var run := OrderSizeRun(Authenticated, market, side, sizeType, size, price, params, ticker, balances, info);
      && run.result == Success(LimitSize(RawOrderSize(SizeTypeOf(sizeType), size, ResolvedPrice(side, price, ticker),
                                                      FreeBalance(balances, pair.base),
                                                      FreeBalance(balances, pair.quote)), info))
      && run.calls == OrderSizeCalls(market, SizeTypeOf(sizeType), price, params)
  {
    var p := ResolvedPrice(side, price, ticker);
    var kind := SizeTypeOf(sizeType);
    ConvertMatchesRaw(pair, kind, size, p, params, balances);
  }

  /** The conversion step computes the reference raw size, reading the balance it needs. */
  lemma ConvertMatchesRaw(pair: CurrencyPair, sizeType: SizeType, size: real, price: real,
                          params: ParamMap, balances: Balances)
    requires DividesByPrice(sizeType) ==> price != 0.0
    ensures var cv := ConvertRun(Authenticated, pair, sizeType, size, price, params, balances);
      && cv.result == Success(RawOrderSize(sizeType, size, price, FreeBalance(balances, pair.base),
                                           FreeBalance(balances, pair.quote)))
      && cv.calls == (if ReadsBalance(sizeType) then [LoadMarkets, FetchBalance(params)] else [])
  {
  }

  /**
   * With an authenticated client the only errors are a malformed symbol and a
   * division by a zero price, each exactly when its cause is present.
   */
  lemma OrderSizeErrors(market: string, side: string, sizeType: string, size: real, price: Option<real>,
                        params: ParamMap, ticker: Ticker, balances: Balances, info: MarketInfo)
    ensures var r := OrderSizeRun(Authenticated, market, side, sizeType, size, price, params, ticker, balances, info).result;
      && (r == Failure(BadMarketSymbol) <==> SplitPair(market).None?)
      && (r == Failure(ZeroDivision) <==>
            SplitPair(market).Some? && DividesByPrice(SizeTypeOf(sizeType)) && ResolvedPrice(side, price, ticker) == 0.0)
      && (r.Failure? ==> r == Failure(BadMarketSymbol) || r == Failure(ZeroDivision))
  {
    match SplitPair(market)
    case None =>
    case Some(pair) =>
      if !(DividesByPrice(SizeTypeOf(sizeType)) && ResolvedPrice(side, price, ticker) == 0.0) {
        OrderSizeAuthenticated(market, side, sizeType, size, price, params, ticker, balances, info, pair);
      }
  }

  /** Any successful size is the sentinel 0 or meets the market minimum, on the market's grid. */
  lemma OrderSizeBound(state: ClientState, market: string, side: string, sizeType: string, size: real,
                       price: Option<real>, params: ParamMap, ticker: Ticker, balances: Balances, info: MarketInfo)
    ensures var r := OrderSizeRun(state, market, side, sizeType, size, price, params, ticker, balances, info).result;
      r.Success? ==> (r.value == 0.0 || r.value >= info.minAmount) && OnGrid(r.value, MarketDigits(info))
  {
  }

  /**
   * An unauthenticated client is refused before any request, `load_markets`
   * included; an uninstantiated one never sizes and makes no request.
   */
  lemma OrderSizeRefused(state: ClientState, market: string, side: string, sizeType: string, size: real,
                         price: Option<real>, params: ParamMap, ticker: Ticker, balances: Balances, info: MarketInfo)
    requires state != Authenticated
    ensures var run := OrderSizeRun(state, market, side, sizeType, size, price, params, ticker, balances, info);
      && run.calls == []
      && run.result.Failure?
      && (state == NotAuthenticated ==> run.result == Failure(NotAuthenticatedError))
  {
  }

  // ---------------------------------------------------------------------
  // post_market_order, post_limit_order, post_stop_loss_order, post_take_profit_order
  // ---------------------------------------------------------------------

  /** The key an order kind adds to the caller's params. */
  function KeyOf(kind: OrderKind): set<string> {
    match kind
    case StopLossOrder(_) => {"stopPrice"}
    case TakeProfitOrder(_) => {"triggerPrice"}
    case _ => {}
  }

  /**
   * The params sent with the order: a stop order gains `stopPrice`, a
   * take-profit order gains `triggerPrice`, and every other key is kept.
   */
  function SubmittedParams(kind: OrderKind, params: ParamMap): (m: ParamMap)
    ensures kind.StopLossOrder? ==> "stopPrice" in m && m["stopPrice"] == Num(kind.stop)
    ensures kind.TakeProfitOrder? ==> "triggerPrice" in m && m["triggerPrice"] == Num(kind.trigger)
    ensures kind.MarketOrder? || kind.LimitOrder? ==> m == params
    ensures forall k :: k in params && k !in KeyOf(kind) ==> k in m && m[k] == params[k]
    ensures m.Keys == params.Keys + KeyOf(kind)
  {
    match kind
    case StopLossOrder(p) => params["stopPrice" := Num(p)]
    case TakeProfitOrder(p) => params["triggerPrice" := Num(p)]
    case _ => params
  }

  /** The `create_order` request: the limit and stop kinds pass a price, the others do not. */
  function OrderRequest(kind: OrderKind, market: string, side: string, size: real, params: ParamMap): (c: Call)
    ensures c.CreateOrder? && c.market == market && c.side == side && c.amount == size
    ensures c.orderType == OrderTypeName(kind) && c.params == SubmittedParams(kind, params)
    ensures c.price.Some? <==> kind.LimitOrder? || kind.StopLossOrder?
    ensures kind.LimitOrder? ==> c.price == Some(kind.limit)
    ensures kind.StopLossOrder? ==> c.price == Some(kind.stop)
  {
    var price := match kind
      case LimitOrder(p) => Some(p)
      case StopLossOrder(p) => Some(p)
      case _ => None;
    CreateOrder(market, OrderTypeName(kind), side, size, price, SubmittedParams(kind, params))
  }

  /** A `post_*` method: guarded, refuses a size that is not positive, else one `create_order`. */
  function PlaceRun(state: ClientState, kind: OrderKind, market: string, side: string, size: real,
                    params: ParamMap, reply: Order): Run<Placement>
  {
    OnlyAuthenticated(state,
      if size <= 0.0 then Run(Success(NotSubmitted), [])
      else if state == NotInstantiated then Run(Failure(NoClient), [])
      else Run(Success(Submitted(reply)), [OrderRequest(kind, market, side, size, params)]))
  }

  /** The caller's params after a `post_*` call: merged once the size check has passed. */
  function ParamsAfterPlace(state: ClientState, kind: OrderKind, size: real, params: ParamMap): ParamMap {
    if state != NotAuthenticated && size > 0.0 then SubmittedParams(kind, params) else params
  }

  /** A size that is not positive returns `{}`, sends nothing and leaves the params alone. */
  lemma PlacementGuard(state: ClientState, kind: OrderKind, market: string, side: string, size: real,
                       params: ParamMap, reply: Order)
    requires state != NotAuthenticated && size <= 0.0
    ensures PlaceRun(state, kind, market, side, size, params, reply) == Run(Success(NotSubmitted), [])
    ensures ParamsAfterPlace(state, kind, size, params) == params
  {
  }

  /**
   * With an authenticated client an order is sent iff the size is positive,
   * and then exactly once, with the caller's market, side and size.
   */
  lemma PlacementSubmitsOnce(kind: OrderKind, market: string, side: string, size: real,
                             params: ParamMap, reply: Order)
    ensures var run := PlaceRun(Authenticated, kind, market, side, size, params, reply);
      && ((exists i :: 0 <= i < |run.calls| && run.calls[i].CreateOrder?) <==> size > 0.0)
      && (size > 0.0 ==> run == Run(Success(Submitted(reply)), [OrderRequest(kind, market, side, size, params)]))
  {
    var run := PlaceRun(Authenticated, kind, market, side, size, params, reply);
    if size > 0.0 {
      assert run.calls[0].CreateOrder?;
    }
  }

  // ---------------------------------------------------------------------
  // WrappedFtxClient: get_order, cancel_order_by_id, cancel_order_by_object
  // ---------------------------------------------------------------------

  /** The params after the FTX `params.update({'method': endpoint})`. */
  function WithMethod(params: ParamMap, endpoint: string): (m: ParamMap)
    ensures MethodKey in m && m[MethodKey] == Text(endpoint)
    ensures forall k :: k in params && k != MethodKey ==> k in m && m[k] == params[k]
    ensures m.Keys == params.Keys + {MethodKey}
  {
    params[MethodKey := Text(endpoint)]
  }

  /** FTX `get_order`: tags the fetch endpoint, then one `fetch_order`. */
  function GetOrderRun(state: ClientState, orderId: string, market: string, params: ParamMap, fetched: Order): Run<Order> {
    OnlyAuthenticated(state,
      if state == NotInstantiated then Run(Failure(NoClient), [])
      else Run(Success(fetched), [FetchOrder(orderId, Some(market), WithMethod(params, FetchOrderMethod))]))
  }

  /** FTX `cancel_order_by_id`: fetch the order with fresh params, route on its type, cancel. */
  function CancelByIdRun(state: ClientState, orderId: string, market: string, params: ParamMap,
                         fetched: Order, reply: Order): Run<Order>
  {
    OnlyAuthenticated(state,
      var g := GetOrderRun(state, orderId, market, map[], fetched);
      if g.result.Failure? then g
      else Run(Success(reply), g.calls + [CancelOrder(orderId, Some(market),
                                             WithMethod(params, CancelMethodFor(g.result.value.info.orderType)))]))
  }

  /** FTX `cancel_order_by_object`: route on the order's own type, cancel `info.id`. */
  function CancelByObjectRun(state: ClientState, order: Order, market: string, params: ParamMap, reply: Order): Run<Order> {
    OnlyAuthenticated(state,
      if state == NotInstantiated then Run(Failure(NoClient), [])
      else Run(Success(reply), [CancelOrder(order.info.id, Some(market),
                                           WithMethod(params, CancelMethodFor(order.info.orderType)))]))
  }

  /** The caller's params after `get_order`: tagged once the guard has passed. */
  function ParamsAfterGetOrder(state: ClientState, params: ParamMap): ParamMap {
    if state != NotAuthenticated then WithMethod(params, FetchOrderMethod) else params
  }

  /**
   * The caller's params after `cancel_order_by_id`: tagged with the cancel
   * endpoint only once the inner fetch has succeeded; the fetch itself uses a
   * dictionary of its own.
   */
  function ParamsAfterCancelById(state: ClientState, params: ParamMap, fetched: Order): ParamMap {
    if state == Authenticated then WithMethod(params, CancelMethodFor(fetched.info.orderType)) else params
  }

  /** The caller's params after `cancel_order_by_object`: tagged once the guard has passed. */
  function ParamsAfterCancelByObject(state: ClientState, params: ParamMap, order: Order): ParamMap {
    if state != NotAuthenticated then WithMethod(params, CancelMethodFor(order.info.orderType)) else params
  }

  /**
   * An authenticated cancel by id fetches the order through the plain fetch
   * endpoint, then cancels the same id on the conditional endpoint exactly
   * when the fetched order is a stop or take-profit order.
   */
  lemma CancelByIdRouting(orderId: string, market: string, params: ParamMap, fetched: Order, reply: Order)
    ensures var run := CancelByIdRun(Authenticated, orderId, market, params, fetched, reply);
      && run.result == Success(reply)
      && |run.calls| == 2
      && run.calls[0] == FetchOrder(orderId, Some(market), map[MethodKey := Text(FetchOrderMethod)])
      && run.calls[1].CancelOrder? && run.calls[1].orderId == orderId
      && (run.calls[1].params[MethodKey] == Text(CancelConditionalMethod) <==> IsConditional(fetched.info.orderType))
      && (run.calls[1].params[MethodKey] == Text(CancelPlainMethod) <==> !IsConditional(fetched.info.orderType))
  {
    var run := CancelByIdRun(Authenticated, orderId, market, params, fetched, reply);
    var endpoint := CancelMethodFor(fetched.info.orderType);
    assert run.calls[1].params[MethodKey] == Text(endpoint);
  }

  /**
   * Cancelling by id, when the exchange returns `order` for that id, sends the
   * same cancel request as cancelling by the order object.
   */
  lemma CancelByIdMatchesByObject(order: Order, market: string, params: ParamMap, reply: Order)
    ensures var byId := CancelByIdRun(Authenticated, order.info.id, market, params, order, reply);
            var byObject := CancelByObjectRun(Authenticated, order, market, params, reply);
      && byId.result == byObject.result
      && byId.calls[1..] == byObject.calls
  {
  }

  // ---------------------------------------------------------------------
  // The wrapped exchanges
  // ---------------------------------------------------------------------

  /** `WrappedGenericExchange`: a ccxt exchange class and the client made from it. */
  class WrappedGenericExchange {
    const exchange: string
    var client: Exchange?
    var clientState: ClientState

    /** The client exists exactly when the state says it was instantiated. */
    ghost predicate Valid()
      reads this
    {
      (client == null) <==> (clientState == NotInstantiated)
    }

    constructor(exchange: string)
      ensures Valid()
      ensures this.exchange == exchange && client == null && clientState == NotInstantiated
    {
      this.exchange := exchange;
      client := null;
      clientState := NotInstantiated;
    }

    /** `instantiate_client`: a fresh client, with the account iff both keys are given. */
    method InstantiateClient(apiKey: Option<string>, apiSecret: Option<string>)
      modifies this
      ensures Valid()
      ensures clientState == StateAfterInstantiation(apiKey, apiSecret)
      ensures fresh(client) && client.name == exchange && client.calls == []
      ensures client.credentials == CredentialsOf(apiKey, apiSecret)
    {
      if apiKey.Some? && apiSecret.Some? {
        client := new Exchange(exchange, Some(Credentials(apiKey.value, apiSecret.value)));
        clientState := Authenticated;
      } else {
        client := new Exchange(exchange, None);
        clientState := NotAuthenticated;
      }
    }

    /** `get_free_balance`. */
    method GetFreeBalance(token: string, params: Params?, balances: Balances) returns (r: Result<real, Error>)
      requires Valid()
      modifies client
      ensures var run := FreeBalanceRun(clientState, token, EntriesOf(params), balances);
        r == run.result && (client != null ==> client.calls == old(client.calls) + run.calls)
    {
      if clientState == NotAuthenticated {
        return Failure(NotAuthenticatedError);
      }
      if client == null {
        return Failure(NoClient);
      }
      client.Issue(LoadMarkets);
      var entries := EntriesOf(params);
      client.Issue(FetchBalance(entries));
      return Success(FreeBalance(balances, token));
    }

    /** `get_order_size`, lines 438-442: the given price, else one ticker request. */
    method ResolvePrice(market: string, side: string, price: Option<real>, ticker: Ticker)
      returns (r: Result<real, Error>)
      requires Valid()
      modifies client
      ensures var run := PriceRun(clientState != NotInstantiated, market, side, price, ticker);
        r == run.result && (client != null ==> client.calls == old(client.calls) + run.calls)
    {
      if price.Some? {
        return Success(price.value);
      }
      if client == null {
        return Failure(NoClient);
      }
      client.Issue(FetchTicker(market, map[]));
      if side == "buy" {
        return Success(ticker.bid);
      }
      return Success(ticker.ask);
    }

    /** `get_order_size`, lines 445-455: the size-type conversion. */
    method ConvertSize(pair: CurrencyPair, kind: SizeType, size: real, price: real, params: Params?,
                       balances: Balances)
      returns (r: Result<real, Error>)
      requires Valid()
      modifies client
      ensures var run := ConvertRun(clientState, pair, kind, size, price, EntriesOf(params), balances);
        r == run.result && (client != null ==> client.calls == old(client.calls) + run.calls)
    {
      var amount := size;
      if kind == Currency2Amount {
        if price == 0.0 {
          return Failure(ZeroDivision);
        }
        amount := amount / price;
      } else if kind == Currency2Percent {
        var balance := GetFreeBalance(pair.quote, params, balances);
        if balance.Failure? {
          return Failure(balance.error);
        }
        amount := PercentOf(amount, balance.value);
        if price == 0.0 {
          return Failure(ZeroDivision);
        }
        amount := amount / price;
      } else if kind == Currency1Percent {
        var balance := GetFreeBalance(pair.base, params, balances);
        if balance.Failure? {
          return Failure(balance.error);
        }
        amount := PercentOf(amount, balance.value);
      }
      return Success(amount);
    }

    /** `get_order_size`: the size to pass when posting an order. */
    method GetOrderSize(market: string, side: string, sizeType: string, size: real, price: Option<real>,
                        params: Params?, ticker: Ticker, balances: Balances, info: MarketInfo)
      returns (r: Result<real, Error>)
      requires Valid()
      modifies client
      ensures var run := OrderSizeRun(clientState, market, side, sizeType, size, price, EntriesOf(params),
                                      ticker, balances, info);
        r == run.result && (client != null ==> client.calls == old(client.calls) + run.calls)
    {
      if clientState == NotAuthenticated {
        return Failure(NotAuthenticatedError);
      }
      var pair := SplitPair(market);
      if pair.None? {
        return Failure(BadMarketSymbol);
      }
      var p := ResolvePrice(market, side, price, ticker);
      if p.Failure? {
        return p;
      }
      r := SizeAtPrice(market, pair.value, SizeTypeOf(sizeType), size, p.value, params, balances, info);
    }

    /** `get_order_size`, lines 445-469: the size at a known price. */
    method SizeAtPrice(market: string, pair: CurrencyPair, kind: SizeType, size: real, price: real,
                       params: Params?, balances: Balances, info: MarketInfo)
      returns (r: Result<real, Error>)
      requires Valid()
      modifies client
      ensures var run := SizeAtPriceRun(clientState, market, pair, kind, size, price, EntriesOf(params), balances, info);
        r == run.result && (client != null ==> client.calls == old(client.calls) + run.calls)
    {
      var amount := ConvertSize(pair, kind, size, price, params, balances);
      if amount.Failure? {
        return amount;
      }
      r := LimitToMarket(market, amount.value, info);
    }

    /** `get_order_size`, lines 460-469: the market's precision and minimum applied. */
    method LimitToMarket(market: string, amount: real, info: MarketInfo) returns (r: Result<real, Error>)
      modifies client
      ensures client == null ==> r == Failure(NoClient)
      ensures client != null ==> r == Success(LimitSize(amount, info))
      ensures client != null ==> client.calls == old(client.calls) + [MarketLookup(market)]
    {
      if client == null {
        return Failure(NoClient);
      }
      client.Issue(MarketLookup(market));
      var digits := MarketDigits(info);
      var truncated := Truncate(amount, IntPlaces(digits));
      if truncated.value < info.minAmount {
        return Success(0.0);
      }
      return Success(truncated.value);
    }

    /** `post_market_order`. */
    method PostMarketOrder(market: string, side: string, size: real, params: Params?, reply: Order)
      returns (r: Result<Placement, Error>)
      requires Valid()
      modifies client
      ensures var run := PlaceRun(clientState, MarketOrder, market, side, size, EntriesOf(params), reply);
        r == run.result && (client != null ==> client.calls == old(client.calls) + run.calls)
    {
      if clientState == NotAuthenticated {
        return Failure(NotAuthenticatedError);
      }
      if size <= 0.0 {
        return Success(NotSubmitted);
      }
      if client == null {
        return Failure(NoClient);
      }
      client.Issue(CreateOrder(market, "market", side, size, None, EntriesOf(params)));
      return Success(Submitted(reply));
    }

    /** `post_limit_order`. */
    method PostLimitOrder(market: string, side: string, size: real, price: real, params: Params?, reply: Order)
      returns (r: Result<Placement, Error>)
      requires Valid()
      modifies client
      ensures var run := PlaceRun(clientState, LimitOrder(price), market, side, size, EntriesOf(params), reply);
        r == run.result && (client != null ==> client.calls == old(client.calls) + run.calls)
    {
      if clientState == NotAuthenticated {
        return Failure(NotAuthenticatedError);
      }
      if size <= 0.0 {
        return Success(NotSubmitted);
      }
      if client == null {
        return Failure(NoClient);
      }
      client.Issue(CreateOrder(market, "limit", side, size, Some(price), EntriesOf(params)));
      return Success(Submitted(reply));
    }

    /** `post_stop_loss_order`: `stopPrice` is merged into the caller's params in place. */
    method PostStopLossOrder(market: string, side: string, size: real, price: real, params: Params?, reply: Order)
      returns (r: Result<Placement, Error>)
      requires Valid()
      modifies client, params
      ensures var run := PlaceRun(clientState, StopLossOrder(price), market, side, size, old(EntriesOf(params)), reply);
        r == run.result && (client != null ==> client.calls == old(client.calls) + run.calls)
      ensures params != null ==>
        params.entries == ParamsAfterPlace(clientState, StopLossOrder(price), size, old(params.entries))
    {
      if clientState == NotAuthenticated {
        return Failure(NotAuthenticatedError);
      }
      var dict: Params;
      if params == null {
        dict := new Params(map[]);
      } else {
        dict := params;
      }
      if size <= 0.0 {
        return Success(NotSubmitted);
      }
      dict.Update("stopPrice", Num(price));
      if client == null {
        return Failure(NoClient);
      }
      client.Issue(CreateOrder(market, "stop", side, size, Some(price), dict.entries));
      return Success(Submitted(reply));
    }

    /** `post_take_profit_order`: `triggerPrice` is merged in place; no price is passed. */
    method PostTakeProfitOrder(market: string, side: string, size: real, price: real, params: Params?, reply: Order)
      returns (r: Result<Placement, Error>)
      requires Valid()
      modifies client, params
      ensures var run := PlaceRun(clientState, TakeProfitOrder(price), market, side, size, old(EntriesOf(params)), reply);
        r == run.result && (client != null ==> client.calls == old(client.calls) + run.calls)
      ensures params != null ==>
        params.entries == ParamsAfterPlace(clientState, TakeProfitOrder(price), size, old(params.entries))
    {
      if clientState == NotAuthenticated {
        return Failure(NotAuthenticatedError);
      }
      var dict: Params;
      if params == null {
        dict := new Params(map[]);
      } else {
        dict := params;
      }
      if size <= 0.0 {
        return Success(NotSubmitted);
      }
      dict.Update("triggerPrice", Num(price));
      if client == null {
        return Failure(NoClient);
      }
      client.Issue(CreateOrder(market, "takeProfit", side, size, None, dict.entries));
      return Success(Submitted(reply));
    }
  }

  /**
   * `WrappedFtxClient`: the generic wrapper over `ccxt.ftx`, instantiated on
   * construction, with FTX's own order fetch and cancel endpoints.
   */
  class WrappedFtxClient {
    const generic: WrappedGenericExchange

    ghost predicate Valid()
      reads this, generic
    {
      generic.Valid() && generic.exchange == "ftx"
    }

    constructor(apiKey: Option<string>, apiSecret: Option<string>)
      ensures Valid() && fresh(generic)
      ensures generic.clientState == StateAfterInstantiation(apiKey, apiSecret)
      ensures fresh(generic.client) && generic.client.calls == []
      ensures generic.client.credentials == CredentialsOf(apiKey, apiSecret)
    {
      var g := new WrappedGenericExchange("ftx");
      g.InstantiateClient(apiKey, apiSecret);
      generic := g;
    }

    /** `get_order`: the caller's params gain `method = privateGetOrdersOrderId`. */
    method GetOrder(orderId: string, market: string, params: Params?, fetched: Order)
      returns (r: Result<Order, Error>)
      requires Valid()
      modifies generic.client, params
      ensures var run := GetOrderRun(generic.clientState, orderId, market, old(EntriesOf(params)), fetched);
        r == run.result
        && (generic.client != null ==> generic.client.calls == old(generic.client.calls) + run.calls)
      ensures params != null ==>
        params.entries == ParamsAfterGetOrder(generic.clientState, old(params.entries))
    {
      if generic.clientState == NotAuthenticated {
        return Failure(NotAuthenticatedError);
      }
      var dict: Params;
      if params == null {
        dict := new Params(map[]);
      } else {
        dict := params;
      }
      dict.Update(MethodKey, Text(FetchOrderMethod));
      if generic.client == null {
        return Failure(NoClient);
      }
      generic.client.Issue(FetchOrder(orderId, Some(market), dict.entries));
      return Success(fetched);
    }

    /** `cancel_order_by_id`: `fetched` is the exchange's answer to the inner `get_order`. */
    method CancelOrderById(orderId: string, market: string, params: Params?, fetched: Order, reply: Order)
      returns (r: Result<Order, Error>)
      requires Valid()
      modifies generic.client, params
      ensures var run := CancelByIdRun(generic.clientState, orderId, market, old(EntriesOf(params)), fetched, reply);
        r == run.result
        && (generic.client != null ==> generic.client.calls == old(generic.client.calls) + run.calls)
      ensures params != null ==>
        params.entries == ParamsAfterCancelById(generic.clientState, old(params.entries), fetched)
    {
      if generic.clientState == NotAuthenticated {
        return Failure(NotAuthenticatedError);
      }
      var dict: Params;
      if params == null {
        dict := new Params(map[]);
      } else {
        dict := params;
      }
      var order := GetOrder(orderId, market, null, fetched);
      if order.Failure? {
        return order;
      }
      var orderType := order.value.info.orderType;
      if orderType == "stop" || orderType == "take_profit" {
        dict.Update(MethodKey, Text(CancelConditionalMethod));
      } else {
        dict.Update(MethodKey, Text(CancelPlainMethod));
      }
      generic.client.Issue(CancelOrder(orderId, Some(market), dict.entries));
      return Success(reply);
    }

    /** `cancel_order_by_object`: routes on the order's own `info.type`. */
    method CancelOrderByObject(order: Order, market: string, params: Params?, reply: Order)
      returns (r: Result<Order, Error>)
      requires Valid()
      modifies generic.client, params
      ensures var run := CancelByObjectRun(generic.clientState, order, market, old(EntriesOf(params)), reply);
        r == run.result
        && (generic.client != null ==> generic.client.calls == old(generic.client.calls) + run.calls)
      ensures params != null ==>
        params.entries == ParamsAfterCancelByObject(generic.clientState, old(params.entries), order)
    {
      if generic.clientState == NotAuthenticated {
        return Failure(NotAuthenticatedError);
      }
      var dict: Params;
      if params == null {
        dict := new Params(map[]);
      } else {
        dict := params;
      }
      var orderType := order.info.orderType;
      if orderType == "stop" || orderType == "take_profit" {
        dict.Update(MethodKey, Text(CancelConditionalMethod));
      } else {
        dict.Update(MethodKey, Text(CancelPlainMethod));
      }
      if generic.client == null {
        return Failure(NoClient);
      }
      generic.client.Issue(CancelOrder(order.info.id, Some(market), dict.entries));
      return Success(reply);
    }
  }
}
