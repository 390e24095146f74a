# EZXT sizing, rounding, client-state and routing model

EZXT is a thin Python wrapper around ccxt exchange clients. It exists in three
overlapping drafts:

- `ezxt.py`: a `Client` class;
- `ezxt2.py`: `WrappedGenericExchange` and its FTX subclass;
- `ezxt_rework.py`: `Wrapped_exchange`.

This project models the part of the wrapper that decides things, and proves what
those decisions promise. The decisions modelled are:

- truncating a size toward zero to a number of decimals;
- deriving that number of decimals from a market's precision;
- converting an order size between currencies and percentages of a free balance;
- applying a market's minimum;
- the client-state gate (`only_authenticated`) and the `load_markets` decorator;
- the guards of the order-placement methods and the merging of `stopPrice` or `triggerPrice` into their params;
- FTX's choice between the plain and the conditional order endpoints;
- order-status normalisation;
- the whole-number price queries.

The exchange client is an abstract gateway. A request the wrapper makes of it
is appended to the client's `calls` trace (`Gateway.Exchange.Issue`). What the
exchange answers is passed in as an argument to the method making the request:
a `Ticker`, the `Balances`, the `MarketInfo`, a fetched `Order` or a reply.

A Python exception becomes a `Failure` of `Wrapping.Error`:

- `NotAuthenticatedError` is the refusal `only_authenticated` intends to raise, `NotAuthenticatedException` (what the code raises at that point is under "## Left out").
- `NoClient` is the attribute lookup on a client that is still `None`.
- `ZeroDivision` is a size divided by a price of 0.
- `BadMarketSymbol` is `market.split("/")` not yielding two names.

A decorated call is described by a `Wrapping.Run`: its result and the requests
it made, in order. Each public method is a Dafny method proved against such a
function. It carries two promises:

- it returns the function's result;
- it appends exactly the function's requests to the client's trace.

Some methods also change the caller's `params` dictionary, which
`Gateway.Params` models as an object. For those, the method's contract also
states the dictionary's new contents.

Modules, in dependency order:

| module | contents |
|---|---|
| `Wrappers` | `Option`, `Result` |
| `Decimal` | `truncate`, the digits formula, the truncated decimal exponent |
| `Symbols` | `str.split("/")` and the two-name unpacking of a market symbol |
| `Gateway` | params dictionaries, exchange answers, the request trace |
| `Wrapping` | client state, errors, the two decorators |
| `Routing` | FTX endpoint names |
| `Sizing` | truncate-then-minimum, shared by both sizing drafts |
| `Orders` | order kinds and placement results |
| `Ezxt2` | `ezxt2.py` |
| `Ezxt` | `ezxt.py`, with lemmas comparing it with `ezxt2.py` |
| `EzxtRework` | `ezxt_rework.py` |

Behaviours of the code worth noting:

- **Digit count.** The digits formula uses `int(math.log10(p))`, which rounds
  toward zero rather than down. The two agree when the precision is a power of
  ten: `Decimal.DecimalStepDigits` proves that a step of `10^-k` gives `k`
  digits, so `0.0001` gives 4. They differ for a precision below 1 that is not
  a power of ten. For `0.0005`, `int(-3.30...)` is −3, which gives 3 digits;
  rounding down would give −4 and 4 digits.
- **Which price sizes the order.** `ezxt2.py`'s `get_order_size` prices a
  `"buy"` at the bid and anything else at the ask. `ezxt.py`'s `get_buy_size`
  uses the ask.
- **Unrecognised order status.** `get_order_status` returns `None` for a
  status it does not recognise, rather than raising an error.

## Model

| member | source | states |
|---|---|---|
| Decimal.Truncate | ezxt2.py:48-63 | a non-integer place count gives a type error, and a negative one a value error, before any computation; 0 places gives `trunc(x)`; otherwise the result is the value truncated toward zero to that many places; `Client.truncate` at ezxt.py:193-205 is the same function |
| Decimal.TruncToZero | ezxt2.py:59-63 | `math.trunc`: an integer of the same sign, at most the value's magnitude, less than 1 away from the value |
| Decimal.TruncToZeroOfInteger | ezxt2.py:60 | `math.trunc` of a whole number is that number |
| Decimal.TruncateTo | ezxt2.py:62-63 | `trunc(x*10^d)/10^d` lies on the `d`-decimal grid; it has the sign of `x` (or is 0); it does not exceed `x` in magnitude; it is less than `10^-d` away from `x` |
| Decimal.TruncateToIsFormula | ezxt2.py:62-63 | the grid truncation equals the literal `math.trunc(number * factor) / factor` with `factor = 10.0 ** d` |
| Decimal.TruncateToIdempotent | ezxt2.py:62-63 | truncating an already truncated value changes nothing |
| Decimal.TruncateToIsTightest | ezxt2.py:62-63 | no grid value between 0 and `x` is further from 0 than the truncation |
| Decimal.TruncateExamples | ezxt2.py:59-63 | 1.2345 to 2 places is 1.23; −1.2345 is −1.23; −1.5 to 0 places is −1 (toward zero, not the floor) |
| Decimal.Pow10Grows | ezxt2.py:62 | `10.0 ** d` grows by at least a factor of 10 per step |
| Decimal.TruncLog10Unique | ezxt2.py:462 | a positive precision has one truncated decimal exponent `int(log10(p))` |
| Decimal.TruncLog10Excludes | ezxt2.py:462 | two different exponents cannot both be the truncated logarithm of one precision |
| Decimal.PrecisionDigits | ezxt2.py:462 | digits are at least 1, and `(digits − 1)² = (t + 1)²`; that is, `sqrt((t+1)**2) + 1` |
| Decimal.DecimalStepDigits | ezxt2.py:462 | a precision of `10^-k` (k ≥ 1) gives exactly `k` digits |
| Decimal.DigitsDeterminedByPrecision | ezxt.py:125 | the digit count depends only on the precision; `ezxt.py` repeats this formula at line 125 and line 155 |
| Symbols.Split | ezxt2.py:435 | `str.split` always yields at least one piece |
| Symbols.JoinSplit | ezxt2.py:435 | joining the pieces with the separator gives the symbol back |
| Symbols.SplitPiecesAvoidSeparator | ezxt2.py:435 | no piece contains the separator |
| Symbols.SplitWithoutSeparator | ezxt2.py:435 | a string without the separator splits into itself |
| Symbols.SplitAfterPrefix | ezxt2.py:435 | splitting `a + "/" + b` when `a` has no slash gives `a` followed by the pieces of `b` |
| Symbols.SplitPair | ezxt2.py:435 | a pair is found only when the symbol is `base + "/" + quote`, with neither name containing a slash |
| Symbols.SplitPairOfSymbol | ezxt2.py:435 | every slash-free `base` and `quote` are recovered from `"base/quote"` |
| Symbols.SplitPairNeedsSlash | ezxt2.py:435 | a symbol with no slash fails the unpacking |
| Symbols.SplitPairRejectsTwoSlashes | ezxt2.py:435 | a symbol with two slashes fails the unpacking |
| Gateway.Params.Update | ezxt2.py:531 | `params.update({k: v})` sets one key and keeps the others, in the caller's dictionary |
| Gateway.EntriesOf | ezxt2.py:288-289 | `params is None` is read as `{}` |
| Gateway.FreeBalance | ezxt2.py:290-293 | the free amount is 0 when the currency or its "free" field is missing, otherwise that field; `Client.get_free_balance` at ezxt.py:87-92 has the same defaults |
| Wrapping.CredentialsOf | ezxt2.py:195-205 | the client gets an account iff both the key and the secret are given |
| Wrapping.StateAfterInstantiation | ezxt2.py:195-206 | AUTHENTICATED iff both keys are given, else NOT_AUTHENTICATED; never NOT_INSTANTIATED |
| Wrapping.OnlyAuthenticated | ezxt2.py:84-99 | raises, with no request, exactly when the state is NOT_AUTHENTICATED; otherwise passes the wrapped run through unchanged; the decorator at ezxt_rework.py:63-78 is the same |
| Wrapping.WithLoadMarkets | ezxt2.py:67-80 | one `load_markets()` before the wrapped call, whose result is returned unchanged; with no client the lookup fails first; the decorator at ezxt_rework.py:46-59 is the same |
| Wrapping.GuardBeforeLoadMarkets | ezxt2.py:278-280 | with `only_authenticated` outermost, a refused call makes no `load_markets` request; the opposite stacking would make one |
| Routing.CancelMethodFor | ezxt2.py:657-661 | the conditional endpoint iff the type is "stop" or "take_profit", the plain endpoint otherwise, never the fetch endpoint |
| Sizing.MarketDigits | ezxt2.py:460-462 | the market's digit count is at least 1 |
| Sizing.LimitSize | ezxt2.py:464-469 | the result is 0 or at least the minimum; it lies on the market's grid; the result is the truncated size exactly when that meets the minimum, and 0 otherwise; it keeps the raw size's sign and does not exceed it in magnitude |
| Sizing.LimitSizeIdempotent | ezxt2.py:464-469 | limiting an already limited size changes nothing |
| Sizing.LimitSizeIsLargest | ezxt2.py:464-469 | of the grid sizes between the minimum and the raw size, the result is the largest |
| Sizing.LimitSizeForStepPrecision | ezxt2.py:460-464 | for a precision of `10^-k` the result has at most `k` decimals |
| Ezxt2.FreeBalanceRun | ezxt2.py:278-293 | refused with no request when unauthenticated; no client when uninstantiated; otherwise `[load_markets, fetch_balance(params)]` and the free amount |
| Ezxt2.OrderSizeAuthenticated | ezxt2.py:433-469 | for an authenticated client, a two-name symbol and a nonzero price where one is divided by, the result is the limited reference size, with the requests listed below; the reference size is: the quote amount over the price; a percent of the free quote balance over the price; a percent of the free base balance; or the size unchanged. The requests are the ticker (only if no price was given), then the balance (only for percentages), then the market |
| Ezxt2.ConvertMatchesRaw | ezxt2.py:445-455 | the size-type conversion equals the reference size, and it requests the balance only for the percentage types |
| Ezxt2.OrderSizeErrors | ezxt2.py:435-450 | for an authenticated client: a malformed symbol fails iff it does not split in two; a zero division happens iff a quote-currency type meets a zero resolved price. There are no other errors |
| Ezxt2.OrderSizeBound | ezxt2.py:460-469 | any size returned is 0 or at least the minimum, on the market's grid |
| Ezxt2.OrderSizeRefused | ezxt2.py:410-413 | an unauthenticated client is refused before any request; an uninstantiated one never returns a size and makes no request |
| Ezxt2.SubmittedParams | ezxt2.py:526-555 | a stop order's params gain `stopPrice` and a take-profit order's gain `triggerPrice`; the keys are the caller's plus that kind's own key, and every other key keeps its value; market and limit orders' params are unchanged |
| Ezxt2.OrderRequest | ezxt2.py:488-558 | `create_order` with the caller's market, side and size and the kind's type; the limit and stop kinds pass their price, the others pass none |
| Ezxt2.PlacementGuard | ezxt2.py:483-486 | a size that is not positive returns `{}`, makes no request and leaves the params alone |
| Ezxt2.PlacementSubmitsOnce | ezxt2.py:485-488 | for an authenticated client an order is sent iff the size is positive, and then exactly once |
| Ezxt2.WithMethod | ezxt2.py:619 | `params.update({'method': m})` sets the endpoint and keeps every other key |
| Ezxt2.CancelByIdRouting | ezxt2.py:633-642 | cancelling by id fetches through the plain fetch endpoint with a dictionary of its own, then cancels the same id, on the conditional endpoint iff the fetched order is a stop or take-profit order |
| Ezxt2.CancelByIdMatchesByObject | ezxt2.py:625-663 | cancelling by id sends the same cancel request as cancelling by object, when the exchange returns that order for the id |
| Ezxt2.WrappedGenericExchange.InstantiateClient | ezxt2.py:186-206 | a fresh client with no requests yet, with the account iff both keys are given, and the matching state |
| Ezxt2.WrappedGenericExchange.GetFreeBalance | ezxt2.py:278-293 | returns `FreeBalanceRun`'s result and appends its requests |
| Ezxt2.WrappedGenericExchange.ResolvePrice | ezxt2.py:438-442 | the given price with no request, else the bid (for "buy") or the ask after one ticker request; no client fails |
| Ezxt2.WrappedGenericExchange.ConvertSize | ezxt2.py:445-457 | the size-type conversion, in the source's order: balance request before the zero-price check |
| Ezxt2.WrappedGenericExchange.LimitToMarket | ezxt2.py:460-469 | one market lookup, then the limited size |
| Ezxt2.WrappedGenericExchange.SizeAtPrice | ezxt2.py:445-469 | conversion followed by the market's limits |
| Ezxt2.WrappedGenericExchange.GetOrderSize | ezxt2.py:410-469 | returns `OrderSizeRun`'s result and appends its requests |
| Ezxt2.WrappedGenericExchange.PostMarketOrder | ezxt2.py:471-488 | returns `PlaceRun`'s result for a market order and appends its requests |
| Ezxt2.WrappedGenericExchange.PostLimitOrder | ezxt2.py:490-510 | the same for a limit order at `price` |
| Ezxt2.WrappedGenericExchange.PostStopLossOrder | ezxt2.py:512-534 | the same for a stop order; the caller's params gain `stopPrice` once the size check passes |
| Ezxt2.WrappedGenericExchange.PostTakeProfitOrder | ezxt2.py:536-558 | the same for a take-profit order with no price; the caller's params gain `triggerPrice` |
| Ezxt2.WrappedFtxClient.GetOrder | ezxt2.py:607-620 | the caller's params gain `method = privateGetOrdersOrderId`, then one `fetch_order` with them |
| Ezxt2.WrappedFtxClient.CancelOrderById | ezxt2.py:623-642 | the inner `get_order` request, then one cancel routed on the fetched type; the caller's params are tagged only once the fetch has succeeded |
| Ezxt2.WrappedFtxClient.CancelOrderByObject | ezxt2.py:645-663 | one cancel of `info.id`, routed on the order's own type; the caller's params are tagged |
| Ezxt.LegacyOrderRequest | ezxt.py:47-74 | market and limit orders use the caller's side and no params; stop and take-profit orders always sell, pass no price, and carry the price as `stopPrice` or `triggerPrice` only |
| Ezxt.LegacyGuardOnlyZero | ezxt.py:49-50 | only an amount of exactly 0 returns `False`; a negative amount is sent, where `ezxt2.py` refuses it |
| Ezxt.LegacyCancelRequest | ezxt.py:77-84 | cancels `info.id` with no symbol; the only param is the endpoint, conditional iff the type is "stop" or "take_profit" |
| Ezxt.CancelRoutingAgrees | ezxt.py:77-84 | this draft and the FTX cancel by object pick the same endpoint and id |
| Ezxt.NormaliseStatus | ezxt.py:185-190 | "filled" iff nothing remains, whatever the status; otherwise "open" or "canceled" iff the status is that; otherwise None |
| Ezxt.PercentFormulasAgree | ezxt.py:120 | `(amount * balance) / 100` equals `ezxt2.py`'s `amount / 100 * balance` |
| Ezxt.BuySizeValue | ezxt.py:113-140 | fails iff the price (ask by default) is 0; otherwise 0 or at least the limit, and any nonzero result is `truncate((amount·balance/100)/price, digits)`; the result is that truncation whenever it meets the limit, and 0 whenever it is below |
| Ezxt.SellSizeValue | ezxt.py:143-164 | never fails; 0 or at least the limit; any nonzero result is `truncate(amount·balance/100, digits)`; the result is that truncation whenever it meets the limit, and 0 whenever it is below |
| Ezxt.SuppliedBalanceSkipsFetch | ezxt.py:116-117 | a supplied balance means no balance request, for buy and sell sizing |
| Ezxt.BuySizeAgreesWithOrderSize | ezxt.py:113-140 | buy sizing equals `ezxt2.py`'s `currency_2_percent` sizing whenever both use the same price (a given price, or a side other than "buy") |
| Ezxt.SellSizeAgreesWithOrderSize | ezxt.py:143-164 | sell sizing equals `ezxt2.py`'s `currency_1_percent` sizing |
| Ezxt.Client.GetBid | ezxt.py:37-39 | `[load_markets, fetch_ticker]`, returning the bid as it is |
| Ezxt.Client.GetAsk | ezxt.py:42-44 | `[load_markets, fetch_ticker]`, returning the ask as it is |
| Ezxt.Client.GetFreeBalance | ezxt.py:87-92 | `[load_markets, fetch_balance]`, returning the free amount with its defaults |
| Ezxt.Client.PostMarketOrder | ezxt.py:47-51 | returns `LegacyPlaceRun`'s result for a market order and appends its requests |
| Ezxt.Client.PostLimitOrder | ezxt.py:54-58 | the same for a limit order |
| Ezxt.Client.PostStop | ezxt.py:61-66 | the same for a stop order, always a sell |
| Ezxt.Client.PostTakeProfit | ezxt.py:69-74 | the same for a take-profit order, always a sell |
| Ezxt.Client.CancelOrder | ezxt.py:77-84 | one request, `LegacyCancelRequest` |
| Ezxt.Client.GetOrder | ezxt.py:167-170 | one fetch, by `order_id` if given, else by `info.id`, on the plain fetch endpoint |
| Ezxt.Client.GetAllOrders | ezxt.py:173-177 | the open-orders query iff `open_only`, else the all-orders query, for the given symbol |
| Ezxt.Client.GetOrderStatus | ezxt.py:180-190 | with no `order_id`, fetches by `info.id` and normalises the fetched order; with one, normalises the given order without a request |
| Ezxt.Client.GetBuySize | ezxt.py:113-140 | returns `BuySizeRun`'s result and appends its requests: balance, market, ticker |
| Ezxt.Client.GetSellSize | ezxt.py:143-164 | returns `SellSizeRun`'s result and appends its requests: balance, market |
| EzxtRework.QuoteRun | ezxt_rework.py:139-157 | with no client the `load_markets` lookup fails; otherwise `[load_markets, fetch_ticker(market, params)]` and a successful result |
| EzxtRework.QuoteIsTruncated | ezxt_rework.py:147 | `int(quote)` keeps the sign, is less than 1 from the quote, does not exceed it in magnitude, and is the quote itself when that is whole |
| EzxtRework.QuoteRoundsTowardZero | ezxt_rework.py:157 | −1.5 becomes −1 (not the floor) and 1.5 becomes 1 |
| EzxtRework.WrappedExchange.constructor | ezxt_rework.py:107-114 | a new wrapper has no client and is NOT_INSTANTIATED |
| EzxtRework.WrappedExchange.InstantiateClient | ezxt_rework.py:117-136 | always a fresh client; AUTHENTICATED iff both keys are given, else NOT_AUTHENTICATED |
| EzxtRework.WrappedExchange.GetBid | ezxt_rework.py:139-147 | returns `QuoteRun`'s result for the bid and appends its requests |
| EzxtRework.WrappedExchange.GetAsk | ezxt_rework.py:149-157 | returns `QuoteRun`'s result for the ask and appends its requests |
| Ezxt2.WrappedGenericExchange.constructor | ezxt2.py:175-182 | a new wrapper has no client and is NOT_INSTANTIATED |
| Ezxt2.WrappedFtxClient.constructor | ezxt2.py:568-604 | an FTX wrapper is instantiated on construction: its state follows the keys and its client is fresh |
| Ezxt.Client.constructor | ezxt.py:10-34 | the client has the account iff both keys are given, and its first request is `load_markets()` |

The helper functions without a contract of their own, such as `Ezxt2.OrderSizeRun`,
`Ezxt2.PlaceRun`, `Ezxt2.CancelByIdRun`, `Ezxt.BuySizeRun` and
`Ezxt.LegacyPlaceRun`, define the runs that the methods and lemmas above
are stated against.

## Left out

- Network transport: ccxt requests (`fetch_ticker`, `fetch_balance`, `create_order`, `cancel_order`, `fetch_order`, `fetch_orders`, `fetch_open_orders`, `load_markets`, `market`) are trace entries, and their answers are arguments; network failures are not modelled.
- `math.log10`: the exponent `int(math.log10(precision))` is given as `MarketInfo.precisionExponent`. `Decimal.IsTruncLog10` says which exponent belongs to a precision. A precision of 0, for which `log10` raises, is therefore outside the model.
- Floating point: sizes and prices are exact reals, so IEEE rounding in `number * factor` and in the divisions is not modelled.
- Dynamic typing: `size` and `price` may be `int` or `float` in Python and are reals here; a value of any other type is out of scope.
- `only_implemented_types` and `TypeNotImplemented`: they rely on runtime introspection of annotations.
- Exception messages and terminal colours: the guard's failure is the single `NotAuthenticatedError`.
- Wrapping.OnlyAuthenticated: the source raises `NotAuthenticatedException(func.name)`, but a Python function has no `name` attribute (`functools.wraps` copies `__name__`), so the code as written raises `AttributeError` at that point and the exception's constructor would read `func.name` again; the model keeps the intended `NotAuthenticatedError`. Either way the call is refused before any request.
- Client configuration: `enable_rate_limit`, the FTX `FTX-SUBACCOUNT` header (the `subaccount` arguments), `WrappedBinanceClient` with its testnet switch, and `set_sandbox_mode`.
- `get_kline` and `get_klines`: pandas reshaping of downloaded candles.
- The `ezxt2.py` methods outside the modelled core: `get_bid` and `get_ask`, `get_balance`, `get_market`, `get_precision`, and the generic `get_order`, `get_all_orders`, `get_all_open_orders`, `cancel_order_by_id`, `cancel_order_by_object`, `get_order_status_by_id` and `get_order_status_by_object`. `get_bid` and `get_ask` behave as the rework's, which are modelled. `get_precision` appears only as the market lookup of `get_order_size`.
- `ezxt.py` calls the exchange class (`self.exchange`) in most methods and the instance (`self.client`) only on construction; both are the one gateway `Client.exchange` here.
- `ezxt.py`'s `get_market` and `get_precision`: they appear only as the market lookup inside the sizing methods.
- `Ezxt.Client.PostLimitOrder`: ccxt's `create_limit_order` is recorded as the `create_order` request it stands for (type "limit", no params).
- `unit_test.py`: a live-network script with no assertions.
