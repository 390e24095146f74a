/**
 * The reworked wrapper: `Wrapped_exchange`, whose client is created on demand
 * and whose price queries load the markets first and return whole numbers.
 */
module EzxtRework {
  import opened Wrappers
  import opened Decimal
  import opened Gateway
  import opened Wrapping

  /**
   * A `load_markets`-decorated price query: `int(fetch_ticker(market)[field])`,
   * which drops the fraction toward zero.
   */
  function QuoteRun(hasClient: bool, market: string, params: ParamMap, quote: real): (run: Run<int>)
    ensures !hasClient ==> run == Run(Failure(NoClient), [])
    ensures hasClient ==> run.calls == [LoadMarkets, FetchTicker(market, params)]
    ensures hasClient ==> run.result.Success?
  {
    WithLoadMarkets(hasClient, Run(Success(TruncToZero(quote)), [FetchTicker(market, params)]))
  }

  /**
   * The whole-number price keeps the quote's sign, is within 1 of it, never
   * exceeds it in magnitude, and is the quote itself when that is a whole number.
   */
  lemma QuoteIsTruncated(market: string, params: ParamMap, quote: real)
    ensures var v := QuoteRun(true, market, params, quote).result.value;
      && (0.0 <= quote ==> 0 <= v && v as real <= quote < v as real + 1.0)
      && (quote < 0.0 ==> v <= 0 && v as real - 1.0 < quote <= v as real)
      && (quote.Floor as real == quote ==> v == quote.Floor)
  {
    if quote.Floor as real == quote {
      TruncToZeroOfInteger(quote.Floor);
    }
  }

  /** `int()` is not the floor: a negative quote is rounded up. */
  lemma QuoteRoundsTowardZero()
    ensures QuoteRun(true, "BTC/USD", map[], -1.5).result == Success(-1)
    ensures QuoteRun(true, "BTC/USD", map[], 1.5).result == Success(1)
  {
  }

  /** `Wrapped_exchange`. */
  class WrappedExchange {
    const exchange: string
    var client: Exchange?
    var clientState: ClientState

    /** The client exists exactly when the state says it was instantiated. */
    ghost predicate Valid()
      reads this
    {
      (client == null) <==> (clientState == NotInstantiated)
    }

    /** `__init__`: no client yet. */
    constructor(exchange: string)
      ensures Valid()
      ensures this.exchange == exchange && client == null && clientState == NotInstantiated
    {
      this.exchange := exchange;
      client := null;
      clientState := NotInstantiated;
    }

    /** `instantiate_client`: always a fresh client, authenticated iff both keys are given. */
    method InstantiateClient(apiKey: Option<string>, apiSecret: Option<string>)
      modifies this
      ensures Valid()
      ensures clientState == StateAfterInstantiation(apiKey, apiSecret)
      ensures fresh(client) && client.name == exchange && client.calls == []
      ensures client.credentials == CredentialsOf(apiKey, apiSecret)
    {
      if apiKey.Some? && apiSecret.Some? {
        client := new Exchange(exchange, Some(Credentials(apiKey.value, apiSecret.value)));
        clientState := Authenticated;
      } else {
        client := new Exchange(exchange, None);
        clientState := NotAuthenticated;
      }
    }

    /** `get_bid`. */
    method GetBid(market: string, params: ParamMap, ticker: Ticker) returns (r: Result<int, Error>)
      modifies client
      ensures var run := QuoteRun(client != null, market, params, ticker.bid);
        r == run.result && (client != null ==> client.calls == old(client.calls) + run.calls)
    {
      if client == null {
        return Failure(NoClient);
      }
      client.Issue(LoadMarkets);
      client.Issue(FetchTicker(market, params));
      return Success(TruncToZero(ticker.bid));
    }

    /** `get_ask`. */
    method GetAsk(market: string, params: ParamMap, ticker: Ticker) returns (r: Result<int, Error>)
      modifies client
      ensures var run := QuoteRun(client != null, market, params, ticker.ask);
        r == run.result && (client != null ==> client.calls == old(client.calls) + run.calls)
    {
      if client == null {
        return Failure(NoClient);
      }
      client.Issue(LoadMarkets);
      client.Issue(FetchTicker(market, params));
      return Success(TruncToZero(ticker.ask));
    }
  }
}
