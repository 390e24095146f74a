/**
 * The client state and the two decorators shared by the wrapper drafts:
 * `only_authenticated` and `load_markets`. A decorated call is described by a
 * `Run`: what it returns (or raises) and the requests it makes, in order.
 */
module Wrapping {
  import opened Wrappers
  import opened Gateway

  /** `Client_state`. */
  datatype ClientState = NotInstantiated | NotAuthenticated | Authenticated

  /** The exceptions a wrapped call can raise. */
  datatype Error =
    | NotAuthenticatedError   // the refusal `only_authenticated` intends (NotAuthenticatedException)
    | NoClient                // an attribute looked up on the client while it is still None
    | ZeroDivision            // a size divided by a price of 0
    | BadMarketSymbol         // `market.split("/")` does not yield exactly two names

  /** The outcome of one wrapped call and the requests it made. */
  datatype Run<+R> = Run(result: Result<R, Error>, calls: seq<Call>)

  /** The account the client is created with: both keys, or none. */
  function CredentialsOf(apiKey: Option<string>, apiSecret: Option<string>): (c: Option<Credentials>)
    ensures c.Some? <==> apiKey.Some? && apiSecret.Some?
    ensures c.Some? ==> c.value == Credentials(apiKey.value, apiSecret.value)
  {
    if apiKey.Some? && apiSecret.Some? then Some(Credentials(apiKey.value, apiSecret.value)) else None
  }

  /** The state `instantiate_client` leaves: authenticated iff both keys are given. */
  function StateAfterInstantiation(apiKey: Option<string>, apiSecret: Option<string>): (s: ClientState)
    ensures s != NotInstantiated
    ensures s == Authenticated <==> apiKey.Some? && apiSecret.Some?
    ensures s == Authenticated <==> CredentialsOf(apiKey, apiSecret).Some?
  {
    if apiKey.Some? && apiSecret.Some? then Authenticated else NotAuthenticated
  }

  /**
   * `only_authenticated`: raises before the wrapped method runs when, and only
   * when, the state is NOT_AUTHENTICATED; otherwise the wrapped method's run is
   * passed through untouched (an uninstantiated client is let through).
   */
  function OnlyAuthenticated<R>(state: ClientState, body: Run<R>): (run: Run<R>)
    ensures state == NotAuthenticated ==> run == Run(Failure(NotAuthenticatedError), [])
    ensures state != NotAuthenticated ==> run == body
  {
    if state == NotAuthenticated then Run(Failure(NotAuthenticatedError), []) else body
  }

  /**
   * `load_markets`: one `load_markets()` request before the wrapped method,
   * whose result is returned unchanged; with no client the lookup itself fails.
   */
  function WithLoadMarkets<R>(hasClient: bool, body: Run<R>): (run: Run<R>)
    ensures !hasClient ==> run == Run(Failure(NoClient), [])
    ensures hasClient ==> run.result == body.result && run.calls == [LoadMarkets] + body.calls
  {
    if hasClient then Run(body.result, [LoadMarkets] + body.calls) else Run(Failure(NoClient), [])
  }

  /**
   * Stacked as in the source (`only_authenticated` outermost), a call on an
   * unauthenticated client fails without loading the markets, and it cannot
   * be told apart from any other call so blocked.
   */
  lemma GuardBeforeLoadMarkets<R>(body1: Run<R>, body2: Run<R>)
    ensures LoadMarkets !in OnlyAuthenticated(NotAuthenticated, WithLoadMarkets(true, body1)).calls
    ensures OnlyAuthenticated(NotAuthenticated, WithLoadMarkets(true, body1))
         == OnlyAuthenticated(NotAuthenticated, WithLoadMarkets(true, body2))
    ensures LoadMarkets in WithLoadMarkets(true, OnlyAuthenticated(NotAuthenticated, body1)).calls
  {
  }
}
