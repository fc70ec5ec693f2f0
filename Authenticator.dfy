/** The contract every venue (`Authenticator`) offers the engine. The base
    class's `buy` and `sell` only validate the requested volume; everything
    else is abstract and left to a concrete venue. */
module Venue {
  import opened Common

  /** The base `buy(n_shares)`: a volume of zero or less is refused before
      any effect; a positive volume passes and the base itself does nothing. */
  function CheckBuy(n: real): (r: Result<()>)
    ensures r.Err? <==> n <= 0.0
    ensures r.Err? ==> r.failure == NonPositiveVolume
  {
    if n <= 0.0 then Err(NonPositiveVolume) else Ok(())
  }

  /** The base `sell(n_shares)`, with the same guard as `buy`. */
  function CheckSell(n: real): (r: Result<()>)
    ensures r.Err? <==> n <= 0.0
    ensures r.Err? ==> r.failure == NonPositiveVolume
  {
    if n <= 0.0 then Err(NonPositiveVolume) else Ok(())
  }

  /** What a venue's `get_current_price` may do with the answer of the market:
      a failed query is raised as a failure and never replaced by a value. */
  function CurrentPrice<T>(answer: Option<T>): (r: Result<T>)
    ensures r.Ok? <==> answer.Some?
    ensures answer.Some? ==> r.value == answer.value
    ensures r.Err? ==> r.failure == PriceUnavailable
  {
    match answer
    case Some(p) => Ok(p)
    case None => Err(PriceUnavailable)
  }
}
