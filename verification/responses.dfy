/** The success/failure contract shared by `GetSwapQuote` and `Swap`: a value is
    returned only when the status is a success AND the body decoded to a
    non-null object; every other reply throws with the reply's status code. */
module Responses {
  import opened Wrappers
  import opened Models

  /** The outcome of `GetSwapQuote` for a reply with status `status` whose body
      decodes to `decoded` (`None` for a null decode). */
  function QuoteOutcome(status: int, decoded: Option<SwapQuote>): (r: Result<SwapQuote, RequestError>)
    ensures r.Success? <==> IsSuccessStatusCode(status) && decoded.Some?
    ensures r.Success? ==> decoded == Some(r.value)
    ensures r.Failure? ==> r.error == RequestFailed(status)
  {
    if IsSuccessStatusCode(status) && decoded.Some? then Success(decoded.value)
    else Failure(RequestFailed(status))
  }

  /** The outcome of `Swap` for a reply with status `status` whose body decodes
      to `decoded`; `deserialize` is the transaction codec, `None` where it
      throws. */
  function SwapOutcome(status: int, decoded: Option<SwapResponse>, deserialize: string -> Option<Transaction>): (r: Result<Transaction, RequestError>)
    ensures r.Success? <==> IsSuccessStatusCode(status) && decoded.Some? && deserialize(decoded.value.swapTransaction).Some?
    ensures r.Success? ==> deserialize(decoded.value.swapTransaction) == Some(r.value)
    ensures r.Failure? && !(IsSuccessStatusCode(status) && decoded.Some?) ==> r.error == RequestFailed(status)
    ensures r.Failure? && IsSuccessStatusCode(status) && decoded.Some? ==> r.error == TransactionRejected
  {
    if IsSuccessStatusCode(status) && decoded.Some? then
      match deserialize(decoded.value.swapTransaction)
      case Some(tx) => Success(tx)
      case None => Failure(TransactionRejected)
    else Failure(RequestFailed(status))
  }

  /** A quote failure that carries a success status code can only come from a
      body that decoded to null. */
  lemma QuoteFailureWithSuccessStatus(status: int, decoded: Option<SwapQuote>)
    requires IsSuccessStatusCode(status)
    requires QuoteOutcome(status, decoded).Failure?
    ensures decoded.None?
    ensures QuoteOutcome(status, decoded).error.statusCode == status
  {
  }

  /** A rejected status is a failure whatever the body holds. */
  lemma RejectedStatusFails(status: int, q: Option<SwapQuote>, s: Option<SwapResponse>, deserialize: string -> Option<Transaction>)
    requires !IsSuccessStatusCode(status)
    ensures QuoteOutcome(status, q) == Failure(RequestFailed(status))
    ensures SwapOutcome(status, s, deserialize) == Failure(RequestFailed(status))
  {
  }
}
