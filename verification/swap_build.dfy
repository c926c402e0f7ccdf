/** The request `Swap` posts: the quote verbatim, the signer and three flags. */
module SwapBuild {
  import opened Wrappers
  import opened Models

  /** The body of the POST to `endpoint + "/swap"`. */
  datatype SwapRequest = SwapRequest(
    quoteResponse: SwapQuote,
    userPublicKey: Option<PublicKey>,
    wrapAndUnwrapSol: bool,
    useSharedAccounts: bool,
    asLegacyTransaction: bool)

  function SwapUrl(endpoint: string): string {
    endpoint + "/swap"
  }

  /** `userPublicKey ??= account`. */
  function Signer(account: Option<PublicKey>, userPublicKey: Option<PublicKey>): (s: Option<PublicKey>)
    ensures userPublicKey.Some? ==> s == userPublicKey
    ensures userPublicKey.None? ==> s == account
    ensures s.None? <==> userPublicKey.None? && account.None?
  {
    if userPublicKey.Some? then userPublicKey else account
  }

  /** The request of a `Swap` call on a client constructed with `account`.
      `destinationTokenAccount` is accepted and dropped. */
  function BuildRequest(
    account: Option<PublicKey>,
    quote: SwapQuote,
    userPublicKey: Option<PublicKey>,
    destinationTokenAccount: Option<PublicKey>,
    wrapAndUnwrapSol: bool,
    useSharedAccounts: bool,
    asLegacy: bool): (r: SwapRequest)
    ensures r.quoteResponse == quote
    ensures r.userPublicKey == Signer(account, userPublicKey)
    ensures r.wrapAndUnwrapSol == wrapAndUnwrapSol && r.useSharedAccounts == useSharedAccounts
    ensures r.asLegacyTransaction == asLegacy
  {
    SwapRequest(quote, Signer(account, userPublicKey), wrapAndUnwrapSol, useSharedAccounts, asLegacy)
  }

  /** The destination token account never reaches the request. */
  lemma DestinationAccountIgnored(
    account: Option<PublicKey>, quote: SwapQuote, userPublicKey: Option<PublicKey>,
    d1: Option<PublicKey>, d2: Option<PublicKey>, wrap: bool, shared: bool, legacy: bool)
    ensures BuildRequest(account, quote, userPublicKey, d1, wrap, shared, legacy)
         == BuildRequest(account, quote, userPublicKey, d2, wrap, shared, legacy)
  {
  }

  /** The request has no signer exactly when neither the call nor the
      constructor supplied one; the client does not check this itself. */
  lemma SignerMissingOnlyWhenBothMissing(
    account: Option<PublicKey>, quote: SwapQuote, userPublicKey: Option<PublicKey>,
    destination: Option<PublicKey>, wrap: bool, shared: bool, legacy: bool)
    ensures BuildRequest(account, quote, userPublicKey, destination, wrap, shared, legacy).userPublicKey.None?
        <==> userPublicKey.None? && account.None?
  {
  }
}
