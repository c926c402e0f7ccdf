/** The client `JupiterDexAg`: an optional signer account, an endpoint and the
    token cache. Each operation takes the outcome of its network exchange as
    parameters and returns what the call sends and what it returns. */
module JupiterDex {
  import opened Wrappers
  import opened Models
  import QuoteQuery
  import Responses
  import SwapBuild
  import TokenCache
  import TokenLookup

  /** The endpoint both constructors use when none is given. */
  const DefaultEndpoint := "https://quote-api.jup.ag/v6"

  datatype Client = Client(account: Option<PublicKey>, endpoint: string, tokens: TokenCache.Cache)

  /** `new JupiterDexAg(endpoint)`. */
  function Create(endpoint: string): (c: Client)
    ensures c.account.None? && c.endpoint == endpoint && c.tokens.Unset?
  {
    Client(None, endpoint, TokenCache.Unset)
  }

  /** `new JupiterDexAg(account, endpoint)`. */
  function CreateWithAccount(account: PublicKey, endpoint: string): (c: Client)
    ensures c.account == Some(account) && c.endpoint == endpoint && c.tokens.Unset?
  {
    Client(Some(account), endpoint, TokenCache.Unset)
  }

  /** `new JupiterDexAg()`: no account and the default endpoint. */
  function CreateDefault(): (c: Client)
    ensures c.account.None? && c.tokens.Unset?
    ensures c.endpoint == "https://quote-api.jup.ag/v6"
  {
    Create(DefaultEndpoint)
  }

  /** `new JupiterDexAg(account)`: the account and the default endpoint. */
  function CreateDefaultWithAccount(account: PublicKey): (c: Client)
    ensures c.account == Some(account) && c.tokens.Unset?
    ensures c.endpoint == "https://quote-api.jup.ag/v6"
  {
    CreateWithAccount(account, DefaultEndpoint)
  }

  /** A `GetSwapQuote` call: the URL requested and the outcome. */
  datatype QuoteCall = QuoteCall(url: string, outcome: Result<SwapQuote, RequestError>)

  /** `GetSwapQuote(args)` when the reply has status `status` and its body
      decodes to `decoded`. */
  function GetSwapQuote(client: Client, args: QuoteQuery.QuoteArgs, status: int, decoded: Option<SwapQuote>): (c: QuoteCall)
    ensures c.url == client.endpoint + "/quote?" + QuoteQuery.QueryString(args)
    ensures c.outcome.Success? <==> IsSuccessStatusCode(status) && decoded.Some?
    ensures c.outcome.Success? ==> decoded == Some(c.outcome.value)
    ensures c.outcome.Failure? ==> c.outcome.error == RequestFailed(status)
  {
    QuoteCall(QuoteQuery.QuoteUrl(client.endpoint, args), Responses.QuoteOutcome(status, decoded))
  }

  /** A `Swap` call: the URL posted to, the request body and the outcome. */
  datatype SwapCall = SwapCall(url: string, request: SwapBuild.SwapRequest, outcome: Result<Transaction, RequestError>)

  /** `Swap(quote, …)` when the reply has status `status`, its body decodes to
      `decoded`, and `deserialize` is the transaction codec. */
  function Swap(
    client: Client,
    quote: SwapQuote,
    userPublicKey: Option<PublicKey>,
    destinationTokenAccount: Option<PublicKey>,
    wrapAndUnwrapSol: bool,
    useSharedAccounts: bool,
    asLegacy: bool,
    status: int,
    decoded: Option<SwapResponse>,
    deserialize: string -> Option<Transaction>): (c: SwapCall)
    ensures c.url == client.endpoint + "/swap"
    ensures c.request.quoteResponse == quote
    ensures userPublicKey.Some? ==> c.request.userPublicKey == userPublicKey
    ensures userPublicKey.None? ==> c.request.userPublicKey == client.account
    ensures c.request.wrapAndUnwrapSol == wrapAndUnwrapSol && c.request.useSharedAccounts == useSharedAccounts
    ensures c.request.asLegacyTransaction == asLegacy
    ensures c.outcome.Success? <==> IsSuccessStatusCode(status) && decoded.Some? && deserialize(decoded.value.swapTransaction).Some?
    ensures c.outcome.Success? ==> deserialize(decoded.value.swapTransaction) == Some(c.outcome.value)
    ensures !IsSuccessStatusCode(status) || decoded.None? ==> c.outcome == Failure(RequestFailed(status))
    ensures IsSuccessStatusCode(status) && decoded.Some? && deserialize(decoded.value.swapTransaction).None? ==>
      c.outcome == Failure(TransactionRejected)
  {
    SwapCall(
      SwapBuild.SwapUrl(client.endpoint),
      SwapBuild.BuildRequest(client.account, quote, userPublicKey, destinationTokenAccount, wrapAndUnwrapSol, useSharedAccounts, asLegacy),
      Responses.SwapOutcome(status, decoded, deserialize))
  }

  /** `Swap(quote)` with every optional argument left at its default: the
      client's account signs, and the three flags are `true`. */
  function SwapWithDefaults(
    client: Client,
    quote: SwapQuote,
    status: int,
    decoded: Option<SwapResponse>,
    deserialize: string -> Option<Transaction>): (c: SwapCall)
    ensures c.url == client.endpoint + "/swap"
    ensures c.request == SwapBuild.SwapRequest(quote, client.account, true, true, true)
    ensures c.outcome.Success? <==> IsSuccessStatusCode(status) && decoded.Some? && deserialize(decoded.value.swapTransaction).Some?
    ensures c.outcome.Success? ==> deserialize(decoded.value.swapTransaction) == Some(c.outcome.value)
    ensures !IsSuccessStatusCode(status) || decoded.None? ==> c.outcome == Failure(RequestFailed(status))
    ensures IsSuccessStatusCode(status) && decoded.Some? && deserialize(decoded.value.swapTransaction).None? ==>
      c.outcome == Failure(TransactionRejected)
  {
    Swap(client, quote, None, None, true, true, true, status, decoded, deserialize)
  }

  /** A token call: the client afterwards, the value returned and the URL
      fetched, if any. */
  datatype ClientCall<R> = ClientCall(client: Client, result: R, request: Option<string>)

  /** `GetTokens(listType)`; only the cache may change. */
  function GetTokens(client: Client, listType: TokenListType, download: Option<seq<TokenData>>): (c: ClientCall<Option<seq<TokenData>>>)
    ensures c.client.account == client.account && c.client.endpoint == client.endpoint
    ensures client.tokens.Cached? ==> c.client == client && c.result == Some(client.tokens.tokens) && c.request.None?
    ensures client.tokens.Unset? ==> c.request == Some(TokenCache.TokenListUrl(listType)) && c.result == download
    ensures c.result.Some? <==> c.client.tokens.Cached?
    ensures client.tokens.Unset? && download.Some? ==> c.client.tokens == TokenCache.Cached(download.value)
    ensures client.tokens.Unset? && download.None? ==> c.client == client
  {
    var t := TokenCache.GetTokens(client.tokens, listType, download);
    ClientCall(client.(tokens := t.cache), t.result, t.request)
  }

  /** `GetTokens()`: the list type defaults to `Strict`, so an unset cache
      fetches the strict list. */
  function GetTokensDefault(client: Client, download: Option<seq<TokenData>>): (c: ClientCall<Option<seq<TokenData>>>)
    ensures c.client.account == client.account && c.client.endpoint == client.endpoint
    ensures client.tokens.Unset? ==> c.request == Some("https://token.jup.ag/strict") && c.result == download
    ensures client.tokens.Unset? && download.None? ==> c.client == client
    ensures c.result.Some? <==> c.client.tokens.Cached?
    ensures client.tokens.Cached? ==> c.client == client && c.result == Some(client.tokens.tokens) && c.request.None?
    ensures client.tokens.Unset? && download.Some? ==> c.client.tokens == TokenCache.Cached(download.value)
  {
    TokenCache.TokenListUrls();
    GetTokens(client, Strict, download)
  }

  /** `GetTokenBySymbol(symbol)`: the `All` list, or whatever list is cached. */
  function GetTokenBySymbol(client: Client, symbol: string, download: Option<seq<TokenData>>): (c: ClientCall<Result<Option<TokenData>, TokenLookup.LookupError>>)
    ensures c.client.account == client.account && c.client.endpoint == client.endpoint
    ensures client.tokens.Cached? ==> c.client == client && c.request.None?
    ensures client.tokens.Cached? ==> c.result == TokenLookup.FindBySymbol(Some(client.tokens.tokens), symbol)
    ensures client.tokens.Unset? ==> c.request == Some(TokenCache.TokenListUrl(All))
    ensures client.tokens.Unset? && download.None? ==> c.result == Success(None) && c.client == client
    ensures client.tokens.Unset? && download.Some? ==>
      c.client.tokens == TokenCache.Cached(download.value) && c.result == TokenLookup.FindBySymbol(download, symbol)
  {
    var t := GetTokens(client, All, download);
    ClientCall(t.client, TokenLookup.FindBySymbol(t.result, symbol), t.request)
  }

  /** `GetTokenByMint(mint)`: the `All` list, or whatever list is cached. */
  function GetTokenByMint(client: Client, mint: string, download: Option<seq<TokenData>>): (c: ClientCall<Result<Option<TokenData>, TokenLookup.LookupError>>)
    ensures c.client.account == client.account && c.client.endpoint == client.endpoint
    ensures client.tokens.Cached? ==> c.client == client && c.request.None?
    ensures client.tokens.Cached? ==> c.result == TokenLookup.FindByMint(Some(client.tokens.tokens), mint)
    ensures client.tokens.Unset? ==> c.request == Some(TokenCache.TokenListUrl(All))
    ensures client.tokens.Unset? && download.None? ==> c.result == Success(None) && c.client == client
    ensures client.tokens.Unset? && download.Some? ==>
      c.client.tokens == TokenCache.Cached(download.value) && c.result == TokenLookup.FindByMint(download, mint)
  {
    var t := GetTokens(client, All, download);
    ClientCall(t.client, TokenLookup.FindByMint(t.result, mint), t.request)
  }

  /** A lookup after a successful `Strict` fetch searches the strict list and
      fetches nothing, although lookups ask for `All`. */
  lemma StrictFetchDecidesLookups(client: Client, strict: seq<TokenData>, symbol: string, download: Option<seq<TokenData>>)
    requires client.tokens.Unset?
    ensures var fetched := GetTokens(client, Strict, Some(strict));
      var lookup := GetTokenBySymbol(fetched.client, symbol, download);
      && fetched.request == Some(TokenCache.TokenListUrl(Strict))
      && lookup.request.None?
      && lookup.result == TokenLookup.FindBySymbol(Some(strict), symbol)
  {
  }

  /** Two `GetTokens` calls in a row fetch once when the first succeeds, and
      both return the same list. */
  lemma SecondCallServedFromCache(client: Client, t1: TokenListType, t2: TokenListType, ts: seq<TokenData>, other: Option<seq<TokenData>>)
    requires client.tokens.Unset?
    ensures var first := GetTokens(client, t1, Some(ts));
      var second := GetTokens(first.client, t2, other);
      && first.request.Some? && second.request.None?
      && first.result == Some(ts) && second.result == Some(ts)
  {
  }
}
