# Jupiter aggregator client — Dafny model

A model of `JupiterDexAg`, the C# client for the Jupiter swap aggregator
(`Solnet.JupiterSwap/JupiterDex.cs`). The client has three jobs:

- It builds the quote request URL.
- It turns a quote into a swap-build request and reads the reply.
- It keeps a one-slot cache of the token registry and looks tokens up by
  symbol or by mint.

The network, JSON decoding and the transaction codec are not modelled. Their
outcomes are parameters: a status code, the decoded body as an `Option`
(`None` for a null decode), a token download as an `Option`, and the
transaction codec as a function `string -> Option<Transaction>`.

Modules:

- `Wrappers`: `Option` (C# null) and `Result` (return or throw).
- `Text`: the ASCII case fold, plus split/join on a separator.
- `Decimal`: `BigInteger.ToString()` and its parse.
- `Models`: the domain records.
- `QuoteQuery`: the quote URL.
- `Responses`: the success/failure rule of the two aggregator calls.
- `SwapBuild`: the swap request.
- `TokenCache`: the `GetTokens` state machine.
- `TokenLookup`: first-match lookup.
- `JupiterDex`: the client record and its operations.

Behaviours a reader might not expect, which the model reproduces:

- The five optional quote arguments (`slippageBps`, `excludeDexes`,
  `onlyDirectRoutes`, `platformFeeBps`, `maxAccounts`) are never sent, even
  when given.
- The cache keeps the first list type whose fetch succeeds, not the `All` list.
- With no list, a lookup returns null. With a list but no match, LINQ `First`
  throws (`NoMatch`).
- Querying `"$USDC"` need not return what `"USDC"` returns.
  `TokenLookup.DollarQueryCanDiffer` gives a two-entry registry where they differ.

## Model

| member | source | states |
|---|---|---|
| Decimal.NatToDigits | Solnet.JupiterSwap/JupiterDex.cs:84 | the amount's text for a non-negative amount is a non-empty digit string with no leading zero ("0" for zero) |
| Decimal.Render | Solnet.JupiterSwap/JupiterDex.cs:84 | the amount's text is digits, preceded by a minus sign exactly when the amount is negative |
| Decimal.RenderRoundTrip | Solnet.JupiterSwap/JupiterDex.cs:71-84 | parsing the rendered amount gives back the same integer, so the arbitrary-precision amount loses nothing |
| Decimal.RenderInjective | Solnet.JupiterSwap/JupiterDex.cs:84 | distinct amounts are rendered as distinct texts |
| Decimal.RenderHasNoSeparators | Solnet.JupiterSwap/JupiterDex.cs:84-89 | the amount's text contains neither `&` nor `=`, so it cannot break the unescaped query |
| QuoteQuery.DefaultArgs | Solnet.JupiterSwap/JupiterDex.cs:72-77 | a call that omits the optionals keeps the two mints and the amount as given, and uses ExactIn, no slippage, no excluded venues, direct routes off, no fee, no account cap |
| QuoteQuery.QueryStringShape | Solnet.JupiterSwap/JupiterDex.cs:80-89 | the query is exactly `inputMint=…&outputMint=…&amount=…&swapMode=…&asLegacyTransaction=true`, in that order |
| QuoteQuery.LegacyFlagAlwaysSent | Solnet.JupiterSwap/JupiterDex.cs:86-89 | for every argument, the query ends in `&asLegacyTransaction=true` |
| QuoteQuery.QueryRoundTrip | Solnet.JupiterSwap/JupiterDex.cs:80-89 | splitting the query on `&` and each item at its first `=` gives back the five pairs, when the mint texts hold no `&` |
| QuoteQuery.PairKeys | Solnet.JupiterSwap/JupiterDex.cs:80-87 | the pairs are five and carry the sent keys in order |
| QuoteQuery.PairsLookup | Solnet.JupiterSwap/JupiterDex.cs:80-87 | each sent key reads back its argument, and none of the five optional parameter names is present |
| QuoteQuery.QueryCarriesArguments | Solnet.JupiterSwap/JupiterDex.cs:71-92 | the URL's query reads back both mints, the exact integer amount, the swap mode and `true` for the legacy flag, and none of the optional arguments |
| QuoteQuery.OptionalArgumentsIgnored | Solnet.JupiterSwap/JupiterDex.cs:73-92 | two calls that differ only in the optional arguments request the same URL |
| QuoteQuery.UrlDeterminesSentArguments | Solnet.JupiterSwap/JupiterDex.cs:80-92 | two calls that request the same URL agree on both mints, the amount and the swap mode, for `&`-free mint texts |
| Responses.QuoteOutcome | Solnet.JupiterSwap/JupiterDex.cs:99-109 | a quote is returned exactly when the status is 2xx and the body decodes to non-null; it is the decoded quote; otherwise the call fails with the status code |
| Responses.SwapOutcome | Solnet.JupiterSwap/JupiterDex.cs:151-160 | a transaction is returned exactly when the status is 2xx, the body decodes and the codec accepts the payload; it is the codec's result; a bad status or null body fails with the status code |
| Responses.QuoteFailureWithSuccessStatus | Solnet.JupiterSwap/JupiterDex.cs:99-109 | a failure that reports a 2xx status can only come from a null decode |
| Responses.RejectedStatusFails | Solnet.JupiterSwap/JupiterDex.cs:99-109 | a non-2xx status fails both calls with that status, whatever the body holds |
| SwapBuild.Signer | Solnet.JupiterSwap/JupiterDex.cs:121 | the signer is the given key, else the constructor account, and is absent only when both are |
| SwapBuild.BuildRequest | Solnet.JupiterSwap/JupiterDex.cs:126-133 | the request carries the quote verbatim, the defaulted signer and the three flags as given |
| SwapBuild.DestinationAccountIgnored | Solnet.JupiterSwap/JupiterDex.cs:116-133 | the destination token account never changes the request |
| SwapBuild.SignerMissingOnlyWhenBothMissing | Solnet.JupiterSwap/JupiterDex.cs:115-133 | the request lacks a signer exactly when neither the call nor the constructor gave one |
| TokenCache.GetTokens | Solnet.JupiterSwap/JupiterDex.cs:164-200 | a set cache is returned unchanged with no fetch; an unset cache fetches the list type's URL, and is set and returned on a non-null download, else null is returned and the cache stays unset |
| TokenCache.TokenListUrls | Solnet.JupiterSwap/JupiterDex.cs:167 | the fetch URLs are `https://token.jup.ag/strict` and `https://token.jup.ag/all` |
| TokenCache.CachedRunIsConstant | Solnet.JupiterSwap/JupiterDex.cs:196-199 | once set, the cache never changes, nothing is fetched, and every later call returns the cached list whatever list type it asks for |
| TokenCache.FirstSuccessfulFetchWins | Solnet.JupiterSwap/JupiterDex.cs:164-200 | from unset, each call fetches its list type's URL and returns null until the first non-null download; that list is cached and returned by that call and all later calls, with no further fetch |
| TokenLookup.FirstIndex | Solnet.JupiterSwap/JupiterDex.cs:209 | the index found satisfies the predicate and none before it does; nothing is found exactly when no element satisfies it |
| TokenLookup.First | Solnet.JupiterSwap/JupiterDex.cs:209-211 | LINQ `First` throws exactly when nothing matches, else it returns the first matching element in list order |
| TokenLookup.FindBySymbol | Solnet.JupiterSwap/JupiterDex.cs:203-212 | no list gives null; otherwise the result is the first entry whose symbol equals the symbol or `$`+symbol ignoring case, and the call throws exactly when none does |
| TokenLookup.FindByMint | Solnet.JupiterSwap/JupiterDex.cs:215-221 | no list gives null; otherwise the result is the first entry whose mint equals the mint ignoring case, and the call throws exactly when none does |
| TokenLookup.SymbolLookupIgnoresCase | Solnet.JupiterSwap/JupiterDex.cs:209-211 | symbols that differ only in letter case find the same entry |
| TokenLookup.MintLookupIgnoresCase | Solnet.JupiterSwap/JupiterDex.cs:220 | mints that differ only in letter case find the same entry |
| TokenLookup.MintLookupFindsEntry | Solnet.JupiterSwap/JupiterDex.cs:220 | in a registry with unique mints, looking up an entry's mint returns that entry |
| TokenLookup.DollarSymbolFound | Solnet.JupiterSwap/JupiterDex.cs:211 | an entry whose symbol is `$`+symbol answers the bare symbol when no earlier entry matches |
| TokenLookup.DollarQueryCanDiffer | Solnet.JupiterSwap/JupiterDex.cs:209-211 | querying `USDC` and `$USDC` over the same registry can return different entries |
| JupiterDex.CreateDefault | Solnet.JupiterSwap/JupiterDex.cs:29-32 | a client built with no arguments has no account, uses `https://quote-api.jup.ag/v6`, and starts with an unset cache |
| JupiterDex.CreateDefaultWithAccount | Solnet.JupiterSwap/JupiterDex.cs:50-54 | a client built with only an account keeps it, uses `https://quote-api.jup.ag/v6`, and starts with an unset cache |
| JupiterDex.Create | Solnet.JupiterSwap/JupiterDex.cs:29-43 | a client built without an account has none, keeps the endpoint, and starts with an unset cache |
| JupiterDex.CreateWithAccount | Solnet.JupiterSwap/JupiterDex.cs:50-65 | a client built with an account keeps it and the endpoint, and starts with an unset cache |
| JupiterDex.GetSwapQuote | Solnet.JupiterSwap/JupiterDex.cs:68-110 | the call requests `endpoint/quote?` plus the query, and follows the quote success/failure rule |
| JupiterDex.Swap | Solnet.JupiterSwap/JupiterDex.cs:113-161 | the call posts to `endpoint/swap` a request with the quote verbatim, the defaulted signer and the flags; it succeeds exactly on a 2xx status, a non-null body and a payload the codec accepts, yielding the codec's transaction; a bad status or null body fails with the status code, and a rejected payload fails as rejected |
| JupiterDex.SwapWithDefaults | Solnet.JupiterSwap/JupiterDex.cs:114-160 | with every optional argument omitted, the request is signed by the client's account and all three flags are `true`; a bad status or null body fails with the status code; success yields the codec's transaction and a rejected payload fails as rejected |
| JupiterDex.GetTokens | Solnet.JupiterSwap/JupiterDex.cs:164-200 | only the cache changes; a set cache is returned with no fetch; an unset cache fetches and returns the download, and holds exactly that list afterwards when it is non-null, else the client is unchanged |
| JupiterDex.GetTokensDefault | Solnet.JupiterSwap/JupiterDex.cs:164-167 | with the list type omitted, an unset cache fetches `https://token.jup.ag/strict` and caches that download; a null download returns null and leaves the client unchanged; the account and endpoint are always kept |
| JupiterDex.GetTokenBySymbol | Solnet.JupiterSwap/JupiterDex.cs:203-212 | with a set cache, the call searches the cached list with no fetch; unset, it fetches the `All` list; a null download returns null and leaves the client unchanged; a non-null download is cached exactly and the result is the symbol lookup in it; the account and endpoint are always kept |
| JupiterDex.GetTokenByMint | Solnet.JupiterSwap/JupiterDex.cs:215-221 | with a set cache, the call searches the cached list with no fetch; unset, it fetches the `All` list; a null download returns null and leaves the client unchanged; a non-null download is cached exactly and the result is the mint lookup in it; the account and endpoint are always kept |
| JupiterDex.StrictFetchDecidesLookups | Solnet.JupiterSwap/JupiterDex.cs:164-211 | after a successful `Strict` fetch, a lookup fetches nothing and searches the strict list, although it asks for `All` |
| JupiterDex.SecondCallServedFromCache | Solnet.JupiterSwap/JupiterDex.cs:168-199 | of two calls in a row where the first succeeds, only the first fetches, and both return the same list |

## Left out

- HTTP transport: exceptions from `SendAsync` or `ReadAsStringAsync` are not modelled. Nor is async sequencing, the request headers, or the `HttpClient` itself.
- The race on the cache when two first calls run concurrently is not modelled. Only sequential behaviour is.
- The unused `HttpClient` created at line 170 is dead code and is not modelled.
- Newtonsoft (de)serialisation is not modelled. This includes the serializer settings, the `{"tokens": …}` wrapping, and the shapes of `TokensDocument`, `SwapQuoteAg` and `SwapResponse`. A decode is an `Option` input.
- A malformed body makes the deserializer throw instead of returning null. That exception is not modelled.
- A null `TokensDocument` and a null token list collapse into one `None` download, because the caller sees null either way.
- `Transaction.Deserialize` is a function parameter. A payload it throws on is the `TransactionRejected` failure.
- `PublicKey.ToString()` is an opaque base58 string. `SwapMode.ToString()` is the enum member's name.
- The exception message text is not modelled. A failure carries the integer status code, not the `HttpStatusCode` name in the message.
- `Decimal.Render`: negative amounts are rendered with ASCII `-`, as in the invariant culture. `BigInteger.ToString()` uses the current culture's negative sign, which some cultures write as U+2212.
- `TokenCache.CachedRunIsConstant`: the client hands callers the cached `List` object itself (lines 183-184, 198). A caller that mutates the returned list changes what later calls and lookups see. The model treats the list as a value, so "the cache never changes" holds only when no caller mutates it.
- `GetTokens` decodes the body without checking the status code (lines 172-173). The `download` input therefore also covers error replies: whatever an error body decodes to is what the call caches and returns.
- `Text.Lower`: case-insensitive comparison uses the current culture, but the model folds only ASCII letters. `ToLower` at line 167 is applied only to the two ASCII list-type names.
- Null strings (a null `symbol`, `mint` or registry field) are not modelled. All strings are values.
- `QuoteQuery.QueryRoundTrip`, `QuoteQuery.QueryCarriesArguments`, `QuoteQuery.UrlDeterminesSentArguments`: these assume the mint texts contain no `&`. Base58 text never does, but `PublicKey` rendering is not modelled.
