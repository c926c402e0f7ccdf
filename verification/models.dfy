/** The records the client passes around. Their JSON shapes belong to the
    (de)serialisation library and are not modelled: a quote and a transaction
    are opaque values here. */
module Models {
  import opened Wrappers

  /** A C# `ushort`. */
  newtype UShort = x: int | 0 <= x < 0x1_0000

  /** A Solana account address, as the base58 text `PublicKey.ToString()` yields. */
  datatype PublicKey = PublicKey(base58: string)

  datatype SwapMode = ExactIn | ExactOut

  /** The enum's `ToString()`. */
  function SwapModeName(m: SwapMode): string {
    match m
    case ExactIn => "ExactIn"
    case ExactOut => "ExactOut"
  }

  /** A decoded quote (`SwapQuoteAg`). Only its identity matters to the client,
      which hands it back to the aggregator verbatim. */
  datatype SwapQuote = SwapQuote(document: string)

  /** A decoded, unsigned transaction. */
  datatype Transaction = Transaction(wire: seq<bv8>)

  /** The decoded body of a swap-build reply: the encoded transaction text. */
  datatype SwapResponse = SwapResponse(swapTransaction: string)

  /** One token registry entry. */
  datatype TokenData = TokenData(mint: string, symbol: string, name: string, decimals: nat, logoUri: Option<string>)

  datatype TokenListType = Strict | All

  function TokenListTypeName(t: TokenListType): string {
    match t
    case Strict => "Strict"
    case All => "All"
  }

  /** `HttpResponseMessage.IsSuccessStatusCode`. */
  predicate IsSuccessStatusCode(status: int) {
    200 <= status <= 299
  }

  /** What the quote and swap calls throw. */
  datatype RequestError =
    | RequestFailed(statusCode: int)   // HttpRequestException, with the reply's status code
    | TransactionRejected              // the transaction codec refused the payload
}
