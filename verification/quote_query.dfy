/** The quote request URL that `GetSwapQuote` builds: five fixed `key=value`
    pairs joined with `&` after `endpoint + "/quote?"`. Values are not escaped. */
module QuoteQuery {
  import opened Wrappers
  import opened Models
  import Text
  import Decimal

  /** The arguments of `GetSwapQuote`. */
  datatype QuoteArgs = QuoteArgs(
    inputMint: PublicKey,
    outputMint: PublicKey,
    amount: int,
    swapMode: SwapMode,
    slippageBps: Option<UShort>,
    excludeDexes: Option<seq<string>>,
    onlyDirectRoutes: bool,
    platformFeeBps: Option<UShort>,
    maxAccounts: Option<UShort>)

  /** A call that leaves every optional argument at its declared default. */
  function DefaultArgs(inputMint: PublicKey, outputMint: PublicKey, amount: int): (a: QuoteArgs)
    ensures a.inputMint == inputMint && a.outputMint == outputMint && a.amount == amount
    ensures a.swapMode == ExactIn && !a.onlyDirectRoutes
    ensures a.slippageBps.None? && a.excludeDexes.None? && a.platformFeeBps.None? && a.maxAccounts.None?
  {
    QuoteArgs(inputMint, outputMint, amount, ExactIn, None, None, false, None, None)
  }

  /** The keys sent, in order. */
  const InputMintKey := "inputMint"
  const OutputMintKey := "outputMint"
  const AmountKey := "amount"
  const SwapModeKey := "swapMode"
  const LegacyKey := "asLegacyTransaction"
  const SentKeys: seq<string> := [InputMintKey, OutputMintKey, AmountKey, SwapModeKey, LegacyKey]

  /** Parameter names the aggregator understands and the client accepts as
      arguments, but never sends. */
  const IgnoredKeys: seq<string> := ["slippageBps", "excludeDexes", "onlyDirectRoutes", "platformFeeBps", "maxAccounts"]

  function QueryPairs(a: QuoteArgs): seq<(string, string)> {
    [ (InputMintKey, a.inputMint.base58),
      (OutputMintKey, a.outputMint.base58),
      (AmountKey, Decimal.Render(a.amount)),
      (SwapModeKey, SwapModeName(a.swapMode)),
      (LegacyKey, "true") ]
  }

  function EncodePair(p: (string, string)): string {
    p.0 + "=" + p.1
  }

  /** The `Select(kv => $"{kv.Key}={kv.Value}")` step. */
  function EncodePairs(ps: seq<(string, string)>): (items: seq<string>)
    ensures |items| == |ps|
    ensures forall i :: 0 <= i < |ps| ==> items[i] == EncodePair(ps[i])
  {
    if |ps| == 0 then [] else [EncodePair(ps[0])] + EncodePairs(ps[1..])
  }

  function QueryString(a: QuoteArgs): string {
    Text.Join(EncodePairs(QueryPairs(a)), '&')
  }

  function QuoteUrl(endpoint: string, a: QuoteArgs): string {
    endpoint + "/quote?" + QueryString(a)
  }

  /** How a server reads a query string back into its pairs. */
  function ParseQuery(q: string): seq<(string, string)> {
    var items := Text.Split(q, '&');
    seq(|items|, i requires 0 <= i < |items| => Text.SplitPair(items[i]))
  }

  /** The pairs the aggregator reads from the query of a call. */
  function Received(a: QuoteArgs): seq<(string, string)> {
    ParseQuery(QueryString(a))
  }

  /** The value of the first pair with the given key. */
  function Lookup(ps: seq<(string, string)>, key: string): Option<string> {
    if |ps| == 0 then None
    else if ps[0].0 == key then Some(ps[0].1)
    else Lookup(ps[1..], key)
  }

  /** A key whose base58 text cannot break the query apart. Real base58
      addresses never contain `&`. */
  predicate QuerySafe(k: PublicKey) {
    '&' !in k.base58
  }

  /** The five encoded items. */
  lemma EncodedItems(a: QuoteArgs)
    ensures EncodePairs(QueryPairs(a)) == [
      InputMintKey + "=" + a.inputMint.base58,
      OutputMintKey + "=" + a.outputMint.base58,
      AmountKey + "=" + Decimal.Render(a.amount),
      SwapModeKey + "=" + SwapModeName(a.swapMode),
      LegacyKey + "=" + "true"]
  {
    var ps := QueryPairs(a);
    var items := EncodePairs(ps);
    assert |items| == 5;
    assert items[0] == EncodePair(ps[0]);
    assert items[1] == EncodePair(ps[1]);
    assert items[2] == EncodePair(ps[2]);
    assert items[3] == EncodePair(ps[3]);
    assert items[4] == EncodePair(ps[4]);
  }

  /** The query string is exactly the five pairs, in the source's order. */
  lemma QueryStringShape(a: QuoteArgs)
    ensures QueryString(a) ==
      (InputMintKey + "=" + a.inputMint.base58) + "&" +
      (OutputMintKey + "=" + a.outputMint.base58) + "&" +
      (AmountKey + "=" + Decimal.Render(a.amount)) + "&" +
      (SwapModeKey + "=" + SwapModeName(a.swapMode)) + "&" +
      (LegacyKey + "=" + "true")
  {
    var items := EncodePairs(QueryPairs(a));
    EncodedItems(a);
    Text.JoinFive(items, '&');
    assert QueryString(a) == items[0] + "&" + items[1] + "&" + items[2] + "&" + items[3] + "&" + items[4];
  }

  /** Whatever the arguments, the query ends in the legacy-format flag. */
  lemma LegacyFlagAlwaysSent(a: QuoteArgs)
    ensures |QueryString(a)| >= 25
    ensures QueryString(a)[|QueryString(a)| - 25..] == "&asLegacyTransaction=true"
  {
    QueryStringShape(a);
    var front :=
      (InputMintKey + "=" + a.inputMint.base58) + "&" +
      (OutputMintKey + "=" + a.outputMint.base58) + "&" +
      (AmountKey + "=" + Decimal.Render(a.amount)) + "&" +
      (SwapModeKey + "=" + SwapModeName(a.swapMode));
    var flag := "&" + (LegacyKey + "=" + "true");
    assert QueryString(a) == front + flag;
    assert |flag| == 25 && flag == "&asLegacyTransaction=true";
    assert (front + flag)[|front|..] == flag;
  }

  /** Pairs whose keys hold neither separator and whose values hold no `&`. */
  predicate PlainPairs(ps: seq<(string, string)>) {
    forall i :: 0 <= i < |ps| ==> '=' !in ps[i].0 && '&' !in ps[i].0 && '&' !in ps[i].1
  }

  /** Parsing the joined encoding of plain pairs gives the pairs back. */
  lemma ParseEncoded(ps: seq<(string, string)>)
    requires |ps| > 0 && PlainPairs(ps)
    ensures ParseQuery(Text.Join(EncodePairs(ps), '&')) == ps
  {
    var items := EncodePairs(ps);
    forall i | 0 <= i < |items|
      ensures '&' !in items[i]
    {
    }
    Text.SplitJoin(items, '&');
    forall i | 0 <= i < |ps|
      ensures Text.SplitPair(items[i]) == ps[i]
    {
      Text.SplitPairOf(ps[i].0, ps[i].1);
    }
  }

  /** The pairs of a call with `&`-free mints are plain. */
  lemma QueryPairsPlain(a: QuoteArgs)
    requires QuerySafe(a.inputMint) && QuerySafe(a.outputMint)
    ensures PlainPairs(QueryPairs(a))
  {
    var ps := QueryPairs(a);
    Decimal.RenderHasNoSeparators(a.amount);
    assert forall i :: 0 <= i < 5 ==> '=' !in ps[i].0 && '&' !in ps[i].0;
    assert '&' !in ps[3].1 && '&' !in ps[4].1;
  }

  /** Parsing the query gives back exactly the five pairs. */
  lemma QueryRoundTrip(a: QuoteArgs)
    requires QuerySafe(a.inputMint) && QuerySafe(a.outputMint)
    ensures ParseQuery(QueryString(a)) == QueryPairs(a)
  {
    QueryPairsPlain(a);
    ParseEncoded(QueryPairs(a));
  }

  /** The pairs carry the sent keys, in order. */
  lemma PairKeys(a: QuoteArgs)
    ensures |QueryPairs(a)| == |SentKeys|
    ensures forall i :: 0 <= i < |SentKeys| ==> QueryPairs(a)[i].0 == SentKeys[i]
  {
  }

  /** `Lookup` finds the first pair carrying the key. */
  lemma {:induction false} LookupFirst(ps: seq<(string, string)>, key: string, i: nat)
    requires i < |ps| && ps[i].0 == key
    requires forall j :: 0 <= j < i ==> ps[j].0 != key
    ensures Lookup(ps, key) == Some(ps[i].1)
  {
    if i > 0 {
      LookupFirst(ps[1..], key, i - 1);
    }
  }

  /** `Lookup` finds nothing when no pair carries the key. */
  lemma {:induction false} LookupAbsent(ps: seq<(string, string)>, key: string)
    requires forall j :: 0 <= j < |ps| ==> ps[j].0 != key
    ensures Lookup(ps, key).None?
  {
    if |ps| > 0 {
      LookupAbsent(ps[1..], key);
    }
  }

  /** Each sent key finds its argument, and no ignored key is present. */
  lemma PairsLookup(a: QuoteArgs)
    ensures Lookup(QueryPairs(a), InputMintKey) == Some(a.inputMint.base58)
    ensures Lookup(QueryPairs(a), OutputMintKey) == Some(a.outputMint.base58)
    ensures Lookup(QueryPairs(a), AmountKey) == Some(Decimal.Render(a.amount))
    ensures Lookup(QueryPairs(a), SwapModeKey) == Some(SwapModeName(a.swapMode))
    ensures Lookup(QueryPairs(a), LegacyKey) == Some("true")
    ensures forall k :: k in IgnoredKeys ==> Lookup(QueryPairs(a), k).None?
  {
    var ps := QueryPairs(a);
    assert forall j, k :: 0 <= j < k < 5 ==> |ps[j].0| != |ps[k].0|;
    LookupFirst(ps, InputMintKey, 0);
    LookupFirst(ps, OutputMintKey, 1);
    LookupFirst(ps, AmountKey, 2);
    LookupFirst(ps, SwapModeKey, 3);
    LookupFirst(ps, LegacyKey, 4);
    forall k | k in IgnoredKeys
      ensures Lookup(ps, k).None?
    {
      assert forall j :: 0 <= j < 5 ==> |ps[j].0| != |k|;
      LookupAbsent(ps, k);
    }
  }

  /** What the aggregator reads from the URL: each argument that is sent, under
      its key, the amount reading back as the very integer given; the legacy
      flag set; and none of the optional arguments, whatever their values. */
  lemma QueryCarriesArguments(a: QuoteArgs)
    requires QuerySafe(a.inputMint) && QuerySafe(a.outputMint)
    ensures |Received(a)| == |SentKeys|
    ensures forall i :: 0 <= i < |Received(a)| ==> Received(a)[i].0 == SentKeys[i]
    ensures Lookup(Received(a), InputMintKey) == Some(a.inputMint.base58)
    ensures Lookup(Received(a), OutputMintKey) == Some(a.outputMint.base58)
    ensures Lookup(Received(a), AmountKey).Some?
    ensures Decimal.Parse(Lookup(Received(a), AmountKey).value) == Some(a.amount)
    ensures Lookup(Received(a), SwapModeKey) == Some(SwapModeName(a.swapMode))
    ensures Lookup(Received(a), LegacyKey) == Some("true")
    ensures forall k :: k in IgnoredKeys ==> Lookup(Received(a), k).None?
  {
    QueryRoundTrip(a);
    PairKeys(a);
    PairsLookup(a);
    Decimal.RenderRoundTrip(a.amount);
  }

  /** The optional arguments never influence the request URL. */
  lemma OptionalArgumentsIgnored(endpoint: string, a: QuoteArgs, b: QuoteArgs)
    requires a.inputMint == b.inputMint && a.outputMint == b.outputMint
    requires a.amount == b.amount && a.swapMode == b.swapMode
    ensures QuoteUrl(endpoint, a) == QuoteUrl(endpoint, b)
  {
  }

  /** Conversely the URL determines every argument that is sent. */
  lemma UrlDeterminesSentArguments(endpoint: string, a: QuoteArgs, b: QuoteArgs)
    requires QuerySafe(a.inputMint) && QuerySafe(a.outputMint)
    requires QuerySafe(b.inputMint) && QuerySafe(b.outputMint)
    requires QuoteUrl(endpoint, a) == QuoteUrl(endpoint, b)
    ensures a.inputMint == b.inputMint && a.outputMint == b.outputMint
    ensures a.amount == b.amount && a.swapMode == b.swapMode
  {
    var prefix := endpoint + "/quote?";
    assert QueryString(a) == QuoteUrl(endpoint, a)[|prefix|..];
    assert QueryString(b) == QuoteUrl(endpoint, b)[|prefix|..];
    QueryRoundTrip(a);
    QueryRoundTrip(b);
    assert QueryPairs(a) == QueryPairs(b);
    Decimal.RenderInjective(a.amount, b.amount);
  }
}
