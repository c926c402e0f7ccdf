/** `GetTokenBySymbol` / `GetTokenByMint` over the list `GetTokens` returned:
    null when there is no list, otherwise LINQ `First` with a case-insensitive
    predicate, which throws when nothing matches. */
module TokenLookup {
  import opened Wrappers
  import opened Models
  import Text

  /** The index of the first element satisfying `p`. */
  function FirstIndex<T>(s: seq<T>, p: T -> bool): (r: Option<nat>)
    ensures r.Some? ==> r.value < |s| && p(s[r.value])
    ensures r.Some? ==> forall j :: 0 <= j < r.value ==> !p(s[j])
    ensures r.None? <==> forall j :: 0 <= j < |s| ==> !p(s[j])
  {
    if |s| == 0 then None
    else if p(s[0]) then Some(0)
    else match FirstIndex(s[1..], p)
      case None => None
      case Some(i) => Some(i + 1)
  }

  /** The first index is the only index that satisfies `p` with nothing
      before it doing so. */
  lemma FirstIndexUnique<T>(s: seq<T>, p: T -> bool, i: nat)
    requires i < |s| && p(s[i])
    requires forall j :: 0 <= j < i ==> !p(s[j])
    ensures FirstIndex(s, p) == Some(i)
  {
  }

  /** `InvalidOperationException` from `First`: no element matched. */
  datatype LookupError = NoMatch

  /** LINQ `First`. */
  function First(ts: seq<TokenData>, p: TokenData -> bool): (r: Result<TokenData, LookupError>)
    ensures r.Failure? <==> forall j :: 0 <= j < |ts| ==> !p(ts[j])
    ensures r.Success? ==> exists i :: 0 <= i < |ts| && ts[i] == r.value && p(ts[i]) && forall j :: 0 <= j < i ==> !p(ts[j])
  {
    match FirstIndex(ts, p)
    case Some(i) => Success(ts[i])
    case None => Failure(NoMatch)
  }

  /** The symbol predicate: `symbol` itself or `"$" + symbol`, ignoring case. */
  predicate SymbolMatches(t: TokenData, symbol: string) {
    Text.EqualsIgnoreCase(t.symbol, symbol) || Text.EqualsIgnoreCase(t.symbol, "$" + symbol)
  }

  predicate MintMatches(t: TokenData, mint: string) {
    Text.EqualsIgnoreCase(t.mint, mint)
  }

  /** `GetTokenBySymbol` once the token list (`None` for null) is known. */
  function FindBySymbol(tokens: Option<seq<TokenData>>, symbol: string): (r: Result<Option<TokenData>, LookupError>)
    ensures tokens.None? ==> r == Success(None)
    ensures tokens.Some? ==> (r.Failure? <==> forall j :: 0 <= j < |tokens.value| ==> !SymbolMatches(tokens.value[j], symbol))
    ensures tokens.Some? && r.Success? ==> r.value.Some?
    ensures tokens.Some? && r.Success? && r.value.Some? ==>
      exists i :: 0 <= i < |tokens.value| && tokens.value[i] == r.value.value && SymbolMatches(tokens.value[i], symbol)
        && forall j :: 0 <= j < i ==> !SymbolMatches(tokens.value[j], symbol)
  {
    match tokens
    case None => Success(None)
    case Some(ts) =>
      match First(ts, t => SymbolMatches(t, symbol))
      case Success(t) => Success(Some(t))
      case Failure(e) => Failure(e)
  }

  /** `GetTokenByMint` once the token list (`None` for null) is known. */
  function FindByMint(tokens: Option<seq<TokenData>>, mint: string): (r: Result<Option<TokenData>, LookupError>)
    ensures tokens.None? ==> r == Success(None)
    ensures tokens.Some? ==> (r.Failure? <==> forall j :: 0 <= j < |tokens.value| ==> !MintMatches(tokens.value[j], mint))
    ensures tokens.Some? && r.Success? ==> r.value.Some?
    ensures tokens.Some? && r.Success? && r.value.Some? ==>
      exists i :: 0 <= i < |tokens.value| && tokens.value[i] == r.value.value && MintMatches(tokens.value[i], mint)
        && forall j :: 0 <= j < i ==> !MintMatches(tokens.value[j], mint)
  {
    match tokens
    case None => Success(None)
    case Some(ts) =>
      match First(ts, t => MintMatches(t, mint))
      case Success(t) => Success(Some(t))
      case Failure(e) => Failure(e)
  }

  /** Symbols that differ only in case look up the same entry. */
  lemma SymbolLookupIgnoresCase(tokens: Option<seq<TokenData>>, s1: string, s2: string)
    requires Text.EqualsIgnoreCase(s1, s2)
    ensures FindBySymbol(tokens, s1) == FindBySymbol(tokens, s2)
  {
  }

  /** Mints that differ only in case look up the same entry. */
  lemma MintLookupIgnoresCase(tokens: Option<seq<TokenData>>, m1: string, m2: string)
    requires Text.EqualsIgnoreCase(m1, m2)
    ensures FindByMint(tokens, m1) == FindByMint(tokens, m2)
  {
  }

  /** Mints are case-insensitively unique within the list. */
  predicate UniqueMints(ts: seq<TokenData>) {
    forall i, j :: 0 <= i < j < |ts| ==> !Text.EqualsIgnoreCase(ts[i].mint, ts[j].mint)
  }

  /** In a list whose mints are unique, looking up an entry's mint finds that entry. */
  lemma MintLookupFindsEntry(ts: seq<TokenData>, i: nat)
    requires UniqueMints(ts)
    requires i < |ts|
    ensures FindByMint(Some(ts), ts[i].mint) == Success(Some(ts[i]))
  {
  }

  /** A `$`-prefixed registry symbol answers the bare symbol, when no earlier
      entry matches. */
  lemma DollarSymbolFound(ts: seq<TokenData>, symbol: string, i: nat)
    requires i < |ts| && ts[i].symbol == "$" + symbol
    requires forall j :: 0 <= j < i ==> !SymbolMatches(ts[j], symbol)
    ensures FindBySymbol(Some(ts), symbol) == Success(Some(ts[i]))
  {
  }

  /** Querying with the `$` form is not the same as querying without it:
      `"$USDC"` matches `$USDC` or `$$USDC`, so it skips a plain `USDC` entry. */
  lemma DollarQueryCanDiffer()
    ensures var usdc := TokenData("m1", "USDC", "USD Coin", 6, None);
      var dollar := TokenData("m2", "$USDC", "Dollar", 6, None);
      && FindBySymbol(Some([usdc, dollar]), "USDC") == Success(Some(usdc))
      && FindBySymbol(Some([usdc, dollar]), "$USDC") == Success(Some(dollar))
  {
    var usdc := TokenData("m1", "USDC", "USD Coin", 6, None);
    var dollar := TokenData("m2", "$USDC", "Dollar", 6, None);
    var ts := [usdc, dollar];
    assert SymbolMatches(ts[0], "USDC");
    FirstIndexUnique(ts, t => SymbolMatches(t, "USDC"), 0);
    assert |Text.Lower("USDC")| == 4 && |Text.Lower("$USDC")| == 5 && |Text.Lower("$" + "$USDC")| == 6;
    assert !SymbolMatches(ts[0], "$USDC");
    assert SymbolMatches(ts[1], "$USDC");
    FirstIndexUnique(ts, t => SymbolMatches(t, "$USDC"), 1);
  }
}
