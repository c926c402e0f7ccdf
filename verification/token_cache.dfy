/** The one-slot token-list cache of `GetTokens`. The slot is either unset or
    holds the list of the first successful fetch; once set it is returned for
    every later call, whatever list type that call asks for. */
module TokenCache {
  import opened Wrappers
  import opened Models
  import Text

  const TokenListHost := "https://token.jup.ag/"

  /** The URL fetched for a list type: the host, then the type's lower-cased name. */
  function TokenListUrl(t: TokenListType): string {
    TokenListHost + Text.Lower(TokenListTypeName(t))
  }

  datatype Cache = Unset | Cached(tokens: seq<TokenData>)

  /** One `GetTokens` call: the cache afterwards, the list returned (`None` for
      null) and the URL fetched, if a fetch was made. */
  datatype TokensCall = TokensCall(cache: Cache, result: Option<seq<TokenData>>, request: Option<string>)

  /** `GetTokens(listType)` on `cache`. `download` is what the fetch decodes to
      if one is made: `None` when the document or its token list is null. */
  function GetTokens(cache: Cache, listType: TokenListType, download: Option<seq<TokenData>>): (c: TokensCall)
    ensures cache.Cached? ==> c.cache == cache && c.result == Some(cache.tokens) && c.request.None?
    ensures cache.Unset? ==> c.request == Some(TokenListUrl(listType)) && c.result == download
    ensures c.result.Some? <==> c.cache.Cached?
    ensures c.cache.Cached? ==> c.result == Some(c.cache.tokens)
  {
    match cache
    case Cached(ts) => TokensCall(cache, Some(ts), None)
    case Unset =>
      match download
      case Some(ts) => TokensCall(Cached(ts), Some(ts), Some(TokenListUrl(listType)))
      case None => TokensCall(Unset, None, Some(TokenListUrl(listType)))
  }

  /** The two list URLs. */
  lemma TokenListUrls()
    ensures TokenListUrl(Strict) == "https://token.jup.ag/strict"
    ensures TokenListUrl(All) == "https://token.jup.ag/all"
  {
    var strict := Text.Lower("Strict");
    assert strict[0] == 's' && strict[1..] == "trict";
    var all := Text.Lower("All");
    assert all[0] == 'a' && all[1..] == "ll";
  }

  /** One call of a sequence: the list type asked for and what a fetch would decode to. */
  datatype Call = Call(listType: TokenListType, download: Option<seq<TokenData>>)

  /** A sequence of calls: the final cache, each call's result and every URL fetched. */
  datatype Trace = Trace(cache: Cache, results: seq<Option<seq<TokenData>>>, requests: seq<string>)

  function Run(cache: Cache, calls: seq<Call>): (t: Trace)
    ensures |t.results| == |calls|
    ensures |t.requests| <= |calls|
    decreases |calls|
  {
    if |calls| == 0 then Trace(cache, [], [])
    else
      var c := GetTokens(cache, calls[0].listType, calls[0].download);
      var rest := Run(c.cache, calls[1..]);
      var fetched := if c.request.Some? then [c.request.value] else [];
      Trace(rest.cache, [c.result] + rest.results, fetched + rest.requests)
  }

  /** The number of calls before the first whose fetch would succeed. */
  function LeadingFailures(calls: seq<Call>): (k: nat)
    ensures k <= |calls|
    ensures forall i :: 0 <= i < k ==> calls[i].download.None?
    ensures k < |calls| ==> calls[k].download.Some?
  {
    if |calls| == 0 || calls[0].download.Some? then 0 else 1 + LeadingFailures(calls[1..])
  }

  /** Once set, the cache never changes, no call fetches, and every call
      returns the cached list, whichever list type it asks for. */
  lemma {:induction false} CachedRunIsConstant(ts: seq<TokenData>, calls: seq<Call>)
    ensures Run(Cached(ts), calls).cache == Cached(ts)
    ensures Run(Cached(ts), calls).requests == []
    ensures forall i :: 0 <= i < |calls| ==> Run(Cached(ts), calls).results[i] == Some(ts)
    decreases |calls|
  {
    if |calls| > 0 {
      CachedRunIsConstant(ts, calls[1..]);
    }
  }

  /** From an unset cache, each call fetches its list type's URL up to and
      including the first whose download succeeds, and no later call fetches. */
  lemma {:induction false} FetchesUntilFirstSuccess(calls: seq<Call>)
    ensures |Run(Unset, calls).requests| ==
      (if LeadingFailures(calls) < |calls| then LeadingFailures(calls) + 1 else |calls|)
    ensures forall i :: 0 <= i < |Run(Unset, calls).requests| ==>
      Run(Unset, calls).requests[i] == TokenListUrl(calls[i].listType)
    decreases |calls|
  {
    if |calls| > 0 {
      var url := TokenListUrl(calls[0].listType);
      if calls[0].download.Some? {
        var rest := Run(Cached(calls[0].download.value), calls[1..]);
        assert Run(Unset, calls).requests == [url] + rest.requests;
        CachedRunIsConstant(calls[0].download.value, calls[1..]);
      } else {
        FetchesUntilFirstSuccess(calls[1..]);
        FetchedAfterFailure(calls);
      }
    }
  }

  /** One step of the proof above: a failed first fetch is followed by the
      fetches of the remaining calls. */
  lemma FetchedAfterFailure(calls: seq<Call>)
    requires |calls| > 0 && calls[0].download.None?
    requires forall i :: 0 <= i < |Run(Unset, calls[1..]).requests| ==>
      Run(Unset, calls[1..]).requests[i] == TokenListUrl(calls[1..][i].listType)
    ensures forall i :: 0 <= i < |Run(Unset, calls).requests| ==>
      Run(Unset, calls).requests[i] == TokenListUrl(calls[i].listType)
  {
    var rest := Run(Unset, calls[1..]).requests;
    assert Run(Unset, calls).requests == [TokenListUrl(calls[0].listType)] + rest;
    UrlsShift(calls, rest);
  }

  /** Prefixing the first call's URL to URLs that follow the remaining calls
      gives URLs that follow all the calls. */
  lemma UrlsShift(calls: seq<Call>, rest: seq<string>)
    requires |rest| < |calls|
    requires forall i :: 0 <= i < |rest| ==> rest[i] == TokenListUrl(calls[1..][i].listType)
    ensures forall i :: 0 <= i < |[TokenListUrl(calls[0].listType)] + rest| ==>
      ([TokenListUrl(calls[0].listType)] + rest)[i] == TokenListUrl(calls[i].listType)
  {
    var r := [TokenListUrl(calls[0].listType)] + rest;
    forall i | 1 <= i < |r|
      ensures r[i] == TokenListUrl(calls[i].listType)
    {
      assert r[i] == rest[i - 1];
      assert calls[1..][i - 1] == calls[i];
    }
  }

  /** From an unset cache, calls return null until the first whose download
      succeeds; if none does, the cache stays unset. */
  lemma {:induction false} NullUntilFirstSuccess(calls: seq<Call>)
    ensures forall i :: 0 <= i < LeadingFailures(calls) ==> Run(Unset, calls).results[i].None?
    ensures LeadingFailures(calls) == |calls| ==> Run(Unset, calls).cache == Unset
    decreases |calls|
  {
    if |calls| > 0 && calls[0].download.None? {
      var rest := Run(Unset, calls[1..]);
      assert Run(Unset, calls).results == [None] + rest.results;
      NullUntilFirstSuccess(calls[1..]);
    }
  }

  /** From the first call whose download succeeds, the cache holds that list
      and every call returns it. */
  lemma {:induction false} ListFromFirstSuccess(calls: seq<Call>)
    requires LeadingFailures(calls) < |calls|
    ensures Run(Unset, calls).cache == Cached(calls[LeadingFailures(calls)].download.value)
    ensures forall i :: LeadingFailures(calls) <= i < |calls| ==>
      Run(Unset, calls).results[i] == calls[LeadingFailures(calls)].download
    decreases |calls|
  {
    var t := Run(Unset, calls);
    if calls[0].download.Some? {
      var ts := calls[0].download.value;
      var rest := Run(Cached(ts), calls[1..]);
      assert t.results == [Some(ts)] + rest.results;
      CachedRunIsConstant(ts, calls[1..]);
    } else {
      var rest := Run(Unset, calls[1..]);
      assert t.results == [None] + rest.results;
      ListFromFirstSuccess(calls[1..]);
      assert calls[1..][LeadingFailures(calls[1..])] == calls[LeadingFailures(calls)];
    }
  }

  /** From an unset cache: every call fetches, and returns null, until the first
      whose fetch succeeds; that call's list is cached and returned by it and by
      every later call, none of which fetches again. */
  lemma FirstSuccessfulFetchWins(calls: seq<Call>)
    ensures var t := Run(Unset, calls); var k := LeadingFailures(calls);
      && (forall i :: 0 <= i < k ==> t.results[i].None?)
      && (forall i :: 0 <= i < |t.requests| ==> t.requests[i] == TokenListUrl(calls[i].listType))
      && (k == |calls| ==> t.cache == Unset && |t.requests| == |calls|)
      && (k < |calls| ==> t.cache == Cached(calls[k].download.value) && |t.requests| == k + 1)
      && (forall i :: k <= i < |calls| ==> t.results[i] == calls[k].download)
  {
    FetchesUntilFirstSuccess(calls);
    NullUntilFirstSuccess(calls);
    if LeadingFailures(calls) < |calls| {
      ListFromFirstSuccess(calls);
    }
  }
}
