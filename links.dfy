/** Link resolution: tracking-parameter stripping (`_clean_url`, `clean_url`)
    and bounded redirect following (`_get_final_url`, `get_final_url`), which
    are the same logic in scraper.py, backend/scraper.py and test_url_scraper.py. */
module Links {
  import opened Wrappers
  import opened Strings
  import Query

  /** The six components `urlparse` splits a URL into. */
  datatype Url = Url(scheme: string, netloc: string, path: string, params: string,
                     query: string, fragment: string)

  /** `urlparse` and `urlunparse` of Python's standard library, taken as given.
      `parse` yields None where `urlparse` raises (a malformed IPv6 host). */
  datatype UrlLib = UrlLib(parse: string -> Option<Url>, unparse: Url -> string)

  /** The components `_clean_url` hands back to `urlunparse`: the query is
      rebuilt from the surviving fields and nothing else changes. */
  function Stripped(u: Url): (c: Url)
    ensures c.scheme == u.scheme && c.netloc == u.netloc && c.path == u.path
    ensures c.params == u.params && c.fragment == u.fragment
    ensures Query.ParseQsl(c.query) == Query.Survivors(u.query)
    ensures c.query == [] <==> Query.Survivors(u.query) == []
  {
    Query.CleanQueryParses(u.query);
    u.(query := Query.CleanQuery(u.query))
  }

  /** `_clean_url(url)`: an empty URL gives "", a URL `urlparse` rejects is
      returned as it was, and any other URL is rebuilt from its components
      with the query cleaned. */
  function CleanUrl(lib: UrlLib, url: string): (r: string)
    ensures url == [] ==> r == []
    ensures url != [] && lib.parse(url).None? ==> r == url
    ensures url != [] && lib.parse(url).Some? ==> r == lib.unparse(Stripped(lib.parse(url).value))
  {
    if url == [] then []
    else
      match lib.parse(url)
      case None => url
      case Some(u) => lib.unparse(Stripped(u))
  }

  /** Cleaning a cleaned URL changes nothing, provided `urlparse` reads back
      the components `urlunparse` was given. */
  lemma CleanUrlIdempotent(lib: UrlLib, url: string, u: Url)
    requires url != [] && lib.parse(url) == Some(u)
    requires lib.parse(lib.unparse(Stripped(u))) == Some(Stripped(u))
    ensures CleanUrl(lib, CleanUrl(lib, url)) == CleanUrl(lib, url)
  {
    Query.CleanQueryIdempotent(u.query);
    assert Stripped(Stripped(u)) == Stripped(u);
  }

  // ---------------------------------------------------------------------
  // Redirect following
  // ---------------------------------------------------------------------

  /** The statuses after which the loop follows `Location`. */
  const RedirectStatuses: set<int> := {301, 302, 303, 307, 308}

  /** The default `max_redirects`. */
  const DefaultMaxRedirects: int := 5

  datatype Response = Response(status: int, location: Option<string>)

  /** What `requests.get(url, allow_redirects=False)` does: raise an
      `SSLError`, raise another exception, or answer. */
  datatype Outcome = SslError | OtherError | Answered(response: Response)

  predicate IsAbsolute(location: string)
  {
    StartsWith(location, "http://") || StartsWith(location, "https://")
  }

  /** The code's rule for a relative `Location`: prefix `scheme://netloc` of
      the current URL (not reference resolution as in RFC 3986). */
  function Resolve(current: Url, location: string): string
  {
    current.scheme + "://" + current.netloc + location
  }

  /** What one pass of the loop body does with `current`. */
  datatype Step = Stop | Fail | Next(url: string)

  function Hop(lib: UrlLib, fetch: string -> Outcome, current: string): Step
  {
    match fetch(current)
    case SslError => Fail
    case OtherError => Fail
    case Answered(response) =>
      if response.status !in RedirectStatuses then Stop
      else if response.location.None? || response.location.value == [] then Stop
      else if IsAbsolute(response.location.value) then Next(response.location.value)
      else
        match lib.parse(current)
        case None => Fail
        case Some(u) => Next(Resolve(u, response.location.value))
  }

  /** The loop advances only on a redirect status with a non-empty `Location`,
      stops on any other answer, and gives up when a request raises. */
  lemma HopRules(lib: UrlLib, fetch: string -> Outcome, current: string)
    ensures Hop(lib, fetch, current).Next? <==>
      fetch(current).Answered? && fetch(current).response.status in RedirectStatuses &&
      fetch(current).response.location.Some? && fetch(current).response.location.value != [] &&
      (IsAbsolute(fetch(current).response.location.value) || lib.parse(current).Some?)
    ensures Hop(lib, fetch, current).Stop? <==>
      fetch(current).Answered? &&
      (fetch(current).response.status !in RedirectStatuses ||
       fetch(current).response.location.None? || fetch(current).response.location.value == [])
    ensures Hop(lib, fetch, current).Next? && !IsAbsolute(fetch(current).response.location.value) ==>
      Hop(lib, fetch, current).url == Resolve(lib.parse(current).value, fetch(current).response.location.value)
    ensures Hop(lib, fetch, current).Next? && IsAbsolute(fetch(current).response.location.value) ==>
      Hop(lib, fetch, current).url == fetch(current).response.location.value
  {
  }

  /** The URLs requested from `current` on with `budget` hops left, and the
      URL the loop ends on (None when an exception ends it). */
  datatype Chase = Chase(requested: seq<string>, last: Option<string>)

  function Follow(lib: UrlLib, fetch: string -> Outcome, current: string, budget: nat): (c: Chase)
    ensures |c.requested| <= budget
    ensures budget > 0 <==> c.requested != []
    ensures c.requested != [] ==> c.requested[0] == current
    decreases budget
  {
    if budget == 0 then Chase([], Some(current))
    else
      match Hop(lib, fetch, current)
      case Stop => Chase([current], Some(current))
      case Fail => Chase([current], None)
      case Next(u) =>
        var rest := Follow(lib, fetch, u, budget - 1);
        Chase([current] + rest.requested, rest.last)
  }

  function Budget(maxRedirects: int): nat
  {
    if maxRedirects > 0 then maxRedirects else 0
  }

  /** What `_get_final_url(url, max_redirects)` returns. */
  function FinalUrl(lib: UrlLib, fetch: string -> Outcome, url: string, maxRedirects: int): string
  {
    if url == [] then []
    else
      match Follow(lib, fetch, url, Budget(maxRedirects)).last
      case None => url
      case Some(u) => CleanUrl(lib, u)
  }

  /** The URLs `_get_final_url(url, max_redirects)` requests, in order. */
  function Requests(lib: UrlLib, fetch: string -> Outcome, url: string, maxRedirects: int): seq<string>
  {
    if url == [] then [] else Follow(lib, fetch, url, Budget(maxRedirects)).requested
  }

  /** A hop that redirects moves the loop to the next URL: the chase from
      `url` is `before`, then `current`, then the chase from the target. */
  lemma FollowAdvances(lib: UrlLib, fetch: string -> Outcome, url: string, budget: nat,
                       before: seq<string>, current: string, left: nat)
    requires left > 0 && Hop(lib, fetch, current).Next?
    requires Follow(lib, fetch, url, budget).requested == before + Follow(lib, fetch, current, left).requested
    requires Follow(lib, fetch, url, budget).last == Follow(lib, fetch, current, left).last
    ensures Follow(lib, fetch, url, budget).requested ==
      (before + [current]) + Follow(lib, fetch, Hop(lib, fetch, current).url, left - 1).requested
    ensures Follow(lib, fetch, url, budget).last == Follow(lib, fetch, Hop(lib, fetch, current).url, left - 1).last
  {
    var rest := Follow(lib, fetch, Hop(lib, fetch, current).url, left - 1);
    assert Follow(lib, fetch, current, left) == Chase([current] + rest.requested, rest.last);
    assert before + ([current] + rest.requested) == (before + [current]) + rest.requested;
  }

  /** A hop that does not redirect ends the chase from `url` after `current`. */
  lemma FollowHalts(lib: UrlLib, fetch: string -> Outcome, url: string, budget: nat,
                    before: seq<string>, current: string, left: nat)
    requires left > 0 && !Hop(lib, fetch, current).Next?
    requires Follow(lib, fetch, url, budget).requested == before + Follow(lib, fetch, current, left).requested
    requires Follow(lib, fetch, url, budget).last == Follow(lib, fetch, current, left).last
    ensures Follow(lib, fetch, url, budget).requested == before + [current]
    ensures Follow(lib, fetch, url, budget).last ==
      if Hop(lib, fetch, current).Stop? then Some(current) else None
  {
  }

  /** `_get_final_url`: the redirect loop over `current_url` and `redirect_count`. */
  method GetFinalUrl(lib: UrlLib, fetch: string -> Outcome, url: string, maxRedirects: int)
    returns (finalUrl: string, ghost requested: seq<string>)
    ensures finalUrl == FinalUrl(lib, fetch, url, maxRedirects)
    ensures requested == Requests(lib, fetch, url, maxRedirects)
    ensures |requested| <= Budget(maxRedirects)
    ensures url == [] ==> finalUrl == [] && requested == []
  {
    requested := [];
    if url == [] {
      return [], requested;
    }
    ghost var budget := Budget(maxRedirects);
    var currentUrl := url;
    var redirectCount := 0;
    while redirectCount < maxRedirects
      invariant 0 <= redirectCount <= budget
      invariant |requested| == redirectCount
      invariant Follow(lib, fetch, url, budget).requested ==
        requested + Follow(lib, fetch, currentUrl, budget - redirectCount).requested
      invariant Follow(lib, fetch, url, budget).last ==
        Follow(lib, fetch, currentUrl, budget - redirectCount).last
      decreases maxRedirects - redirectCount
    {
      ghost var before := requested;
      ghost var left := budget - redirectCount;
      var outcome := fetch(currentUrl);
      requested := requested + [currentUrl];
      if outcome.SslError? {
        // the per-hop `except requests.exceptions.SSLError` of backend/scraper.py
        FollowHalts(lib, fetch, url, budget, before, currentUrl, left);
        return url, requested;
      } else if outcome.OtherError? {
        // the outer `except Exception`
        FollowHalts(lib, fetch, url, budget, before, currentUrl, left);
        return url, requested;
      }
      var response := outcome.response;
      if response.status in RedirectStatuses {
        var location := response.location;
        if location.None? || location.value == [] {
          FollowHalts(lib, fetch, url, budget, before, currentUrl, left);
          break;
        }
        var newUrl := location.value;
        if !IsAbsolute(newUrl) {
          var parsed := lib.parse(currentUrl);
          if parsed.None? {
            FollowHalts(lib, fetch, url, budget, before, currentUrl, left);
            return url, requested;
          }
          newUrl := parsed.value.scheme + "://" + parsed.value.netloc + newUrl;
        }
        assert Hop(lib, fetch, currentUrl) == Next(newUrl);
        FollowAdvances(lib, fetch, url, budget, before, currentUrl, left);
        currentUrl := newUrl;
        redirectCount := redirectCount + 1;
      } else {
        FollowHalts(lib, fetch, url, budget, before, currentUrl, left);
        break;
      }
    }
    finalUrl := CleanUrl(lib, currentUrl);
  }

  // ---------------------------------------------------------------------
  // What the follower promises
  // ---------------------------------------------------------------------

  /** Each request after the first is the URL the previous hop redirected to;
      the chase ends on a failure, on a non-redirect answer, or when the
      budget is spent. */
  lemma {:induction false} FollowChain(lib: UrlLib, fetch: string -> Outcome, current: string, budget: nat)
    ensures var c := Follow(lib, fetch, current, budget);
      forall i | 0 <= i < |c.requested| - 1 :: Hop(lib, fetch, c.requested[i]) == Next(c.requested[i + 1])
    ensures var c := Follow(lib, fetch, current, budget);
      c.last.None? ==> c.requested != [] && Hop(lib, fetch, c.requested[|c.requested| - 1]) == Fail
    ensures var c := Follow(lib, fetch, current, budget);
      c.last.Some? && |c.requested| < budget ==>
        c.requested != [] && c.last.value == c.requested[|c.requested| - 1] &&
        Hop(lib, fetch, c.last.value) == Stop
    ensures var c := Follow(lib, fetch, current, budget);
      c.last.Some? && 0 < |c.requested| == budget ==>
        Hop(lib, fetch, c.requested[budget - 1]) in {Stop, Next(c.last.value)}
    decreases budget
  {
    if budget > 0 {
      match Hop(lib, fetch, current)
      case Stop =>
      case Fail =>
      case Next(u) =>
        FollowChain(lib, fetch, u, budget - 1);
        var rest := Follow(lib, fetch, u, budget - 1);
        var c := Follow(lib, fetch, current, budget);
        assert c.requested == [current] + rest.requested;
        forall i | 0 <= i < |c.requested| - 1
          ensures Hop(lib, fetch, c.requested[i]) == Next(c.requested[i + 1])
        {
          if i > 0 {
            assert c.requested[i] == rest.requested[i - 1];
          }
        }
    }
  }

  /** A URL that keeps redirecting is followed for exactly `max_redirects`
      requests. */
  lemma {:induction false} EndlessRedirectsSpendBudget(lib: UrlLib, fetch: string -> Outcome, current: string, budget: nat)
    requires forall u :: Hop(lib, fetch, u).Next?
    ensures |Follow(lib, fetch, current, budget).requested| == budget
    ensures Follow(lib, fetch, current, budget).last.Some?
    decreases budget
  {
    if budget > 0 {
      EndlessRedirectsSpendBudget(lib, fetch, Hop(lib, fetch, current).url, budget - 1);
    }
  }

  /** The final URL is the input itself on any failure, and otherwise the
      cleaned form of the URL the chase stopped on; an empty input makes no
      request. */
  lemma FinalUrlCases(lib: UrlLib, fetch: string -> Outcome, url: string, maxRedirects: int)
    ensures url == [] ==>
      FinalUrl(lib, fetch, url, maxRedirects) == [] && Requests(lib, fetch, url, maxRedirects) == []
    ensures url != [] ==> |Requests(lib, fetch, url, maxRedirects)| <= Budget(maxRedirects)
    ensures url != [] && maxRedirects > 0 ==> Requests(lib, fetch, url, maxRedirects)[0] == url
    ensures url != [] && Follow(lib, fetch, url, Budget(maxRedirects)).last.None? ==>
      FinalUrl(lib, fetch, url, maxRedirects) == url
    ensures url != [] && maxRedirects <= 0 ==> FinalUrl(lib, fetch, url, maxRedirects) == CleanUrl(lib, url)
  {
  }
}
