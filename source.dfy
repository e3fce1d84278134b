/** The API side of the scraper: the error handling of `_make_request` in
    both copies, the weekly query `get_weekly_posts` of scraper.py, the daily
    query `get_posts_by_date` of backend/scraper.py, and the storage reshaping
    of scraper.py's `get_top_products`. The HTTP exchange is an oracle `api`
    from the query's parameters to how the exchange ended; `_get_final_url` is
    the parameter `resolve`. */
module Source {
  import opened Wrappers
  import Strings
  import opened Listing
  import opened Ordering
  import Links

  /** The decoded JSON body; `None` stands for a key that is absent. */
  datatype Edge = Edge(node: Option<PostNode>)
  datatype PostsConnection = PostsConnection(edges: Option<seq<Edge>>)
  datatype DataField = DataField(posts: Option<PostsConnection>)
  datatype GqlError = GqlError(message: Option<string>)
  datatype ApiBody = ApiBody(data: Option<DataField>, errors: Option<seq<GqlError>>)

  /** How one `requests.post` ends: a `RequestException` (including the one
      `raise_for_status` raises), a body that does not decode as JSON, or a
      decoded body. */
  datatype HttpOutcome = RequestFailed(reason: string) | BadJson(reason: string) | Delivered(body: ApiBody)

  const UnknownError: string := "Unknown error"
  const GraphQlPrefix: string := "GraphQL error: "
  const RequestFailedPrefix: string := "API request failed: "
  const BadJsonPrefix: string := "Failed to parse API response: "

  /** `[err.get("message", "Unknown error") for err in result["errors"]]`. */
  function ErrorMessages(errs: seq<GqlError>): (msgs: seq<string>)
    ensures |msgs| == |errs|
    ensures forall i | 0 <= i < |errs| ::
      (errs[i].message.Some? ==> msgs[i] == errs[i].message.value) &&
      (errs[i].message.None? ==> msgs[i] == UnknownError)
  {
    if errs == [] then [] else [errs[0].message.GetOr(UnknownError)] + ErrorMessages(errs[1..])
  }

  function GraphQlError(errs: seq<GqlError>): string
  {
    GraphQlPrefix + Strings.Join(ErrorMessages(errs), "; ")
  }

  /** scraper.py's `_make_request`: the body when it carries no `errors` key,
      otherwise the `ProductHuntError` message. */
  function MakeRequest(o: HttpOutcome): (r: Result<ApiBody, string>)
    ensures r.Success? <==> o.Delivered? && o.body.errors.None?
    ensures r.Success? ==> r.value == o.body
    ensures o.Delivered? && o.body.errors.Some? ==>
      r == Failure(GraphQlPrefix + Strings.Join(ErrorMessages(o.body.errors.value), "; "))
  {
    match o
    case RequestFailed(m) => Failure(RequestFailedPrefix + m)
    case BadJson(m) => Failure(BadJsonPrefix + m)
    case Delivered(body) =>
      if body.errors.Some? then Failure(GraphQlError(body.errors.value)) else Success(body)
  }

  /** backend/scraper.py's `_make_request`: a single `except Exception` wraps
      every failure, its own GraphQL error included. */
  function MakeRequestBackend(o: HttpOutcome): (r: Result<ApiBody, string>)
    ensures r.Success? <==> o.Delivered? && o.body.errors.None?
    ensures r.Success? ==> r.value == o.body
    ensures r.Failure? ==> Strings.StartsWith(r.error, RequestFailedPrefix)
  {
    match o
    case RequestFailed(m) => Failure(RequestFailedPrefix + m)
    case BadJson(m) => Failure(RequestFailedPrefix + m)
    case Delivered(body) =>
      if body.errors.Some? then Failure(RequestFailedPrefix + GraphQlError(body.errors.value)) else Success(body)
  }

  /** The two copies succeed on the same outcomes with the same body. Every
      backend failure reads "API request failed: ..."; a GraphQL error is the
      scraper.py message behind that prefix, and a body that is not JSON loses
      its own prefix. */
  lemma BackendWrapsEveryError(o: HttpOutcome)
    ensures MakeRequestBackend(o).Success? <==> MakeRequest(o).Success?
    ensures MakeRequestBackend(o).Success? ==> MakeRequestBackend(o) == MakeRequest(o)
    ensures MakeRequestBackend(o).Failure? ==> Strings.StartsWith(MakeRequestBackend(o).error, RequestFailedPrefix)
    ensures o.RequestFailed? ==> MakeRequestBackend(o) == MakeRequest(o)
    ensures o.Delivered? && o.body.errors.Some? ==>
      MakeRequestBackend(o).error == RequestFailedPrefix + MakeRequest(o).error
    ensures o.BadJson? ==>
      MakeRequest(o).error == BadJsonPrefix + o.reason && MakeRequestBackend(o).error == RequestFailedPrefix + o.reason
  {
  }

  // ---------------------------------------------------------------------
  // Collecting the records of a response
  // ---------------------------------------------------------------------

  const EmptyNode: PostNode :=
    PostNode(None, None, None, None, None, None, None, None, None, None, None, None, None)

  /** `result.get("data", {}).get("posts", {}).get("edges", [])`. */
  function EdgesOf(body: ApiBody): seq<Edge>
  {
    match body.data
    case None => []
    case Some(d) =>
      match d.posts
      case None => []
      case Some(p) => p.edges.GetOr([])
  }

  /** `edge.get("node", {})`. */
  function NodeOf(e: Edge): PostNode
  {
    e.node.GetOr(EmptyNode)
  }

  /** The records `extract` makes of the edges' nodes, in edge order, without
      the `None`s. */
  function Collected<T>(edges: seq<Edge>, extract: PostNode -> Option<T>): (items: seq<T>)
    ensures |items| <= |edges|
  {
    if edges == [] then []
    else
      var last := extract(NodeOf(edges[|edges| - 1]));
      Collected(edges[..|edges| - 1], extract) + (if last.Some? then [last.value] else [])
  }

  /** The append loop over the edges. */
  method Collect<T>(edges: seq<Edge>, extract: PostNode -> Option<T>) returns (items: seq<T>)
    ensures items == Collected(edges, extract)
  {
    items := [];
    for i := 0 to |edges|
      invariant items == Collected(edges[..i], extract)
    {
      var item := extract(NodeOf(edges[i]));
      if item.Some? {
        items := items + [item.value];
      }
      assert edges[..i + 1][..i] == edges[..i];
    }
    assert edges[..|edges|] == edges;
  }

  /** Every collected record is what `extract` made of some edge, and every
      node `extract` accepts contributes its record. */
  lemma {:induction false} CollectedExactly<T>(edges: seq<Edge>, extract: PostNode -> Option<T>)
    ensures forall x | x in Collected(edges, extract) ::
      exists i | 0 <= i < |edges| :: extract(NodeOf(edges[i])) == Some(x)
    ensures forall i | 0 <= i < |edges| && extract(NodeOf(edges[i])).Some? ::
      extract(NodeOf(edges[i])).value in Collected(edges, extract)
  {
    if edges != [] {
      var init := edges[..|edges| - 1];
      CollectedExactly(init, extract);
      forall x | x in Collected(edges, extract)
        ensures exists i | 0 <= i < |edges| :: extract(NodeOf(edges[i])) == Some(x)
      {
        if x in Collected(init, extract) {
          var i :| 0 <= i < |init| && extract(NodeOf(init[i])) == Some(x);
          assert init[i] == edges[i];
        } else {
          assert extract(NodeOf(edges[|edges| - 1])) == Some(x);
        }
      }
      forall i | 0 <= i < |edges| && extract(NodeOf(edges[i])).Some?
        ensures extract(NodeOf(edges[i])).value in Collected(edges, extract)
      {
        if i < |edges| - 1 {
          assert init[i] == edges[i];
        }
      }
    }
  }

  // ---------------------------------------------------------------------
  // get_weekly_posts (scraper.py)
  // ---------------------------------------------------------------------

  /** Why `get_weekly_posts` raised: the week check, the week window that
      `_create_weekly_query` cannot form, or the request. */
  datatype WeeklyError = InvalidWeek(week: int) | BadWindow(year: int, week: int) | RequestError(message: string)

  /** `_create_weekly_query` forms the window from `"{year}-W{week:02d}-1"`
      with `%Y`, which reads exactly four digits, so a year outside
      1000..9999 raises `ValueError`; the window of week 52 of 9999 ends after
      the last representable day and raises `OverflowError`. Every other
      week in 1..52 of those years forms. */
  predicate WindowForms(year: int, week: int)
  {
    1000 <= year <= 9999 && !(year == 9999 && week == 52)
  }

  function VotesOf(p: Post): int { p.votesCount }

  function ExtractPosts(resolve: string -> string): PostNode -> Option<Post>
  {
    node => ExtractPost(resolve, node)
  }

  /** The weekly window: the week is checked before any request; otherwise
      the non-empty nodes' posts, most votes first, cut to `limit`. */
  function WeeklyPosts(api: (int, int) -> HttpOutcome, resolve: string -> string,
                       year: int, week: int, limit: Option<int>): (r: Result<seq<Post>, WeeklyError>)
  {
    if !(1 <= week <= 52) then Failure(InvalidWeek(week))
    else if !WindowForms(year, week) then Failure(BadWindow(year, week))
    else
      match MakeRequest(api(year, week))
      case Failure(m) => Failure(RequestError(m))
      case Success(body) => Success(TopByKey(Collected(EdgesOf(body), ExtractPosts(resolve)), VotesOf, limit))
  }

  method GetWeeklyPosts(api: (int, int) -> HttpOutcome, resolve: string -> string,
                        year: int, week: int, limit: Option<int>) returns (r: Result<seq<Post>, WeeklyError>)
    ensures r == WeeklyPosts(api, resolve, year, week, limit)
  {
    if !(1 <= week <= 52) {
      return Failure(InvalidWeek(week));
    }
    if !WindowForms(year, week) {
      return Failure(BadWindow(year, week));
    }
    var result := MakeRequest(api(year, week));
    if result.Failure? {
      return Failure(RequestError(result.error));
    }
    var edges := EdgesOf(result.value);
    if edges == [] {
      return Success([]);
    }
    var posts := Collect(edges, ExtractPosts(resolve));
    posts := SortDesc(posts, VotesOf);
    r := Success(if limit.None? then posts else Slice(posts, limit.value));
  }

  /** An out-of-range week fails the same way whatever the API would have
      answered: no request is made. */
  lemma InvalidWeekSendsNoRequest(api1: (int, int) -> HttpOutcome, api2: (int, int) -> HttpOutcome,
                                  resolve: string -> string, year: int, week: int, limit: Option<int>)
    requires !(1 <= week <= 52)
    ensures WeeklyPosts(api1, resolve, year, week, limit) == WeeklyPosts(api2, resolve, year, week, limit)
    ensures WeeklyPosts(api1, resolve, year, week, limit) == Failure(InvalidWeek(week))
  {
  }

  /** A valid week whose window cannot be formed fails before any request,
      whatever the API would have answered. */
  lemma BadWindowSendsNoRequest(api1: (int, int) -> HttpOutcome, api2: (int, int) -> HttpOutcome,
                                resolve: string -> string, year: int, week: int, limit: Option<int>)
    requires 1 <= week <= 52 && !WindowForms(year, week)
    ensures WeeklyPosts(api1, resolve, year, week, limit) == WeeklyPosts(api2, resolve, year, week, limit)
    ensures WeeklyPosts(api1, resolve, year, week, limit) == Failure(BadWindow(year, week))
  {
  }

  /** The weekly posts come out most-voted first, every one of them extracted
      from a non-empty node of the response, none more often than the response
      holds it (duplicates are not removed), and no more of them than a
      non-negative `limit`. */
  lemma WeeklyPostsRanked(api: (int, int) -> HttpOutcome, resolve: string -> string,
                          year: int, week: int, limit: Option<int>)
    requires WeeklyPosts(api, resolve, year, week, limit).Success?
    ensures var posts := WeeklyPosts(api, resolve, year, week, limit).value;
      var edges := EdgesOf(api(year, week).body);
      1 <= week <= 52 && 1000 <= year <= 9999 && Descending(posts, VotesOf) &&
      multiset(posts) <= multiset(Collected(edges, ExtractPosts(resolve))) &&
      (forall p | p in posts :: exists i | 0 <= i < |edges| ::
        !NodeOf(edges[i]).IsEmpty() && ExtractPost(resolve, NodeOf(edges[i])) == Some(p)) &&
      (limit.Some? && limit.value >= 0 ==> |posts| <= limit.value)
  {
    var edges := EdgesOf(api(year, week).body);
    var all := Collected(edges, ExtractPosts(resolve));
    TopByKeyOrdered(all, VotesOf, limit);
    PostsFromNonEmptyNodes(resolve, edges, WeeklyPosts(api, resolve, year, week, limit).value);
  }

  /** Whatever is drawn from the collected posts was extracted from a
      non-empty node. */
  lemma PostsFromNonEmptyNodes(resolve: string -> string, edges: seq<Edge>, posts: seq<Post>)
    requires multiset(posts) <= multiset(Collected(edges, ExtractPosts(resolve)))
    ensures forall p | p in posts :: exists i | 0 <= i < |edges| ::
      !NodeOf(edges[i]).IsEmpty() && ExtractPost(resolve, NodeOf(edges[i])) == Some(p)
  {
    forall p | p in posts
      ensures exists i | 0 <= i < |edges| ::
        !NodeOf(edges[i]).IsEmpty() && ExtractPost(resolve, NodeOf(edges[i])) == Some(p)
    {
      DrawnFrom(posts, Collected(edges, ExtractPosts(resolve)), p);
      var i := CollectedFrom(edges, ExtractPosts(resolve), p);
      ExtractedFromNonEmpty(resolve, NodeOf(edges[i]), p);
    }
  }

  lemma ExtractedFromNonEmpty(resolve: string -> string, node: PostNode, p: Post)
    requires ExtractPosts(resolve)(node) == Some(p)
    ensures !node.IsEmpty() && ExtractPost(resolve, node) == Some(p)
  {
  }

  lemma DrawnFrom<T>(a: seq<T>, b: seq<T>, x: T)
    requires multiset(a) <= multiset(b) && x in a
    ensures x in b
  {
    assert x in multiset(a);
  }

  /** The edge a collected record was made from. */
  lemma CollectedFrom<T>(edges: seq<Edge>, extract: PostNode -> Option<T>, x: T) returns (i: nat)
    requires x in Collected(edges, extract)
    ensures i < |edges| && extract(NodeOf(edges[i])) == Some(x)
  {
    CollectedExactly(edges, extract);
    i :| 0 <= i < |edges| && extract(NodeOf(edges[i])) == Some(x);
  }

  // ---------------------------------------------------------------------
  // get_posts_by_date (backend/scraper.py)
  // ---------------------------------------------------------------------

  function UpvotesOf(r: ProductRecord): int { r.upvotes }

  function ExtractRecords(resolve: string -> string): PostNode -> Option<ProductRecord>
  {
    node => ExtractRecord(resolve, node)
  }

  /** The daily window over a date given as a day ordinal: the non-empty
      nodes' records, most upvotes first, cut to `limit`. */
  function PostsByDate(api: int -> HttpOutcome, resolve: string -> string,
                       date: int, limit: int): (r: Result<seq<ProductRecord>, string>)
  {
    match MakeRequestBackend(api(date))
    case Failure(m) => Failure(m)
    case Success(body) => Success(TopByKey(Collected(EdgesOf(body), ExtractRecords(resolve)), UpvotesOf, Some(limit)))
  }

  method GetPostsByDate(api: int -> HttpOutcome, resolve: string -> string,
                        date: int, limit: int) returns (r: Result<seq<ProductRecord>, string>)
    ensures r == PostsByDate(api, resolve, date, limit)
  {
    var result := MakeRequestBackend(api(date));
    if result.Failure? {
      return Failure(result.error);
    }
    var posts := Collect(EdgesOf(result.value), ExtractRecords(resolve));
    posts := SortDesc(posts, UpvotesOf);
    r := Success(Slice(posts, limit));
  }

  /** The daily records come out most-upvoted first, none more often than the
      response holds it, no more of them than a non-negative `limit`, and every failure is reported as
      "API request failed: ...". */
  lemma PostsByDateRanked(api: int -> HttpOutcome, resolve: string -> string, date: int, limit: int)
    ensures var r := PostsByDate(api, resolve, date, limit);
      (r.Failure? ==> Strings.StartsWith(r.error, RequestFailedPrefix)) &&
      (r.Success? ==>
        Descending(r.value, UpvotesOf) &&
        multiset(r.value) <= multiset(Collected(EdgesOf(api(date).body), ExtractRecords(resolve))) &&
        (limit >= 0 ==> |r.value| <= limit))
  {
    BackendWrapsEveryError(api(date));
    if PostsByDate(api, resolve, date, limit).Success? {
      TopByKeyOrdered(Collected(EdgesOf(api(date).body), ExtractRecords(resolve)), UpvotesOf, Some(limit));
    }
  }

  // ---------------------------------------------------------------------
  // get_top_products (scraper.py)
  // ---------------------------------------------------------------------

  /** The storage record `get_top_products` makes of a weekly post: `url` is
      the slug-based product page, the makers become their usernames. */
  function Reshape(p: Post): (r: ProductRecord)
    ensures r.url == p.productUrl && r.websiteUrl == p.website
    ensures r.makerIds == Usernames(p.makers) && r.topics == p.topics && r.upvotes == p.votesCount
  {
    ProductRecord(
      id := p.id, name := p.name, tagline := p.tagline, description := p.description,
      url := p.productUrl, websiteUrl := p.website, thumbnailUrl := p.thumbnail,
      launchDate := p.createdAt, upvotes := p.votesCount,
      makerIds := Usernames(p.makers), topics := p.topics)
  }

  function ReshapeAll(posts: seq<Post>): (records: seq<ProductRecord>)
    ensures |records| == |posts|
    ensures forall i | 0 <= i < |posts| :: records[i] == Reshape(posts[i])
  {
    if posts == [] then [] else [Reshape(posts[0])] + ReshapeAll(posts[1..])
  }

  /** `get_top_products`: nothing without a token; the weekly pull when both
      `year` and `week` are given; otherwise the daily pull, which calls
      `get_todays_posts`, a method the scraper class does not define, so the
      resulting exception turns it into `[]` like every other failure. */
  function TopProducts(token: Option<string>, api: (int, int) -> HttpOutcome, resolve: string -> string,
                       limit: int, year: Option<int>, week: Option<int>): (r: seq<ProductRecord>)
  {
    if token.None? || token.value == "" then []
    else if year.Some? && week.Some? then
      match WeeklyPosts(api, resolve, year.value, week.value, Some(limit))
      case Failure(_) => []
      case Success(posts) => ReshapeAll(posts)
    else []
  }

  method GetTopProducts(token: Option<string>, api: (int, int) -> HttpOutcome, resolve: string -> string,
                        limit: int, year: Option<int>, week: Option<int>) returns (products: seq<ProductRecord>)
    ensures products == TopProducts(token, api, resolve, limit, year, week)
  {
    if token.None? || token.value == "" {
      return [];
    }
    if !(year.Some? && week.Some?) {
      return [];
    }
    var raw := GetWeeklyPosts(api, resolve, year.value, week.value, Some(limit));
    if raw.Failure? {
      return [];
    }
    var posts := raw.value;
    products := [];
    for i := 0 to |posts|
      invariant products == ReshapeAll(posts[..i])
    {
      ReshapeAllSnoc(posts[..i], posts[i]);
      assert posts[..i + 1] == posts[..i] + [posts[i]];
      products := products + [Reshape(posts[i])];
    }
    assert posts[..|posts|] == posts;
  }

  lemma ReshapeAllSnoc(posts: seq<Post>, p: Post)
    ensures ReshapeAll(posts + [p]) == ReshapeAll(posts) + [Reshape(p)]
  {
    var l := ReshapeAll(posts + [p]);
    assert |l| == |posts| + 1;
    assert forall i | 0 <= i < |posts| :: (posts + [p])[i] == posts[i];
  }

  /** The daily path and a missing token always give nothing. */
  lemma TopProductsDailyPathIsEmpty(token: Option<string>, api: (int, int) -> HttpOutcome,
                                    resolve: string -> string, limit: int, year: Option<int>, week: Option<int>)
    requires token.None? || token.value == "" || year.None? || week.None?
    ensures TopProducts(token, api, resolve, limit, year, week) == []
  {
  }

  /** A storage record made by `get_top_products` agrees with the record the
      backend normaliser makes of the same node, except that its `url` is the
      product page link rather than the resolved post URL and that it keeps
      topics with an empty name. */
  lemma ReshapeMatchesBackendRecord(resolve: string -> string, node: PostNode)
    requires !node.IsEmpty()
    ensures var p, r := ExtractPost(resolve, node).value, ExtractRecord(resolve, node).value;
      Reshape(p) == r.(url := p.productUrl, topics := p.topics) &&
      r.topics == WithoutEmpty(Reshape(p).topics)
  {
    BackendRecordMatchesPost(resolve, node);
  }

  /** The resolver the scraper uses: `_get_final_url` with its default of
      five redirects. */
  function FinalUrlResolver(lib: Links.UrlLib, fetch: string -> Links.Outcome): string -> string
  {
    u => Links.FinalUrl(lib, fetch, u, Links.DefaultMaxRedirects)
  }

  /** With that resolver, a post's `url` and `website` are the final URLs of
      the node's fields, each reached in at most five requests, and an absent
      field gives "" without any request. */
  lemma PostLinksFollowRedirects(lib: Links.UrlLib, fetch: string -> Links.Outcome, node: PostNode)
    requires !node.IsEmpty()
    ensures var p := ExtractPost(FinalUrlResolver(lib, fetch), node).value;
      p.url == Links.FinalUrl(lib, fetch, node.url.GetOr(""), 5) &&
      p.website == Links.FinalUrl(lib, fetch, node.website.GetOr(""), 5) &&
      |Links.Requests(lib, fetch, node.url.GetOr(""), 5)| <= 5 &&
      |Links.Requests(lib, fetch, node.website.GetOr(""), 5)| <= 5 &&
      (node.url.None? ==> p.url == "" && Links.Requests(lib, fetch, "", 5) == []) &&
      (node.website.None? ==> p.website == "")
  {
    ExtractPostFields(FinalUrlResolver(lib, fetch), node);
    Links.FinalUrlCases(lib, fetch, node.url.GetOr(""), 5);
    Links.FinalUrlCases(lib, fetch, node.website.GetOr(""), 5);
  }

  /** Votes 3, 10 and 7 in server order come out as 10, 7, 3. */
  lemma VoteOrderExample(a: Post, b: Post, c: Post)
    requires a.votesCount == 3 && b.votesCount == 10 && c.votesCount == 7
    ensures TopByKey([a, b, c], VotesOf, None) == [b, c, a]
  {
    RanksThree(a, b, c, VotesOf);
  }
}
