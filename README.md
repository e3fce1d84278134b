# ProductHunt scraper: a verified model of the post-processing pipeline

This project models the deterministic core of the ProductHunt scraper in Dafny:
what happens to the data between the network, the clock and the database. It
covers these stages:

- **Link resolution.** Tracking-parameter stripping (`_clean_url` / `clean_url`) and the
  bounded redirect follower (`_get_final_url` / `get_final_url`). This is one model of
  the three copies in `scraper.py`, `backend/scraper.py` and `test_url_scraper.py`.
- **Listing normaliser.** `_extract_post_data`, in both of its copies:
  - `scraper.py` keeps a topic whose node has a `name` key;
  - `backend/scraper.py` keeps a topic only when its name is non-empty.
- **API side.**
  - The error wrapping of `_make_request` in both copies.
  - The weekly window `get_weekly_posts`: a week check, then a stable descending sort by votes, then truncation.
  - The daily window `get_posts_by_date`.
  - The storage reshaping in `get_top_products`.
- **Batch driver.** `get_date_range` and `scrape_date_range`, with their per-day and total caps.
- **Upsert sink.** `save_product` of `supabase_operations.py`, modelled as insert-or-update on an
  in-memory `products` table keyed by `id`.

The outside world enters as parameters:

- **URL library.** `urlparse`/`urlunparse` are a `UrlLib` record of two functions. A `None`
  from `parse` means `urlparse` raised.
- **Redirect GET.** The redirect GET is an oracle `fetch: string -> Outcome`, where `Outcome` is one of:
  - an SSL error;
  - another exception;
  - a status with an optional `Location`.
- **GraphQL POST.** The GraphQL POST is an oracle from the query's parameters to an `HttpOutcome`:
  - `(year, week)` for the weekly query;
  - the date ordinal for the daily query.
- **Resolver.** The resolver the normaliser calls is a parameter `resolve`. `Links.FinalUrl` is the function it stands for.
- **Per-date fetch.** The per-date fetch of the batch driver is an oracle returning the records or the exception's message.
- **Saves.** `save_product` calls are recorded in a ghost event log.
- **Database and clock.** The database's success and the clock reading `now` are arguments of `SaveProduct`.

Where a Python dictionary is read with `.get(k, default)`, the model uses a record of `Option` fields. `None` means the key is absent. This keeps "absent" apart from "present but empty", as the code does: for example, `"Unnamed Product"` replaces only a missing `name`.

Modules:

| module | file | what it holds |
|---|---|---|
| `Wrappers` | wrappers.dfy | `Option` and `Result` |
| `Strings` | strings.dfy | `str.split` on one character, `str.join`, splitting at the first separator |
| `Query` | query.dfy | `parse_qs` (with its default of dropping blank values), removal of the tracking keys, rebuilding the query |
| `Links` | links.dfy | `_clean_url`, the redirect loop and its specification |
| `Listing` | listing.dfy | both `_extract_post_data` copies |
| `Ordering` | ordering.dfy | `list.sort(key, reverse=True)` (stable) and `s[:n]` |
| `Source` | source.dfy | `_make_request`, `get_weekly_posts`, `get_posts_by_date`, `get_top_products` |
| `Orchestrator` | orchestrator.dfy | `get_date_range`, `scrape_date_range` |
| `Sink` | sink.dfy | `save_product` on a `ProductsTable` class |

Four behaviours of the code a reader may not expect; the model follows the code:

- A topic node with an empty name:
  - `scraper.py` keeps it;
  - the backend copy drops it.
- A maker's profile link is empty when the handle is empty as well as when it is absent.
- `scrape_date_range` counts every product handed to `save_product`, whether or not the save succeeded. It keeps no count of failed saves.
- The weekly window uses `%W` week numbering, not the ISO 8601 week. That computation is not part of this model.

## Model

| member | source | states |
|---|---|---|
| Query.ParseQsl | scraper.py:50 | every parsed field has a key with no `&` or `=` and a non-empty value with no `&`; fields without `=` or with a blank value are dropped |
| Query.ParseQslConcat | scraper.py:50 | parsing `a&b` gives the fields of `a` followed by the fields of `b`, for every `a` and `b` |
| Query.ParseQslOneField | scraper.py:50 | a single piece `k=v` with a non-empty value and no `&` in it parses to the one field `(k, v)` |
| Query.ParseQslBlank | scraper.py:50 | a piece without `=`, or with a blank value, parses to no field |
| Query.Group | scraper.py:50 | `parse_qs` groups the fields into a dictionary with distinct keys, exactly the parsed keys, each with a non-empty value list |
| Query.GroupValues | scraper.py:50 | each grouped key's value list is the values of that key's fields in query order |
| Query.GroupOrder | scraper.py:50 | dictionary keys are in order of first appearance in the query |
| Query.Untracked | scraper.py:53-55 | popping the six tracking keys keeps only entries of the dictionary whose key is not a tracking key |
| Query.SurvivorsAreFirstFields | scraper.py:50-58 | each surviving field is untracked and equals the first field of the query with that key (`v[0]`) |
| Query.SurvivorsInOrder | scraper.py:58 | surviving fields are in order of their keys' first appearance |
| Query.SurvivorKeys | scraper.py:53-55 | a key survives exactly when it was parsed and is not one of `ref`, `utm_source`, `utm_medium`, `utm_campaign`, `utm_term`, `utm_content` |
| Query.SurvivorsSpec | scraper.py:50-58 | the three properties above together: untracked keys only, each once, with its first value, in first-appearance order |
| Query.SurvivorKeysDistinct | scraper.py:58 | no key is emitted twice |
| Query.RebuiltQueryParses | scraper.py:58 | for fields without `%` or `+` (no percent-decoding is modelled): parsing the rebuilt `k=v&...` string returns exactly the fields it was built from |
| Query.CleanQueryParses | scraper.py:58-64 | for queries without `%` or `+` (no percent-decoding is modelled): the cleaned query parses back to the surviving fields, holds no tracking key, and is empty exactly when nothing survives |
| Query.SurvivorsOfCleanFields | scraper.py:50-58 | for queries without `%` or `+` (no percent-decoding is modelled): a query of distinct untracked well-formed fields survives cleaning unchanged |
| Query.CleanQueryIdempotent | scraper.py:50-58 | for queries without `%` or `+` (no percent-decoding is modelled): cleaning a cleaned query changes nothing |
| Links.Stripped | scraper.py:59-66 | for queries without `%` or `+` (no percent-decoding is modelled): scheme, netloc, path, params and fragment are unchanged; the new query parses to the surviving fields and is empty exactly when none survive |
| Links.CleanUrl | scraper.py:40-71 | an empty URL gives "", a URL `urlparse` rejects is returned unchanged, and any other URL becomes `urlunparse` of its `Stripped` components (the query cleaned, the rest kept); backend/scraper.py:33-49 and the standalone `clean_url` of test_url_scraper.py:13-44 are the same function |
| Links.CleanUrlIdempotent | scraper.py:40-71 | for queries without `%` or `+` (no percent-decoding is modelled): cleaning a cleaned URL changes nothing when `urlparse` reads back what `urlunparse` wrote |
| Links.HopRules | scraper.py:96-116 | the loop advances exactly on 301/302/303/307/308 with a non-empty `Location`. It stops on any other answer and fails when a request raises. A relative `Location` becomes `scheme://netloc` of the current URL followed by the location; an absolute one is taken as is. An `SSLError` at any hop (the extra handler of backend/scraper.py:62-78) ends the chase like any other exception |
| Links.Follow | scraper.py:94-116 | at most `budget` requests, none only when the budget is 0, the first one to the starting URL |
| Links.FollowAdvances | scraper.py:94-116 | one loop pass that meets a redirect with a usable `Location`: the chase so far gains the current URL and continues from the target with one hop less |
| Links.FollowHalts | scraper.py:94-116 | one loop pass that meets any other answer or an exception: the current URL is the last request, and the loop ends on it (answer) or gives up (exception) |
| Links.GetFinalUrl | scraper.py:73-126 | the while loop over `current_url` and `redirect_count` returns `FinalUrl` and makes exactly the `Requests` requests, at most `max_redirects`; "" for an empty URL with no request. The copies in backend/scraper.py:51-82 and test_url_scraper.py:46-99 are the same loop |
| Links.FollowChain | scraper.py:94-116 | each request after the first goes to the previous hop's redirect target. A chase ends on a failure of the last request; before the bound only on a non-redirect answer; at the bound the last answer was a stop or a redirect to the final URL |
| Links.EndlessRedirectsSpendBudget | scraper.py:94 | when every answer redirects, exactly `max_redirects` requests are made and the chase ends on a URL |
| Links.FinalUrlCases | scraper.py:118-126 | empty input gives "" with no request; any failure returns the original input; otherwise at most `max_redirects` requests, the first to the input; with no budget the result is the cleaned input |
| Listing.ExtractPost | scraper.py:176-180 | None exactly for a node with no key at all |
| Listing.ExtractRecord | backend/scraper.py:105-107 | None exactly for a node with no key at all |
| Listing.KeyedTopicNames | scraper.py:182-186 | the topic loop keeps no more names than there are topic edges; which names, and in what order, the two lemmas below state |
| Listing.KeyedTopicNamesSound | scraper.py:183-187 | the kept topics are exactly the names of topic nodes that have a `name` key |
| Listing.KeyedTopicNamesAppend | scraper.py:183-187 | topics are kept in source order |
| Listing.TruthyTopicNames | backend/scraper.py:108 | the backend keeps only non-empty topic names, no more than there are edges |
| Listing.TruthyTopicsAreNonEmptyKeyedTopics | backend/scraper.py:108 | the backend topics are the `scraper.py` topics with the empty names left out |
| Listing.KeptMakers | scraper.py:189-199 | the maker loop keeps no more makers than there are entries; which ones, and their links, `MakerProfileLinks` states |
| Listing.KeptMakersAppend | scraper.py:190-199 | makers are kept in source order |
| Listing.MakerProfileLinks | scraper.py:189-199 | every kept maker comes from an entry with a `name` key, and every entry with a `name` key is kept. A kept maker's profile link is `https://producthunt.com/@<username>` when the username is non-empty, and "" otherwise |
| Listing.Usernames | backend/scraper.py:131 | `maker_ids` lists the kept makers' usernames, one per maker, in order |
| Listing.ExtractPostFields | scraper.py:201-219 | `id` is copied; `"Unnamed Product"` only when `name` is absent. `description`, `created_at` and `tagline` default to "", `comments_count` and `votes_count` to 0, and `thumbnail` to "" when the thumbnail or its url is absent. Both URLs go through the resolver. `product_url` is the slug page exactly when the slug is non-empty |
| Listing.BackendRecordMatchesPost | backend/scraper.py:119-133 | the backend record agrees with the `scraper.py` post field by field; only the topics differ (empty names dropped) and the makers become usernames |
| Listing.OneMakerKeptExample | scraper.py:190-199 | a maker list with one handle and one nameless entry keeps one maker with a profile link |
| Ordering.SortDesc | scraper.py:297 | the sort is a permutation of its input in non-increasing key order |
| Ordering.Insert | scraper.py:297 | one insertion step adds exactly the inserted element |
| Ordering.SortDescStable | scraper.py:297 | records with equal keys keep their input order (`reverse=True` keeps stability) |
| Ordering.Slice | scraper.py:300 | `s[:n]` is a prefix of length `min(n, len)` for `n >= 0` and `max(0, len + n)` for negative `n` |
| Ordering.SliceKeepsTop | scraper.py:300 | truncating a sorted list keeps it sorted and keeps the highest keys |
| Ordering.TopByKeyOrdered | scraper.py:296-300 | the window is in non-increasing key order and a sub-multiset of the input: the sort and the cut drop nothing but the records past the limit, and remove no duplicates. With no limit it is the whole sorted input; with a limit `n >= 0` it holds `min(n, len)` records |
| Ordering.KeepsDuplicates | scraper.py:297-300 | the sort and the cut remove no duplicates: a record listed twice comes out twice |
| Ordering.TopByKeyRanksFirst | scraper.py:296-300 | nothing left out ranks above anything returned |
| Ordering.TopByKeyStable | backend/scraper.py:171-172 | for each key, the records returned are the first ones of the input with that key, in input order |
| Source.ErrorMessages | scraper.py:164 | one message per GraphQL error, `"Unknown error"` where the message is missing |
| Source.MakeRequestBackend | backend/scraper.py:84-103 | success exactly for a decoded body without an `errors` key, returning that body; every failure starts with `"API request failed: "` |
| Source.MakeRequest | scraper.py:159-174 | success exactly for a decoded body without an `errors` key, returning that body; a GraphQL error reads `"GraphQL error: "` followed by the messages joined by `"; "` |
| Source.BackendWrapsEveryError | backend/scraper.py:92-103 | both copies succeed on the same outcomes with the same body. Every backend failure starts with `"API request failed: "`. A GraphQL error is the `scraper.py` message behind that prefix. A non-JSON body loses its own prefix |
| Source.Collect | scraper.py:291-294 | the append loop over the edges returns the extracted non-None records in edge order |
| Source.CollectedExactly | scraper.py:291-294 | every collected record comes from some edge's node, and every node the extractor accepts contributes its record |
| Source.GetWeeklyPosts | scraper.py:266-300 | the method returns the weekly window specification `WeeklyPosts`: the week check, then the failure of `_create_weekly_query` for a year outside 1000..9999 or for week 52 of year 9999, then the request and the ranking |
| Source.BadWindowSendsNoRequest | scraper.py:224-225 | a valid week whose dates `%Y` cannot form fails with `BadWindow` whatever the API would answer, so no request is made |
| Source.InvalidWeekSendsNoRequest | scraper.py:275-276 | a week outside 1..52 fails with the week error whatever the API would answer, so no request is made |
| Source.WeeklyPostsRanked | scraper.py:284-300 | on success the week is in 1..52 and the year in 1000..9999; the posts are most-voted first and a sub-multiset of the collected posts, so no post appears more often than the response holds it. Each one comes from a non-empty node of the response. There are at most `limit` of them |
| Source.PostLinksFollowRedirects | scraper.py:201-203 | with `_get_final_url` as the resolver (five hops), each of `url` and `website` is the final URL of the node's field after at most five requests; an absent field gives "" with no request |
| Source.VoteOrderExample | scraper.py:297 | votes 3, 10, 7 come out as 10, 7, 3 |
| Source.GetPostsByDate | backend/scraper.py:161-172 | the method returns the daily window specification `PostsByDate` |
| Source.PostsByDateRanked | backend/scraper.py:161-172 | on success the records are most-upvoted first, a sub-multiset of the collected records (no record appears more often than the response holds it), at most `limit`; every failure reads `"API request failed: ..."` |
| Source.Reshape | scraper.py:433-445 | the storage record takes `url` from the slug-based product page, `maker_ids` from the makers' usernames, and the topics as they are |
| Source.ReshapeAll | scraper.py:425-446 | one storage record per post, in order |
| Source.GetTopProducts | scraper.py:389-450 | the method returns `TopProducts`: nothing without a token, the reshaped weekly window when year and week are given, and nothing on any failure |
| Source.TopProductsDailyPathIsEmpty | scraper.py:413-421 | a missing token or the daily path (which calls an undefined method) always gives `[]` |
| Source.ReshapeMatchesBackendRecord | scraper.py:425-445 | a reshaped post equals the backend record of the same node except for `url` (product page, not resolved URL) and topics with empty names |
| Orchestrator.GetDateRange | backend/scraper.py:184-190 | every day from start to end, consecutive and increasing, empty when start > end; stepping past the last representable day fails with the overflow |
| Orchestrator.SaveBatch | backend/scraper.py:217-221 | the inner loop saves the first `min(len, cap - total)` products in order and counts each |
| Orchestrator.ScrapeDate | backend/scraper.py:204-225 | one date: a query with `min(per_day, cap - total)`, then the saves of its first records up to the cap |
| Orchestrator.ScrapeDates | backend/scraper.py:203-225 | the date loop performs exactly the events of `Run`; the count it returns is the number of saves in `Run` and, with a non-negative cap, stays within the cap |
| Orchestrator.ScrapeDateRange | backend/scraper.py:192-233 | fails exactly when the token is missing or empty (the `ValueError` of backend/scraper.py:28-30, with no save) or the date range overflows. Otherwise the events are those of `Run`, `total_products` counts the saves and `total_dates` is the length of the date list |
| Orchestrator.DateEventsShape | backend/scraper.py:210-221 | one date's events: its query first, then only saves, no more than the room under the cap |
| Orchestrator.RunRespectsCap | backend/scraper.py:207-221 | starting at or under the cap, the run never saves past it |
| Orchestrator.TotalWithinCap | backend/scraper.py:207-221 | with a non-negative cap, `total_products` never exceeds it |
| Orchestrator.FetchesUnderCap | backend/scraper.py:207-213 | no date is queried once the cap is reached; each query's limit is `min(max_products_per_day, max_total_products - total_products)` |
| Orchestrator.FetchedDatesArePrefix | backend/scraper.py:203-225 | the queried dates are the first dates of the range, in order. A failing date is skipped and the loop continues. When the cap is never reached, every date is queried |
| Sink.ProductsTable.constructor | supabase_operations.py:24-31 | an empty table, with or without a client |
| Sink.ProductsTable.SaveProduct | supabase_operations.py:33-72 | the table becomes `Upserted` of the old one; every row stays filed under its own id |
| Sink.UpsertKeepsRowsKeyed | supabase_operations.py:61-70 | a save keeps each row under its own id, so there is at most one row per id |
| Sink.NoWriteLeavesTable | supabase_operations.py:35-41 | without a client, a missing `id` or `name`, or a backend error, the table is unchanged |
| Sink.UpsertTouchesOneRow | supabase_operations.py:61-70 | rows with other ids are unchanged and no other id is added |
| Sink.UpsertWritesRow | supabase_operations.py:44-70 | all mutable columns come from the product, with None, 0 or `[]` for missing keys. `updated_at` is now. An existing row keeps `id` and `created_at`; a new row has `created_at == updated_at == now` |
| Sink.SaveTwiceIsSaveOnce | supabase_operations.py:44-64 | saving the same product twice equals saving it once apart from `updated_at` |

## Left out

- **Real HTTP and JSON.** HTTP requests, headers, `raise_for_status` and JSON decoding are replaced by outcome oracles. The `time.sleep` delays are left out because they carry no correctness content.
- **URL grammar.** The full `urlparse`/`urlunparse` grammar is the `UrlLib` parameter. `urlunparse` is taken never to raise.
- **Query decoding.** Percent-decoding and `+` handling in `parse_qs` are not modelled: keys and values are taken literally. So the model does not show that decoded values are written back without re-encoding. The query is split on `&` only, as Python 3.9.2, 3.8.8, 3.7.10, 3.6.13 and later releases do; earlier releases also split on `;`.
- Query.RebuiltQueryParses: holds only for fields without `%` or `+`. `parse_qs` decodes `%26` to `&`, so a decoded value written back can split into other fields.
- Query.CleanQueryIdempotent: holds only for queries without `%` or `+`. The program turns `a=%2526` into `a=%26`, then into `a=&`, then into "", so its cleaning is not idempotent there.
- Links.CleanUrlIdempotent: holds only for queries without `%` or `+`, for the reason given for `Query.CleanQueryIdempotent`.
- **JSON null.** A key present with value null (Python `None`) is not modelled: a field is either absent or holds a value. The `TypeError` and `AttributeError` paths that null would open are therefore not covered.
- **Query templates.** `_create_weekly_query` and `_create_daily_query` are GraphQL templating plus `%W` calendar arithmetic. The API oracle is indexed by the window's parameters instead. Only the failure of the weekly template is modelled: `%Y` rejects a year outside 1000..9999, and week 52 of year 9999 runs past the last date.
- **Error text.** The text of the invalid-week error is not built: `InvalidWeek(week)` carries the week number.
- Source.MakeRequest: a body that is not JSON gets the `"Failed to parse API response: "` prefix, as the handler order reads. With requests 2.27 and later, the decoder's exception is also a `RequestException`. It then reaches the first handler and reads `"API request failed: "` instead.
- **Startup code.** `main()`, `setup_logging`, argparse, the `__main__` blocks, `.env` loading and module-level client creation are startup and I/O. The token lookup of the scraper's constructor is modelled only as the `token` argument of `ScrapeDateRange`. The client's existence is the `connected` flag of `ProductsTable`.
- **Database reads.** `get_products_by_date` and `get_top_products` of both `supabase_operations.py` files are database queries. Their filtering and ordering happen in the database.
- **Backend upsert.** `save_product` of `backend/supabase_operations.py` is a single library upsert. What it does to existing rows is decided by the database. The batch driver's saves are therefore recorded as events, not applied to `ProductsTable`.
- **Other scripts.** `clean_and_rescrape.py` and `daily_update.py` are orchestration scripts over the modelled functions and the database.
- **Summary dates.** `scrape_date_range` returns its summary with ISO date strings. The model returns the ordinals.
- **Clock.** `SaveProduct` takes `now` as given, so the model does not claim that a later save has a later `updated_at`.
- **Save outcome.** A failed `save_product` is logged and swallowed. It reports nothing back, so the model's `SaveProduct` returns nothing either.
