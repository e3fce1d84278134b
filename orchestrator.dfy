/** backend/scraper.py's batch driver: `get_date_range` and
    `scrape_date_range`. A date is its proleptic Gregorian ordinal (day 1 is
    0001-01-01, the last representable day is 9999-12-31). The per-date query
    is an oracle from the date and the limit to the records or the message of
    the exception raised; `save_product` is recorded in a ghost event log. */
module Orchestrator {
  import opened Wrappers
  import opened Listing

  const MinOrdinal: int := 1
  /** `datetime.date.max.toordinal()`. */
  const MaxOrdinal: int := 3652059

  type Day = d: int | MinOrdinal <= d <= MaxOrdinal witness MinOrdinal

  /** Adding a day to the last representable date raises `OverflowError`. */
  datatype RangeError = DateOverflow

  /** Every day from `start` to `end`, both included. */
  function DateRange(start: Day, end: Day): (dates: seq<int>)
  {
    if start > end then [] else seq(end - start + 1, i requires 0 <= i <= end - start => start + i)
  }

  /** `get_date_range`. When `end` is the last representable day and the loop
      reaches it, stepping past it raises; the list is never returned. */
  method GetDateRange(start: Day, end: Day) returns (r: Result<seq<int>, RangeError>)
    ensures r.Failure? <==> start <= end && end == MaxOrdinal
    ensures r.Success? ==> r.value == DateRange(start, end)
    ensures r.Success? ==> |r.value| == (if start <= end then end - start + 1 else 0)
    ensures r.Success? ==> forall i | 0 <= i < |r.value| :: r.value[i] == start + i
  {
    var dates: seq<int> := [];
    var current: int := start;
    while current <= end
      invariant start <= current && (current == start || current <= end + 1)
      invariant current <= MaxOrdinal
      invariant |dates| == current - start
      invariant forall i | 0 <= i < |dates| :: dates[i] == start + i
      decreases end - current
    {
      dates := dates + [current];
      if current == MaxOrdinal {
        return Failure(DateOverflow);
      }
      current := current + 1;
    }
    return Success(dates);
  }

  // ---------------------------------------------------------------------
  // scrape_date_range
  // ---------------------------------------------------------------------

  /** What the driver does to the outside world, in order. */
  datatype Event = Fetch(date: int, limit: int) | Save(record: ProductRecord)

  /** The summary `scrape_date_range` returns, the dates as ordinals. */
  datatype Stats = Stats(totalProducts: int, start: int, end: int, totalDates: int)

  function Min(a: int, b: int): int { if a <= b then a else b }

  function Saves(records: seq<ProductRecord>): (events: seq<Event>)
    ensures |events| == |records|
  {
    if records == [] then [] else [Save(records[0])] + Saves(records[1..])
  }

  function SaveCount(events: seq<Event>): (n: nat)
    ensures n <= |events|
  {
    if events == [] then 0 else (if events[0].Save? then 1 else 0) + SaveCount(events[1..])
  }

  /** How many of a non-empty batch are saved: one at a time until the cap is
      reached. */
  function Kept(n: int, total: int, maxTotal: int): int
  {
    Min(n, maxTotal - total)
  }

  /** The events of one date, with `total` products saved before it: the
      query with `min(per_day, cap - total)`, then nothing when it raised or
      found nothing, else the saves of its first records up to the cap. */
  function DateEvents(fetch: (int, int) -> Result<seq<ProductRecord>, string>, date: int,
                      perDay: int, maxTotal: int, total: int): (events: seq<Event>)
    requires total < maxTotal
  {
    var limit := Min(perDay, maxTotal - total);
    var outcome := fetch(date, limit);
    [Fetch(date, limit)] +
      (if outcome.Failure? || outcome.value == [] then []
       else Saves(outcome.value[..Kept(|outcome.value|, total, maxTotal)]))
  }

  /** The events of the date loop from `dates` on, with `total` products
      already saved: nothing once the cap is reached, otherwise the events of
      the first date and then those of the rest. */
  function Run(fetch: (int, int) -> Result<seq<ProductRecord>, string>, dates: seq<int>,
               perDay: int, maxTotal: int, total: int): (events: seq<Event>)
    decreases |dates|
  {
    if dates == [] || total >= maxTotal then []
    else
      var events := DateEvents(fetch, dates[0], perDay, maxTotal, total);
      events + Run(fetch, dates[1..], perDay, maxTotal, total + SaveCount(events))
  }

  /** The inner loop: save each record and count it, stopping at the cap. */
  method SaveBatch(products: seq<ProductRecord>, total: int, maxTotal: int)
    returns (newTotal: int, ghost saved: seq<Event>)
    requires total < maxTotal
    ensures newTotal == total + Kept(|products|, total, maxTotal)
    ensures saved == Saves(products[..Kept(|products|, total, maxTotal)])
  {
    newTotal := total;
    saved := [];
    var j := 0;
    while j < |products|
      invariant 0 <= j <= |products|
      invariant newTotal == total + j && newTotal < maxTotal
      invariant saved == Saves(products[..j])
    {
      saved := saved + [Save(products[j])];
      assert products[..j + 1] == products[..j] + [products[j]];
      SavesAppend(products[..j], [products[j]]);
      newTotal := newTotal + 1;
      j := j + 1;
      if newTotal >= maxTotal {
        break;
      }
    }
  }

  /** The body of the date loop for one date, under the cap. */
  method ScrapeDate(fetch: (int, int) -> Result<seq<ProductRecord>, string>, date: int,
                    perDay: int, maxTotal: int, total: int)
    returns (newTotal: int, ghost events: seq<Event>)
    requires total < maxTotal
    ensures events == DateEvents(fetch, date, perDay, maxTotal, total)
    ensures newTotal == total + SaveCount(DateEvents(fetch, date, perDay, maxTotal, total))
  {
    var limit := Min(perDay, maxTotal - total);
    var outcome := fetch(date, limit);
    events := [Fetch(date, limit)];
    newTotal := total;
    if outcome.Success? && outcome.value != [] {
      ghost var saved;
      newTotal, saved := SaveBatch(outcome.value, total, maxTotal);
      SaveCountOfSaves(outcome.value[..Kept(|outcome.value|, total, maxTotal)]);
      SaveCountAppend(events, saved);
      events := events + saved;
    }
  }

  /** Regrouping the log: `log` before `here == events + later` is
      `log + events` before `later`. */
  lemma Regroup(log: seq<Event>, events: seq<Event>, later: seq<Event>, here: seq<Event>)
    requires here == events + later
    ensures (log + events) + later == log + here
  {
  }

  /** The date loop of `scrape_date_range`. */
  method ScrapeDates(fetch: (int, int) -> Result<seq<ProductRecord>, string>, dates: seq<int>,
                     perDay: int, maxTotal: int)
    returns (total: int, ghost log: seq<Event>)
    ensures log == Run(fetch, dates, perDay, maxTotal, 0)
    ensures total == SaveCount(Run(fetch, dates, perDay, maxTotal, 0))
    ensures maxTotal >= 0 ==> 0 <= total <= maxTotal
  {
    ghost var whole := Run(fetch, dates, perDay, maxTotal, 0);
    total := 0;
    log := [];
    var i := 0;
    assert dates[0..] == dates;
    while i < |dates|
      invariant 0 <= i <= |dates|
      invariant log + Run(fetch, dates[i..], perDay, maxTotal, total) == whole
      invariant total == SaveCount(log)
    {
      if total >= maxTotal {
        break;
      }
      var newTotal, events := ScrapeDate(fetch, dates[i], perDay, maxTotal, total);
      SaveCountAppend(log, events);
      assert dates[i..][0] == dates[i] && dates[i..][1..] == dates[i + 1..];
      RunStep(fetch, dates[i..], perDay, maxTotal, total, events, newTotal);
      Regroup(log, events, Run(fetch, dates[i + 1..], perDay, maxTotal, newTotal),
              Run(fetch, dates[i..], perDay, maxTotal, total));
      log := log + events;
      total := newTotal;
      i := i + 1;
    }
    assert Run(fetch, dates[i..], perDay, maxTotal, total) == [];
    assert log + [] == log;
    if maxTotal >= 0 {
      TotalWithinCap(fetch, dates, perDay, maxTotal);
    }
  }

  /** Why `scrape_date_range` raised before its loop: the scraper it
      constructs finds no `PRODUCTHUNT_TOKEN` (a `ValueError`), or the date
      list runs past the last representable day. */
  datatype ScrapeError = MissingToken | BadRange(error: RangeError)

  /** `scrape_date_range`: the scraper first (`token` is the environment's
      `PRODUCTHUNT_TOKEN`; None or "" raises), then the date list (which
      raises past the last representable day), then the date loop, then the
      summary. */
  method ScrapeDateRange(token: Option<string>, fetch: (int, int) -> Result<seq<ProductRecord>, string>,
                         start: Day, end: Day, perDay: int, maxTotal: int)
    returns (r: Result<Stats, ScrapeError>, ghost log: seq<Event>)
    ensures r.Failure? <==> token.None? || token.value == "" || (start <= end && end == MaxOrdinal)
    ensures token.None? || token.value == "" ==> r == Failure(MissingToken) && log == []
    ensures r.Success? ==>
      log == Run(fetch, DateRange(start, end), perDay, maxTotal, 0) &&
      r.value == Stats(SaveCount(log), start, end, |DateRange(start, end)|)
    ensures r.Success? && maxTotal >= 0 ==> r.value.totalProducts <= maxTotal
  {
    if token.None? || token.value == "" {
      return Failure(MissingToken), [];
    }
    var range := GetDateRange(start, end);
    if range.Failure? {
      return Failure(BadRange(range.error)), [];
    }
    var total;
    total, log := ScrapeDates(fetch, range.value, perDay, maxTotal);
    r := Success(Stats(total, start, end, |range.value|));
  }

  lemma RunStep(fetch: (int, int) -> Result<seq<ProductRecord>, string>, dates: seq<int>,
                perDay: int, maxTotal: int, total: int, events: seq<Event>, newTotal: int)
    requires dates != [] && total < maxTotal
    requires events == DateEvents(fetch, dates[0], perDay, maxTotal, total)
    requires newTotal == total + SaveCount(events)
    ensures Run(fetch, dates, perDay, maxTotal, total) ==
      events + Run(fetch, dates[1..], perDay, maxTotal, newTotal)
  {
    assert !(dates == [] || total >= maxTotal);
  }

  lemma {:induction false} SaveCountAppend(a: seq<Event>, b: seq<Event>)
    ensures SaveCount(a + b) == SaveCount(a) + SaveCount(b)
  {
    if a != [] {
      SaveCountAppend(a[1..], b);
      assert (a + b)[1..] == a[1..] + b;
    } else {
      assert a + b == b;
    }
  }

  lemma {:induction false} SavesAppend(a: seq<ProductRecord>, b: seq<ProductRecord>)
    ensures Saves(a + b) == Saves(a) + Saves(b)
  {
    if a != [] {
      SavesAppend(a[1..], b);
      assert (a + b)[1..] == a[1..] + b;
    } else {
      assert a + b == b;
    }
  }

  lemma {:induction false} SavesAreSaves(records: seq<ProductRecord>)
    ensures forall k | 0 <= k < |records| :: Saves(records)[k] == Save(records[k])
  {
    if records != [] {
      SavesAreSaves(records[1..]);
      forall k | 0 < k < |records| ensures Saves(records)[k] == Save(records[k]) {
        assert Saves(records)[k] == Saves(records[1..])[k - 1];
      }
    }
  }

  lemma {:induction false} SaveCountOfSaves(records: seq<ProductRecord>)
    ensures SaveCount(Saves(records)) == |records|
  {
    if records != [] {
      SaveCountOfSaves(records[1..]);
    }
  }

  // ---------------------------------------------------------------------
  // What the date loop promises
  // ---------------------------------------------------------------------

  /** The dates queried, in order. */
  function FetchDates(events: seq<Event>): (dates: seq<int>)
    ensures |dates| <= |events|
  {
    if events == [] then []
    else (if events[0].Fetch? then [events[0].date] else []) + FetchDates(events[1..])
  }

  lemma {:induction false} FetchDatesAppend(a: seq<Event>, b: seq<Event>)
    ensures FetchDates(a + b) == FetchDates(a) + FetchDates(b)
  {
    if a != [] {
      FetchDatesAppend(a[1..], b);
      assert (a + b)[1..] == a[1..] + b;
    } else {
      assert a + b == b;
    }
  }

  lemma {:induction false} FetchDatesOfSaves(records: seq<ProductRecord>)
    ensures FetchDates(Saves(records)) == []
  {
    if records != [] {
      FetchDatesOfSaves(records[1..]);
    }
  }

  /** One date's events: its query first, then only saves, no more of them
      than the room left under the cap. */
  lemma DateEventsShape(fetch: (int, int) -> Result<seq<ProductRecord>, string>, date: int,
                        perDay: int, maxTotal: int, total: int)
    requires total < maxTotal
    ensures var events := DateEvents(fetch, date, perDay, maxTotal, total);
      events[0] == Fetch(date, Min(perDay, maxTotal - total)) &&
      (forall k | 1 <= k < |events| :: events[k].Save?) &&
      SaveCount(events) == |events| - 1 <= maxTotal - total &&
      FetchDates(events) == [date]
  {
    var limit := Min(perDay, maxTotal - total);
    var outcome := fetch(date, limit);
    var saved := if outcome.Failure? || outcome.value == [] then []
                 else outcome.value[..Kept(|outcome.value|, total, maxTotal)];
    SaveCountAppend([Fetch(date, limit)], Saves(saved));
    SaveCountOfSaves(saved);
    SavesAreSaves(saved);
    FetchDatesAppend([Fetch(date, limit)], Saves(saved));
    FetchDatesOfSaves(saved);
  }

  /** The cap holds: starting from `total` saves at most `max_total_products`,
      the run never brings the count past it. */
  lemma {:induction false} RunRespectsCap(fetch: (int, int) -> Result<seq<ProductRecord>, string>,
                                          dates: seq<int>, perDay: int, maxTotal: int, total: int)
    requires total <= maxTotal
    ensures total + SaveCount(Run(fetch, dates, perDay, maxTotal, total)) <= maxTotal
    decreases |dates|
  {
    if dates != [] && total < maxTotal {
      var events := DateEvents(fetch, dates[0], perDay, maxTotal, total);
      var total' := total + SaveCount(events);
      RunStep(fetch, dates, perDay, maxTotal, total, events, total');
      DateEventsShape(fetch, dates[0], perDay, maxTotal, total);
      RunRespectsCap(fetch, dates[1..], perDay, maxTotal, total');
      SaveCountAppend(events, Run(fetch, dates[1..], perDay, maxTotal, total'));
    }
  }

  /** With a non-negative cap, `total_products` never exceeds it. */
  lemma TotalWithinCap(fetch: (int, int) -> Result<seq<ProductRecord>, string>,
                       dates: seq<int>, perDay: int, maxTotal: int)
    requires maxTotal >= 0
    ensures SaveCount(Run(fetch, dates, perDay, maxTotal, 0)) <= maxTotal
  {
    RunRespectsCap(fetch, dates, perDay, maxTotal, 0);
  }

  /** The query at position `k` of a run that started with `total` saves was
      made under the cap, with the limit the saves before it call for. */
  predicate QueriedUnderCap(events: seq<Event>, k: nat, perDay: int, maxTotal: int, total: int)
    requires k < |events| && events[k].Fetch?
  {
    total + SaveCount(events[..k]) < maxTotal &&
    events[k].limit == Min(perDay, maxTotal - (total + SaveCount(events[..k])))
  }

  predicate AllQueriedUnderCap(events: seq<Event>, perDay: int, maxTotal: int, total: int)
  {
    forall k | 0 <= k < |events| && events[k].Fetch? :: QueriedUnderCap(events, k, perDay, maxTotal, total)
  }

  /** No date is queried once the cap is reached, and each query asks for
      `min(max_products_per_day, max_total_products - total_products)` with the
      products saved so far. */
  lemma {:induction false} FetchesUnderCap(fetch: (int, int) -> Result<seq<ProductRecord>, string>,
                                           dates: seq<int>, perDay: int, maxTotal: int, total: int)
    ensures AllQueriedUnderCap(Run(fetch, dates, perDay, maxTotal, total), perDay, maxTotal, total)
    decreases |dates|
  {
    var events := Run(fetch, dates, perDay, maxTotal, total);
    if dates != [] && total < maxTotal {
      var first := DateEvents(fetch, dates[0], perDay, maxTotal, total);
      var total' := total + SaveCount(first);
      var rest := Run(fetch, dates[1..], perDay, maxTotal, total');
      RunStep(fetch, dates, perDay, maxTotal, total, first, total');
      DateEventsShape(fetch, dates[0], perDay, maxTotal, total);
      FetchesUnderCap(fetch, dates[1..], perDay, maxTotal, total');
      assert AllQueriedUnderCap(rest, perDay, maxTotal, total');
      forall k | 0 <= k < |events| && events[k].Fetch?
        ensures QueriedUnderCap(events, k, perDay, maxTotal, total)
      {
        if k < |first| {
          assert k == 0;
          assert events[..k] == [];
          assert events[k] == first[0];
        } else {
          var k' := k - |first|;
          assert events[..k] == first + rest[..k'];
          assert events[k] == rest[k'];
          assert QueriedUnderCap(rest, k', perDay, maxTotal, total');
          SaveCountAppend(first, rest[..k']);
        }
      }
    }
  }

  /** The queried dates are the first dates of the range, in order: a date
      whose query raised or found nothing is skipped and the loop goes on with
      the next one. */
  lemma {:induction false} FetchedDatesArePrefix(fetch: (int, int) -> Result<seq<ProductRecord>, string>,
                                                 dates: seq<int>, perDay: int, maxTotal: int, total: int)
    ensures var fetched := FetchDates(Run(fetch, dates, perDay, maxTotal, total));
      |fetched| <= |dates| && fetched == dates[..|fetched|]
    ensures total + SaveCount(Run(fetch, dates, perDay, maxTotal, total)) < maxTotal ==>
      FetchDates(Run(fetch, dates, perDay, maxTotal, total)) == dates
    decreases |dates|
  {
    if dates != [] && total < maxTotal {
      var first := DateEvents(fetch, dates[0], perDay, maxTotal, total);
      var total' := total + SaveCount(first);
      var rest := Run(fetch, dates[1..], perDay, maxTotal, total');
      RunStep(fetch, dates, perDay, maxTotal, total, first, total');
      DateEventsShape(fetch, dates[0], perDay, maxTotal, total);
      FetchedDatesArePrefix(fetch, dates[1..], perDay, maxTotal, total');
      FetchDatesAppend(first, rest);
      SaveCountAppend(first, rest);
      assert dates == [dates[0]] + dates[1..];
    }
  }
}
