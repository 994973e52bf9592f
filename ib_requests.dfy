/** The value-level core of the Interactive Brokers data client: records, bar
    specifications, the defaults a historical request is given, the routing of
    bar subscriptions, and the two backward-walking paginators of
    `_handle_ticks_request` and `_request_bars`.

    The venue is modelled as the finite list of pages its historical endpoint
    hands out, one per call, oldest call first; once that list is exhausted,
    every further call returns an empty page. The paginators return, besides
    their records, the `end_date_time` they passed on each call. */
module IbRequests {
  import opened Collections

  /** UNIX nanoseconds (a UTC `pd.Timestamp`). */
  type Nanos = int

  /** A quote tick, trade tick or bar: the venue's event time, the local
      ingestion time, and the remaining fields. Equality is structural. */
  datatype Record = Record(tsEvent: Nanos, tsInit: Nanos, payload: seq<int>)

  predicate TsInitLe(a: Record, b: Record) {
    a.tsInit <= b.tsInit
  }

  predicate TsEventLe(a: Record, b: Record) {
    a.tsEvent <= b.tsEvent
  }

  /** `sort(key=lambda x: x.ts_init)` */
  function SortByTsInit(s: seq<Record>): (r: seq<Record>)
    ensures SortedBy(r, TsInitLe)
    ensures multiset(r) == multiset(s)
  {
    SortBy(s, TsInitLe)
  }

  // ---------------------------------------------------------------------------
  // Bar specifications

  datatype BarAggregation =
    | Tick | TickImbalance | TickRuns
    | Volume | VolumeImbalance | VolumeRuns
    | Value | ValueImbalance | ValueRuns
    | Millisecond | Second | Minute | Hour | Day | Week | Month

  datatype BarSpec = BarSpec(step: nat, aggregation: BarAggregation)

  datatype BarType = BarType(instrumentId: string, spec: BarSpec)

  predicate IsTimeAggregated(spec: BarSpec) {
    spec.aggregation in {Millisecond, Second, Minute, Hour, Day, Week, Month}
  }

  /** `spec.timedelta` in milliseconds; `None` where that property raises
      (months have no fixed length, and the other aggregations are not time). */
  function TimedeltaMillis(spec: BarSpec): Option<int> {
    match spec.aggregation
    case Millisecond => Some(spec.step)
    case Second => Some(spec.step * 1000)
    case Minute => Some(spec.step * 60_000)
    case Hour => Some(spec.step * 3_600_000)
    case Day => Some(spec.step * 86_400_000)
    case Week => Some(spec.step * 604_800_000)
    case _ => None
  }

  // ---------------------------------------------------------------------------
  // Request defaults

  /** `if not start: limit = self._cache.tick_capacity` */
  function TickLimit(start: Option<Nanos>, limit: int, tickCapacity: int): int {
    if start.None? then tickCapacity else limit
  }

  /** `if not end: end = pd.Timestamp.utcnow()` */
  function EffectiveEnd(end: Option<Nanos>, now: Nanos): Nanos {
    if end.None? then now else end.value
  }

  const DefaultBarLimit: int := 1000

  /** `if not request.start and limit == 0: limit = 1000` */
  function BarLimit(start: Option<Nanos>, limit: int): int {
    if start.None? && limit == 0 then DefaultBarLimit else limit
  }

  /** Without a start, a tick request with a positive cache capacity and a bar
      request with a non-negative limit make at least one call, the first
      ending at the effective `end`; the caller's tick limit is then
      disregarded. */
  lemma FirstCallWithoutStart(pages: seq<seq<Record>>, limit: int, tickCapacity: int, end: Option<Nanos>, now: Nanos)
    ensures tickCapacity > 0 ==>
      var ends := TicksFrom(pages, None, TickLimit(None, limit, tickCapacity), 0, EffectiveEnd(end, now), []).1;
      ends != [] && ends[0] == EffectiveEnd(end, now)
    ensures limit >= 0 ==>
      var ends := BarsFrom(pages, None, BarLimit(None, limit), 0, EffectiveEnd(end, now), []).1;
      ends != [] && ends[0] == EffectiveEnd(end, now)
    ensures TicksFrom(pages, None, TickLimit(None, limit, tickCapacity), 0, EffectiveEnd(end, now), [])
         == TicksFrom(pages, None, tickCapacity, 0, EffectiveEnd(end, now), [])
  {
    TicksFromStops(pages, None, TickLimit(None, limit, tickCapacity), 0, EffectiveEnd(end, now), []);
    BarsFromStops(pages, None, BarLimit(None, limit), 0, EffectiveEnd(end, now), []);
  }

  /** The duration string of a bar request; `None` where computing it raises
      (no start, and a bar specification without a timedelta). The conversion
      `timedelta_to_duration_str` is the parameter `durationStr`. */
  function BarDuration(start: Option<Nanos>, end: Nanos, spec: BarSpec, durationStr: Nanos -> string): Option<string> {
    if start.Some? then Some(durationStr(end - start.value))
    else match TimedeltaMillis(spec)
      case None => None
      case Some(ms) => Some(if ms >= 60_000 then "7 D" else "1 D")
  }

  /** Without a start, the duration is a week exactly when the bar interval is
      at least a minute, and a day for shorter intervals. */
  lemma DefaultDurationByInterval(end: Nanos, spec: BarSpec, durationStr: Nanos -> string)
    requires TimedeltaMillis(spec).Some?
    ensures BarDuration(None, end, spec, durationStr) == Some("7 D") <==> TimedeltaMillis(spec).value >= 60_000
    ensures BarDuration(None, end, spec, durationStr) == Some("1 D") <==> TimedeltaMillis(spec).value < 60_000
  {
  }

  /** With a start, the duration depends only on the window `end - start`,
      never on the bar specification. */
  lemma DurationWithStartIgnoresSpec(start: Nanos, end: Nanos, a: BarSpec, b: BarSpec, durationStr: Nanos -> string)
    ensures BarDuration(Some(start), end, a, durationStr) == BarDuration(Some(start), end, b, durationStr)
    ensures BarDuration(Some(start), end, a, durationStr) == Some(durationStr(end - start))
  {
  }

  // ---------------------------------------------------------------------------
  // Routing of bar subscriptions

  datatype BarsRoute = RealtimeBars | HistoricalBars

  /** `_subscribe_bars`: realtime bars iff `timedelta.total_seconds() == 5`;
      `None` where the timedelta raises. */
  function SubscribeBarsRoute(spec: BarSpec): Option<BarsRoute> {
    match TimedeltaMillis(spec)
    case None => None
    case Some(ms) => Some(if ms == 5000 then RealtimeBars else HistoricalBars)
  }

  /** Exactly the five-second bar specifications are streamed as realtime bars. */
  lemma {:induction false} RealtimeIffFiveSeconds(spec: BarSpec)
    ensures SubscribeBarsRoute(spec) == Some(RealtimeBars)
      <==> spec == BarSpec(5, Second) || spec == BarSpec(5000, Millisecond)
    ensures SubscribeBarsRoute(spec).None? <==> !IsTimeAggregated(spec) || spec.aggregation == Month
  {
    match spec.aggregation
    case Minute => assert spec.step == 0 || spec.step * 60_000 >= 60_000;
    case Hour => assert spec.step == 0 || spec.step * 3_600_000 >= 3_600_000;
    case Day => assert spec.step == 0 || spec.step * 86_400_000 >= 86_400_000;
    case Week => assert spec.step == 0 || spec.step * 604_800_000 >= 604_800_000;
    case _ =>
  }

  /** `_unsubscribe_bars` as written: `bar_type.spec.timedelta == 5` compares a
      `timedelta` with an `int`, which Python never finds equal, so every bar
      type whose timedelta exists goes to the historical-bars unsubscription. */
  function UnsubscribeBarsRouteAsWritten(spec: BarSpec): Option<BarsRoute> {
    match TimedeltaMillis(spec)
    case None => None
    case Some(_) => Some(HistoricalBars)
  }

  lemma UnsubscribeAsWrittenNeverRealtime(spec: BarSpec)
    ensures UnsubscribeBarsRouteAsWritten(spec) != Some(RealtimeBars)
  {
  }

  /** The five-second bar type is subscribed as realtime bars and, as written,
      unsubscribed as historical bars: the realtime stream is never cancelled. */
  lemma UnsubscribeAsWrittenMismatch()
    ensures SubscribeBarsRoute(BarSpec(5, Second)) == Some(RealtimeBars)
    ensures UnsubscribeBarsRouteAsWritten(BarSpec(5, Second)) == Some(HistoricalBars)
  {
  }

  /** `_unsubscribe_bars` as intended: the same test as the subscription,
      `timedelta.total_seconds() == 5`. */
  function UnsubscribeBarsRoute(spec: BarSpec): (r: Option<BarsRoute>)
    ensures r == SubscribeBarsRoute(spec)
  {
    match TimedeltaMillis(spec)
    case None => None
    case Some(ms) => Some(if ms == 5000 then RealtimeBars else HistoricalBars)
  }

  // ---------------------------------------------------------------------------
  // Pagination

  /** `(start and end > start) or (len(records) < limit > 0)`: the chained
      comparison means `len(records) < limit and limit > 0`. */
  predicate KeepPaging(start: Option<Nanos>, end: Nanos, count: nat, limit: int) {
    (start.Some? && end > start.value) || (count < limit && limit > 0)
  }

  /** The page the venue returns on call `k` (counting from 0). */
  function PageAt(pages: seq<seq<Record>>, k: nat): seq<Record> {
    if k < |pages| then pages[k] else []
  }

  /** Everything the first `n` calls returned, in call order. */
  function Fetched(pages: seq<seq<Record>>, n: nat): seq<Record>
    decreases n
  {
    if n == 0 then [] else Fetched(pages, n - 1) + PageAt(pages, n - 1)
  }

  /** `min(records, key=attrgetter("ts_init")).ts_init` */
  function MinTsInit(records: seq<Record>): Nanos
    requires records != []
    decreases |records|
  {
    if |records| == 1 then records[0].tsInit
    else
      var rest := MinTsInit(records[1..]);
      if records[0].tsInit <= rest then records[0].tsInit else rest
  }

  /** `MinTsInit` is the `ts_init` of some record, and no record's is smaller. */
  lemma {:induction false} MinTsInitIsMinimum(records: seq<Record>)
    requires records != []
    ensures exists i :: 0 <= i < |records| && records[i].tsInit == MinTsInit(records)
    ensures forall i :: 0 <= i < |records| ==> MinTsInit(records) <= records[i].tsInit
    decreases |records|
  {
    if |records| > 1 {
      MinTsInitIsMinimum(records[1..]);
      assert forall i :: 1 <= i < |records| ==> records[i] == records[1..][i - 1];
      var j :| 0 <= j < |records[1..]| && records[1..][j].tsInit == MinTsInit(records[1..]);
      if records[0].tsInit > MinTsInit(records[1..]) {
        assert records[j + 1].tsInit == MinTsInit(records);
      }
    } else {
      assert records[0].tsInit == MinTsInit(records);
    }
  }

  /** `min(records, key=attrgetter("ts_event")).ts_event` */
  function MinTsEvent(records: seq<Record>): Nanos
    requires records != []
    decreases |records|
  {
    if |records| == 1 then records[0].tsEvent
    else
      var rest := MinTsEvent(records[1..]);
      if records[0].tsEvent <= rest then records[0].tsEvent else rest
  }

  /** `MinTsEvent` is the `ts_event` of some record, and no record's is smaller. */
  lemma {:induction false} MinTsEventIsMinimum(records: seq<Record>)
    requires records != []
    ensures exists i :: 0 <= i < |records| && records[i].tsEvent == MinTsEvent(records)
    ensures forall i :: 0 <= i < |records| ==> MinTsEvent(records) <= records[i].tsEvent
    decreases |records|
  {
    if |records| > 1 {
      MinTsEventIsMinimum(records[1..]);
      assert forall i :: 1 <= i < |records| ==> records[i] == records[1..][i - 1];
      var j :| 0 <= j < |records[1..]| && records[1..][j].tsEvent == MinTsEvent(records[1..]);
      if records[0].tsEvent > MinTsEvent(records[1..]) {
        assert records[j + 1].tsEvent == MinTsEvent(records);
      }
    } else {
      assert records[0].tsEvent == MinTsEvent(records);
    }
  }

  /** What the loop of `_handle_ticks_request` does from call `k` on, with `e`
      the `end_date_time` of that call and `acc` the ticks gathered before it:
      while `KeepPaging` holds, fetch page `k`; stop at the first empty page;
      otherwise add the page and step `end` back to that page's earliest
      `ts_init`. The result is every tick gathered (unsorted) and the
      `end_date_time` of each call made from `k` on. */
  function TicksFrom(pages: seq<seq<Record>>, start: Option<Nanos>, limit: int, k: nat, e: Nanos, acc: seq<Record>)
    : (seq<Record>, seq<Nanos>)
    decreases |pages| - k
  {
    if !KeepPaging(start, e, |acc|, limit) then (acc, [])
    else
      var page := PageAt(pages, k);
      if page == [] then (acc, [e])
      else
        var rest := TicksFrom(pages, start, limit, k + 1, MinTsInit(page), acc + page);
        (rest.0, [e] + rest.1)
  }

  /** The ticks gathered are exactly the pages of the calls made, in call order. */
  lemma {:induction false} TicksFromFetched(pages: seq<seq<Record>>, start: Option<Nanos>, limit: int, k: nat, e: Nanos, acc: seq<Record>)
    requires acc == Fetched(pages, k)
    ensures TicksFrom(pages, start, limit, k, e, acc).0 == Fetched(pages, k + |TicksFrom(pages, start, limit, k, e, acc).1|)
    decreases |pages| - k
  {
    var page := PageAt(pages, k);
    if KeepPaging(start, e, |acc|, limit) && page != [] {
      TicksFromFetched(pages, start, limit, k + 1, MinTsInit(page), acc + page);
    }
  }

  /** At most one call is made past the last page the venue has. */
  lemma {:induction false} TicksFromBounded(pages: seq<seq<Record>>, start: Option<Nanos>, limit: int, k: nat, e: Nanos, acc: seq<Record>)
    requires k <= |pages|
    ensures |TicksFrom(pages, start, limit, k, e, acc).1| <= |pages| - k + 1
    decreases |pages| - k
  {
    var page := PageAt(pages, k);
    if KeepPaging(start, e, |acc|, limit) && page != [] {
      TicksFromBounded(pages, start, limit, k + 1, MinTsInit(page), acc + page);
    }
  }

  /** Without a start, the tick loop makes at most as many calls as ticks
      are still missing from the limit, whatever the venue returns: every
      call but an empty last one adds at least one tick. */
  lemma {:induction false} TicksCallsAtMostLimit(pages: seq<seq<Record>>, limit: int, k: nat, e: Nanos, acc: seq<Record>)
    ensures |TicksFrom(pages, None, limit, k, e, acc).1| <= if limit - |acc| > 0 then limit - |acc| else 0
    decreases |pages| - k
  {
    var page := PageAt(pages, k);
    if KeepPaging(None, e, |acc|, limit) && page != [] {
      TicksCallsAtMostLimit(pages, limit, k + 1, MinTsInit(page), acc + page);
    }
  }

  /** Call `j` is made only while the loop condition holds for what the calls
      before it returned. */
  lemma {:induction false} TicksFromCall(pages: seq<seq<Record>>, start: Option<Nanos>, limit: int, k: nat, e: Nanos, acc: seq<Record>, j: nat)
    requires acc == Fetched(pages, k)
    requires j < |TicksFrom(pages, start, limit, k, e, acc).1|
    ensures KeepPaging(start, TicksFrom(pages, start, limit, k, e, acc).1[j], |Fetched(pages, k + j)|, limit)
    decreases j
  {
    var page := PageAt(pages, k);
    if j > 0 {
      TicksFromCall(pages, start, limit, k + 1, MinTsInit(page), acc + page, j - 1);
    }
  }

  /** Every call but the last returned a page, and the next call ends at that
      page's earliest `ts_init`. */
  lemma {:induction false} TicksFromStep(pages: seq<seq<Record>>, start: Option<Nanos>, limit: int, k: nat, e: Nanos, acc: seq<Record>, j: nat)
    requires acc == Fetched(pages, k)
    requires j + 1 < |TicksFrom(pages, start, limit, k, e, acc).1|
    ensures PageAt(pages, k + j) != []
    ensures TicksFrom(pages, start, limit, k, e, acc).1[j + 1] == MinTsInit(PageAt(pages, k + j))
    decreases j
  {
    var page := PageAt(pages, k);
    if j > 0 {
      TicksFromStep(pages, start, limit, k + 1, MinTsInit(page), acc + page, j - 1);
    }
  }

  /** The first call ends at the given `end`. The loop stops on an empty page
      or, after a page, because its condition fails at the new `end` and the
      new count; without a start, that means the limit has been reached. */
  lemma {:induction false} TicksFromStops(pages: seq<seq<Record>>, start: Option<Nanos>, limit: int, k: nat, e: Nanos, acc: seq<Record>)
    ensures var (ticks, ends) := TicksFrom(pages, start, limit, k, e, acc);
      && (ends == [] <==> !KeepPaging(start, e, |acc|, limit))
      && (ends != [] ==> ends[0] == e)
      && (ends != [] && PageAt(pages, k + |ends| - 1) != [] ==>
            !KeepPaging(start, MinTsInit(PageAt(pages, k + |ends| - 1)), |ticks|, limit))
      && (start.None? && (ends == [] || PageAt(pages, k + |ends| - 1) != []) ==> |ticks| >= limit)
    decreases |pages| - k
  {
    var page := PageAt(pages, k);
    if KeepPaging(start, e, |acc|, limit) && page != [] {
      TicksFromStops(pages, start, limit, k + 1, MinTsInit(page), acc + page);
    }
  }

  /** The last call of `TicksFrom`, after the calls ending at `ends`: an
      empty page. */
  lemma TicksFromLast(pages: seq<seq<Record>>, start: Option<Nanos>, limit: int, ends: seq<Nanos>, e: Nanos, acc: seq<Record>)
    requires KeepPaging(start, e, |acc|, limit)
    requires PageAt(pages, |ends|) == []
    ensures var run := TicksFrom(pages, start, limit, |ends|, e, acc);
      run.0 == acc && ends + run.1 == ends + [e]
  {
  }

  /** A call after those ending at `ends` that returned ticks: the run goes
      on from the next call, at the page's earliest `ts_init`. */
  lemma TicksFromNext(pages: seq<seq<Record>>, start: Option<Nanos>, limit: int, ends: seq<Nanos>, e: Nanos, acc: seq<Record>)
    requires KeepPaging(start, e, |acc|, limit)
    requires PageAt(pages, |ends|) != []
    ensures var page := PageAt(pages, |ends|);
      var run := TicksFrom(pages, start, limit, |ends|, e, acc);
      var rest := TicksFrom(pages, start, limit, |ends + [e]|, MinTsInit(page), acc + page);
      run.0 == rest.0 && ends + run.1 == (ends + [e]) + rest.1
  {
    var page := PageAt(pages, |ends|);
    assert |ends + [e]| == |ends| + 1;
    var rest := TicksFrom(pages, start, limit, |ends| + 1, MinTsInit(page), acc + page);
    assert TicksFrom(pages, start, limit, |ends|, e, acc) == (rest.0, [e] + rest.1);
    ConcatAssociative(ends, [e], rest.1);
  }

  /** The loop of `_handle_ticks_request`: default the limit and the end, run
      `TicksFrom` from the first call, and sort the ticks by `ts_init`,
      duplicates kept. `ends` holds the `end_date_time` of each call. */
  method HandleTicksRequest(
    pages: seq<seq<Record>>, limit: int, start: Option<Nanos>, end: Option<Nanos>,
    tickCapacity: int, now: Nanos)
    returns (ticks: seq<Record>, ends: seq<Nanos>)
    ensures var run := TicksFrom(pages, start, TickLimit(start, limit, tickCapacity), 0, EffectiveEnd(end, now), []);
      ends == run.1 && ticks == SortByTsInit(run.0)
    ensures SortedBy(ticks, TsInitLe)
    ensures multiset(ticks) == multiset(Fetched(pages, |ends|))
  {
    var lim := TickLimit(start, limit, tickCapacity);
    var e := EffectiveEnd(end, now);
    ghost var run := TicksFrom(pages, start, lim, 0, e, []);
    TicksFromFetched(pages, start, lim, 0, e, []);
    var acc: seq<Record> := [];
    ends := [];
    while KeepPaging(start, e, |acc|, lim)
      invariant |ends| <= |pages|
      invariant var rest := TicksFrom(pages, start, lim, |ends|, e, acc);
        run.0 == rest.0 && run.1 == ends + rest.1
      decreases |pages| - |ends|
    {
      var page := PageAt(pages, |ends|);
      if page == [] {
        TicksFromLast(pages, start, lim, ends, e, acc);
        ends := ends + [e];
        break;
      }
      TicksFromNext(pages, start, lim, ends, e, acc);
      ends := ends + [e];
      acc := acc + page;
      e := MinTsInit(page);
    }
    assert ends + [] == ends;
    assert run == (acc, ends);
    ticks := SortByTsInit(acc);
  }

  /** What the loop of `_request_bars` does from call `k` on, given the
      defaulted `limit`: while `KeepPaging` holds, fetch page `k` and add it to
      the bars; stop after an empty page, or after this one call when a start
      is given; otherwise step `end` back to the earliest `ts_event` of ALL bars
      gathered so far. */
  function BarsFrom(pages: seq<seq<Record>>, start: Option<Nanos>, limit: int, k: nat, e: Nanos, acc: seq<Record>)
    : (seq<Record>, seq<Nanos>)
    decreases |pages| - k
  {
    if !KeepPaging(start, e, |acc|, limit) then (acc, [])
    else
      var page := PageAt(pages, k);
      var acc' := acc + page;
      if page == [] || start.Some? then (acc', [e])
      else
        var rest := BarsFrom(pages, start, limit, k + 1, MinTsEvent(acc'), acc');
        (rest.0, [e] + rest.1)
  }

  /** The bars gathered are exactly the pages of the calls made, in call order. */
  lemma {:induction false} BarsFromFetched(pages: seq<seq<Record>>, start: Option<Nanos>, limit: int, k: nat, e: Nanos, acc: seq<Record>)
    requires acc == Fetched(pages, k)
    ensures BarsFrom(pages, start, limit, k, e, acc).0 == Fetched(pages, k + |BarsFrom(pages, start, limit, k, e, acc).1|)
    decreases |pages| - k
  {
    var page := PageAt(pages, k);
    if KeepPaging(start, e, |acc|, limit) && page != [] && start.None? {
      BarsFromFetched(pages, start, limit, k + 1, MinTsEvent(acc + page), acc + page);
    }
  }

  /** At most one call past the last page; with a start, at most one call. */
  lemma {:induction false} BarsFromBounded(pages: seq<seq<Record>>, start: Option<Nanos>, limit: int, k: nat, e: Nanos, acc: seq<Record>)
    requires k <= |pages|
    ensures |BarsFrom(pages, start, limit, k, e, acc).1| <= |pages| - k + 1
    ensures start.Some? ==> |BarsFrom(pages, start, limit, k, e, acc).1| <= 1
    decreases |pages| - k
  {
    var page := PageAt(pages, k);
    if KeepPaging(start, e, |acc|, limit) && page != [] && start.None? {
      BarsFromBounded(pages, start, limit, k + 1, MinTsEvent(acc + page), acc + page);
    }
  }

  /** Without a start, the bar loop makes at most as many calls as bars are
      still missing from the limit, whatever the venue returns. */
  lemma {:induction false} BarsCallsAtMostLimit(pages: seq<seq<Record>>, limit: int, k: nat, e: Nanos, acc: seq<Record>)
    ensures |BarsFrom(pages, None, limit, k, e, acc).1| <= if limit - |acc| > 0 then limit - |acc| else 0
    decreases |pages| - k
  {
    var page := PageAt(pages, k);
    if KeepPaging(None, e, |acc|, limit) && page != [] {
      BarsCallsAtMostLimit(pages, limit, k + 1, MinTsEvent(acc + page), acc + page);
    }
  }

  /** Call `j` is made only while the loop condition holds for what the calls
      before it returned. */
  lemma {:induction false} BarsFromCall(pages: seq<seq<Record>>, start: Option<Nanos>, limit: int, k: nat, e: Nanos, acc: seq<Record>, j: nat)
    requires acc == Fetched(pages, k)
    requires j < |BarsFrom(pages, start, limit, k, e, acc).1|
    ensures KeepPaging(start, BarsFrom(pages, start, limit, k, e, acc).1[j], |Fetched(pages, k + j)|, limit)
    decreases j
  {
    var page := PageAt(pages, k);
    if j > 0 {
      BarsFromCall(pages, start, limit, k + 1, MinTsEvent(acc + page), acc + page, j - 1);
    }
  }

  /** Every call but the last returned a page, and the next call ends at the
      earliest `ts_event` of everything gathered up to then. */
  lemma {:induction false} BarsFromStep(pages: seq<seq<Record>>, start: Option<Nanos>, limit: int, k: nat, e: Nanos, acc: seq<Record>, j: nat)
    requires acc == Fetched(pages, k)
    requires j + 1 < |BarsFrom(pages, start, limit, k, e, acc).1|
    ensures PageAt(pages, k + j) != [] && start.None?
    ensures BarsFrom(pages, start, limit, k, e, acc).1[j + 1] == MinTsEvent(Fetched(pages, k + j + 1))
    decreases j
  {
    var page := PageAt(pages, k);
    var acc' := acc + page;
    var e' := MinTsEvent(acc');
    assert KeepPaging(start, e, |acc|, limit) && page != [] && start.None?;
    var rest := BarsFrom(pages, start, limit, k + 1, e', acc').1;
    assert BarsFrom(pages, start, limit, k, e, acc).1 == [e] + rest;
    assert Fetched(pages, k + 1) == acc';
    if j > 0 {
      BarsFromStep(pages, start, limit, k + 1, e', acc', j - 1);
      assert (k + 1) + (j - 1) + 1 == k + j + 1;
    } else {
      BarsFromStops(pages, start, limit, k + 1, e', acc');
    }
  }

  /** The first call ends at the given `end`. The loop makes no call exactly
      when its condition fails at once; when it walked back without a start
      and its last page held bars, it stopped because the condition fails at
      the new `end` and the new count. */
  lemma {:induction false} BarsFromStops(pages: seq<seq<Record>>, start: Option<Nanos>, limit: int, k: nat, e: Nanos, acc: seq<Record>)
    ensures var (bars, ends) := BarsFrom(pages, start, limit, k, e, acc);
      && (ends == [] <==> !KeepPaging(start, e, |acc|, limit))
      && (ends != [] ==> ends[0] == e)
      && (ends != [] && start.None? && PageAt(pages, k + |ends| - 1) != [] ==>
            bars != [] && !KeepPaging(start, MinTsEvent(bars), |bars|, limit))
    decreases |pages| - k
  {
    var page := PageAt(pages, k);
    if KeepPaging(start, e, |acc|, limit) && page != [] && start.None? {
      BarsFromStops(pages, start, limit, k + 1, MinTsEvent(acc + page), acc + page);
    }
  }

  /** The last call of `BarsFrom`, after the calls ending at `ends`: an
      empty page, or any page once a start is given. */
  lemma BarsFromLast(pages: seq<seq<Record>>, start: Option<Nanos>, limit: int, ends: seq<Nanos>, e: Nanos, acc: seq<Record>)
    requires KeepPaging(start, e, |acc|, limit)
    requires PageAt(pages, |ends|) == [] || start.Some?
    ensures var run := BarsFrom(pages, start, limit, |ends|, e, acc);
      run.0 == acc + PageAt(pages, |ends|) && ends + run.1 == ends + [e]
  {
  }

  /** A call after those ending at `ends` that is not the last: the run goes
      on from the next call, at the earliest `ts_event` gathered. */
  lemma BarsFromNext(pages: seq<seq<Record>>, start: Option<Nanos>, limit: int, ends: seq<Nanos>, e: Nanos, acc: seq<Record>)
    requires KeepPaging(start, e, |acc|, limit)
    requires PageAt(pages, |ends|) != [] && start.None?
    ensures var acc' := acc + PageAt(pages, |ends|);
      var run := BarsFrom(pages, start, limit, |ends|, e, acc);
      var rest := BarsFrom(pages, start, limit, |ends + [e]|, MinTsEvent(acc'), acc');
      run.0 == rest.0 && ends + run.1 == (ends + [e]) + rest.1
  {
    var acc' := acc + PageAt(pages, |ends|);
    assert |ends + [e]| == |ends| + 1;
    var rest := BarsFrom(pages, start, limit, |ends| + 1, MinTsEvent(acc'), acc');
    assert BarsFrom(pages, start, limit, |ends|, e, acc) == (rest.0, [e] + rest.1);
    ConcatAssociative(ends, [e], rest.1);
  }

  /** The loop of `_request_bars`, given the defaulted `limit` and `end`. */
  method PaginateBars(pages: seq<seq<Record>>, start: Option<Nanos>, end: Nanos, limit: int)
    returns (bars: seq<Record>, ends: seq<Nanos>)
    ensures (bars, ends) == BarsFrom(pages, start, limit, 0, end, [])
    ensures bars == Fetched(pages, |ends|)
  {
    var e := end;
    ghost var run := BarsFrom(pages, start, limit, 0, e, []);
    BarsFromFetched(pages, start, limit, 0, e, []);
    bars := [];
    ends := [];
    while KeepPaging(start, e, |bars|, limit)
      invariant |ends| <= |pages|
      invariant var rest := BarsFrom(pages, start, limit, |ends|, e, bars);
        run.0 == rest.0 && run.1 == ends + rest.1
      decreases |pages| - |ends|
    {
      var page := PageAt(pages, |ends|);
      if page == [] || start.Some? {
        BarsFromLast(pages, start, limit, ends, e, bars);
        ends := ends + [e];
        bars := bars + page;
        break;
      }
      BarsFromNext(pages, start, limit, ends, e, bars);
      ends := ends + [e];
      bars := bars + page;
      e := MinTsEvent(bars);
    }
    assert ends + [] == ends;
    assert run == (bars, ends);
  }

  /** `list(set(bars))` then `sort(key=lambda x: x.ts_init)`: the distinct bars,
      each once, ascending by ingestion time. */
  function FinalBars(bars: seq<Record>): (r: seq<Record>)
    ensures SortedBy(r, TsInitLe)
    ensures forall b :: b in r <==> b in bars
    ensures forall b :: multiset(r)[b] <= 1
  {
    var d := Dedup(bars);
    var r := SortByTsInit(d);
    assert forall b :: b in r <==> b in multiset(d);
    r
  }

  /** The bar result is ordered by `ts_init`, not by `ts_event`: two bars whose
      clocks disagree come back in ingestion order. */
  lemma FinalBarsNotOrderedByEvent(a: Record, b: Record)
    requires a.tsInit < b.tsInit && a.tsEvent > b.tsEvent
    ensures !SortedBy(FinalBars([a, b]), TsEventLe)
  {
    var r := FinalBars([a, b]);
    assert a in r && b in r;
    var i :| 0 <= i < |r| && r[i] == a;
    var j :| 0 <= j < |r| && r[j] == b;
    assert i < j && !TsEventLe(r[i], r[j]);
  }

  datatype Status = Success | Failed

  /** The status published for a bar request that ran its loop. */
  function BarsStatus(finalBars: seq<Record>): Status {
    if finalBars != [] then Success else Failed
  }

  /** `Success` exactly when some page held a bar. */
  lemma {:induction false} BarsStatusIffFetched(bars: seq<Record>)
    ensures BarsStatus(FinalBars(bars)) == Success <==> bars != []
  {
    if bars != [] {
      assert bars[0] in FinalBars(bars);
    }
  }
}
