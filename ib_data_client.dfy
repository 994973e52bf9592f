/** The stateful side of the Interactive Brokers data client: registration of
    data clients with the shared IB client session, the guards in front of
    every subscription and request, the calls each one makes on the session,
    and the messages each one publishes.

    The IB session is an object whose calls are recorded in order in `calls`;
    the message bus and the data engine are one log, `published`. The venue's
    answers to historical requests are a parameter (`pages`), as in
    `IbRequests`. */
module IbDataClient {
  import opened Collections
  import opened IbRequests

  type ClientId = string
  type InstrumentId = string
  type RequestId = string

  /** What the client needs of a cached instrument: its id and whether it is
      a `CurrencyPair`. The IB contract built from it is identified by the id. */
  datatype Instrument = Instrument(id: InstrumentId, isCurrencyPair: bool)

  datatype ClientCall =
    | SetMarketDataType(marketDataType: int)
    | SubscribeTicks(instrumentId: InstrumentId, tickType: string, ignoreSize: bool)
    | UnsubscribeTicks(instrumentId: InstrumentId, tickType: string)
    | SubscribeRealtimeBars(barType: BarType, useRth: bool)
    | SubscribeHistoricalBars(barType: BarType, useRth: bool, handleRevisedBars: bool)
    | UnsubscribeRealtimeBars(barType: BarType)
    | UnsubscribeHistoricalBars(barType: BarType)
    | GetHistoricalTicks(instrumentId: InstrumentId, tickType: string, endDateTime: Nanos, useRth: bool)
    | GetHistoricalBars(barType: BarType, endDateTime: Nanos, duration: string, useRth: bool)
    | Stop

  datatype BusMessage =
    | InstrumentData(instrument: Instrument)
    | QuoteTicksResponse(instrumentId: InstrumentId, ticks: seq<Record>, requestId: RequestId)
    | TradeTicksResponse(instrumentId: InstrumentId, ticks: seq<Record>, requestId: RequestId)
    | BarsResponse(barType: BarType, bars: seq<Record>, partial: Record, requestId: RequestId)
    | RequestStatus(topic: string, requestId: RequestId, status: Status)

  datatype TickRequest = TickRequest(
    id: RequestId, instrumentId: InstrumentId, limit: int, start: Option<Nanos>, end: Option<Nanos>)

  datatype BarRequest = BarRequest(
    id: RequestId, barType: BarType, limit: int, start: Option<Nanos>, end: Option<Nanos>)

  datatype TickKind = Quotes | Trades

  // ---------------------------------------------------------------------------
  // Registration with the shared session

  /** `registered_nautilus_clients.remove(id)`: `None` is the `KeyError` raised
      for a client that is not registered. */
  function Unregister(registered: set<ClientId>, id: ClientId): (r: Option<set<ClientId>>)
    ensures r.Some? <==> id in registered
    ensures r.Some? ==> id !in r.value && r.value + {id} == registered
  {
    if id in registered then Some(registered - {id}) else None
  }

  /** `_disconnect` stops the session only when it is running and no data
      client is left registered. */
  predicate StopsSession(isRunning: bool, remaining: set<ClientId>) {
    isRunning && remaining == {}
  }

  /** Connecting and then disconnecting a client leaves the registrations as
      they were before it connected. */
  lemma ConnectThenDisconnect(registered: set<ClientId>, id: ClientId)
    requires id !in registered
    ensures Unregister(registered + {id}, id) == Some(registered)
  {
    assert (registered + {id}) - {id} == registered;
  }

  /** Disconnecting is not idempotent: the second `remove` raises. */
  lemma DisconnectTwiceRaises(registered: set<ClientId>, id: ClientId)
    requires Unregister(registered, id).Some?
    ensures Unregister(Unregister(registered, id).value, id).None?
  {
  }

  /** While another client is still registered, disconnecting never stops the
      shared session. */
  lemma OtherClientKeepsSession(registered: set<ClientId>, id: ClientId, other: ClientId, isRunning: bool)
    requires id != other && other in registered
    requires Unregister(registered, id).Some?
    ensures !StopsSession(isRunning, Unregister(registered, id).value)
  {
    assert other in Unregister(registered, id).value;
  }

  // ---------------------------------------------------------------------------
  // Guards and call construction

  /** The instrument a tick subscription or request goes ahead with; `None`
      when it returns early: the instrument is not cached, or trades are asked
      for a currency pair. */
  function TickGuard(cache: map<InstrumentId, Instrument>, id: InstrumentId, kind: TickKind): (r: Option<Instrument>)
    ensures r.None? <==> id !in cache || (kind == Trades && cache[id].isCurrencyPair)
    ensures r.Some? ==> id in cache && r.value == cache[id]
  {
    if id !in cache then None
    else if kind == Trades && cache[id].isCurrencyPair then None
    else Some(cache[id])
  }

  /** Quote ticks are refused only for an instrument missing from the cache. */
  lemma QuotesOnlyNeedCachedInstrument(cache: map<InstrumentId, Instrument>, id: InstrumentId)
    ensures TickGuard(cache, id, Quotes).Some? <==> id in cache
    ensures id in cache && !cache[id].isCurrencyPair ==> TickGuard(cache, id, Trades) == TickGuard(cache, id, Quotes)
  {
  }

  /** The `tick_type` of a streaming subscription. */
  function StreamTickType(kind: TickKind): string {
    if kind == Quotes then "BidAsk" else "AllLast"
  }

  /** The `tick_type` of a historical request. */
  function HistoricalTickType(kind: TickKind): string {
    if kind == Quotes then "BID_ASK" else "TRADES"
  }

  /** One `get_historical_ticks` call per `end_date_time`, in order. */
  function TickFetchCalls(id: InstrumentId, tickType: string, ends: seq<Nanos>, useRth: bool): seq<ClientCall> {
    seq(|ends|, k requires 0 <= k < |ends| => GetHistoricalTicks(id, tickType, ends[k], useRth))
  }

  /** One `get_historical_bars` call per `end_date_time`, in order. */
  function BarFetchCalls(barType: BarType, duration: string, ends: seq<Nanos>, useRth: bool): seq<ClientCall> {
    seq(|ends|, k requires 0 <= k < |ends| => GetHistoricalBars(barType, ends[k], duration, useRth))
  }

  /** The messages a bar request that ran its loop publishes: the bars, when
      there are any, then its status on `requests.{id}`. */
  function BarsMessages(barType: BarType, finalBars: seq<Record>, requestId: RequestId): seq<BusMessage> {
    (if finalBars != [] then [BarsResponse(barType, finalBars, finalBars[0], requestId)] else [])
      + [RequestStatus("requests." + requestId, requestId, BarsStatus(finalBars))]
  }

  function StatusCount(msgs: seq<BusMessage>): nat {
    if msgs == [] then 0
    else (if msgs[0].RequestStatus? then 1 else 0) + StatusCount(msgs[1..])
  }

  /** A bar request that ran its loop publishes exactly one status, last, on
      `requests.{id}`; it is `Success` exactly when some bar was received, and
      only then are bars published. */
  lemma {:induction false} BarsMessagesOneStatus(barType: BarType, bars: seq<Record>, requestId: RequestId)
    ensures var msgs := BarsMessages(barType, FinalBars(bars), requestId);
      && StatusCount(msgs) == 1
      && msgs[|msgs| - 1] == RequestStatus("requests." + requestId, requestId, if bars != [] then Success else Failed)
      && (|msgs| == 2 <==> bars != [])
  {
    BarsStatusIffFetched(bars);
    var r := FinalBars(bars);
    var last := [RequestStatus("requests." + requestId, requestId, BarsStatus(r))];
    assert StatusCount(last) == 1 by { assert last[1..] == []; }
    if r != [] {
      var msgs := [BarsResponse(barType, r, r[0], requestId)] + last;
      assert msgs[1..] == last;
    }
  }

  // ---------------------------------------------------------------------------
  // The shared IB session

  class IbClient {
    var registeredNautilusClients: set<ClientId>
    var isRunning: bool
    var calls: seq<ClientCall>

    constructor(isRunning: bool)
      ensures this.registeredNautilusClients == {} && this.isRunning == isRunning && this.calls == []
    {
      this.registeredNautilusClients := {};
      this.isRunning := isRunning;
      this.calls := [];
    }
  }

  // ---------------------------------------------------------------------------
  // The data client

  class DataClient {
    const id: ClientId
    const client: IbClient
    const tickCapacity: int
    const marketDataType: int
    const useRegularTradingHours: bool
    const handleRevisedBars: bool
    const ignoreQuoteTickSizeUpdates: bool
    /** The instruments in the shared cache, by id. */
    var cache: map<InstrumentId, Instrument>
    /** Everything sent to the data engine and the message bus, in order. */
    var published: seq<BusMessage>

    constructor(id: ClientId, client: IbClient, tickCapacity: int, marketDataType: int,
                useRth: bool, handleRevisedBars: bool, ignoreSize: bool, cache: map<InstrumentId, Instrument>)
      ensures this.id == id && this.client == client && this.tickCapacity == tickCapacity
      ensures this.marketDataType == marketDataType && this.useRegularTradingHours == useRth
      ensures this.handleRevisedBars == handleRevisedBars && this.ignoreQuoteTickSizeUpdates == ignoreSize
      ensures this.cache == cache && this.published == []
    {
      this.id := id;
      this.client := client;
      this.tickCapacity := tickCapacity;
      this.marketDataType := marketDataType;
      this.useRegularTradingHours := useRth;
      this.handleRevisedBars := handleRevisedBars;
      this.ignoreQuoteTickSizeUpdates := ignoreSize;
      this.cache := cache;
      this.published := [];
    }

    /** `_connect`: register with the session, set the market data type, and
        hand every instrument the provider loaded to the data engine. */
    method Connect(loaded: seq<Instrument>)
      modifies this, client
      ensures client.registeredNautilusClients == old(client.registeredNautilusClients) + {id}
      ensures client.isRunning == old(client.isRunning)
      ensures client.calls == old(client.calls) + [SetMarketDataType(marketDataType)]
      ensures |published| == |old(published)| + |loaded|
      ensures published[..|old(published)|] == old(published)
      ensures forall i :: 0 <= i < |loaded| ==> published[|old(published)| + i] == InstrumentData(loaded[i])
      ensures cache == old(cache)
    {
      client.registeredNautilusClients := client.registeredNautilusClients + {id};
      client.calls := client.calls + [SetMarketDataType(marketDataType)];
      for i := 0 to |loaded|
        invariant |published| == |old(published)| + i
        invariant published[..|old(published)|] == old(published)
        invariant forall j :: 0 <= j < i ==> published[|old(published)| + j] == InstrumentData(loaded[j])
        invariant client.registeredNautilusClients == old(client.registeredNautilusClients) + {id}
        invariant client.isRunning == old(client.isRunning)
        invariant client.calls == old(client.calls) + [SetMarketDataType(marketDataType)]
        invariant cache == old(cache)
      {
        published := published + [InstrumentData(loaded[i])];
      }
    }

    /** `_disconnect`: deregister, then stop the session when it is running
        and no data client is left. `raised` is the `KeyError` of a client
        that is not registered; nothing changes then. */
    method Disconnect() returns (raised: bool)
      modifies client
      ensures raised <==> Unregister(old(client.registeredNautilusClients), id).None?
      ensures raised ==> client.registeredNautilusClients == old(client.registeredNautilusClients)
      ensures !raised ==> client.registeredNautilusClients == Unregister(old(client.registeredNautilusClients), id).value
      ensures client.isRunning == old(client.isRunning)
      ensures client.calls == old(client.calls)
        + (if !raised && StopsSession(client.isRunning, client.registeredNautilusClients) then [Stop] else [])
    {
      var remaining := Unregister(client.registeredNautilusClients, id);
      if remaining.None? {
        return true;
      }
      client.registeredNautilusClients := remaining.value;
      if StopsSession(client.isRunning, client.registeredNautilusClients) {
        client.calls := client.calls + [Stop];
      }
      return false;
    }

    /** `_subscribe_quote_ticks` and `_subscribe_trade_ticks`. */
    method SubscribeTicks(instrumentId: InstrumentId, kind: TickKind)
      modifies client
      ensures client.registeredNautilusClients == old(client.registeredNautilusClients)
      ensures client.isRunning == old(client.isRunning)
      ensures TickGuard(cache, instrumentId, kind).None? ==> client.calls == old(client.calls)
      ensures TickGuard(cache, instrumentId, kind).Some? ==>
        client.calls == old(client.calls) + [ClientCall.SubscribeTicks(instrumentId, StreamTickType(kind), ignoreQuoteTickSizeUpdates)]
    {
      var instrument := TickGuard(cache, instrumentId, kind);
      if instrument.None? {
        return;
      }
      client.calls := client.calls + [ClientCall.SubscribeTicks(instrumentId, StreamTickType(kind), ignoreQuoteTickSizeUpdates)];
    }

    /** `_unsubscribe_quote_ticks` and `_unsubscribe_trade_ticks`: no guard. */
    method UnsubscribeTicks(instrumentId: InstrumentId, kind: TickKind)
      modifies client
      ensures client.registeredNautilusClients == old(client.registeredNautilusClients)
      ensures client.isRunning == old(client.isRunning)
      ensures client.calls == old(client.calls) + [ClientCall.UnsubscribeTicks(instrumentId, StreamTickType(kind))]
    {
      client.calls := client.calls + [ClientCall.UnsubscribeTicks(instrumentId, StreamTickType(kind))];
    }

    /** `_subscribe_bars`: nothing for an uncached instrument; `raised` when the
        bar specification has no timedelta; otherwise realtime bars for a
        five-second interval and historical bars for any other. */
    method SubscribeBars(barType: BarType) returns (raised: bool)
      modifies client
      ensures client.registeredNautilusClients == old(client.registeredNautilusClients)
      ensures client.isRunning == old(client.isRunning)
      ensures raised <==> barType.instrumentId in cache && SubscribeBarsRoute(barType.spec).None?
      ensures barType.instrumentId !in cache || raised ==> client.calls == old(client.calls)
      ensures barType.instrumentId in cache && SubscribeBarsRoute(barType.spec) == Some(RealtimeBars) ==>
        client.calls == old(client.calls) + [SubscribeRealtimeBars(barType, useRegularTradingHours)]
      ensures barType.instrumentId in cache && SubscribeBarsRoute(barType.spec) == Some(HistoricalBars) ==>
        client.calls == old(client.calls) + [SubscribeHistoricalBars(barType, useRegularTradingHours, handleRevisedBars)]
    {
      if barType.instrumentId !in cache {
        return false;
      }
      var route := SubscribeBarsRoute(barType.spec);
      match route
      case None =>
        return true;
      case Some(RealtimeBars) =>
        client.calls := client.calls + [SubscribeRealtimeBars(barType, useRegularTradingHours)];
        return false;
      case Some(HistoricalBars) =>
        client.calls := client.calls + [SubscribeHistoricalBars(barType, useRegularTradingHours, handleRevisedBars)];
        return false;
    }

    /** `_unsubscribe_bars`, with the five-second test of the subscription (see
        `UnsubscribeBarsRouteAsWritten` for the test as written): the stream a
        subscription opened is the one cancelled. */
    method UnsubscribeBars(barType: BarType) returns (raised: bool)
      modifies client
      ensures client.registeredNautilusClients == old(client.registeredNautilusClients)
      ensures client.isRunning == old(client.isRunning)
      ensures raised <==> SubscribeBarsRoute(barType.spec).None?
      ensures raised ==> client.calls == old(client.calls)
      ensures SubscribeBarsRoute(barType.spec) == Some(RealtimeBars) ==>
        client.calls == old(client.calls) + [UnsubscribeRealtimeBars(barType)]
      ensures SubscribeBarsRoute(barType.spec) == Some(HistoricalBars) ==>
        client.calls == old(client.calls) + [UnsubscribeHistoricalBars(barType)]
    {
      var route := UnsubscribeBarsRoute(barType.spec);
      match route
      case None =>
        return true;
      case Some(RealtimeBars) =>
        client.calls := client.calls + [UnsubscribeRealtimeBars(barType)];
        return false;
      case Some(HistoricalBars) =>
        client.calls := client.calls + [UnsubscribeHistoricalBars(barType)];
        return false;
    }

    /** `_request_quote_ticks` and `_request_trade_ticks`: after the guard,
        page through the venue's history and hand the sorted ticks over, unless
        there are none. No status message is published for tick requests. */
    method RequestTicks(request: TickRequest, kind: TickKind, pages: seq<seq<Record>>, now: Nanos)
      modifies this, client
      ensures client.registeredNautilusClients == old(client.registeredNautilusClients)
      ensures client.isRunning == old(client.isRunning)
      ensures cache == old(cache)
      ensures TickGuard(cache, request.instrumentId, kind).None? ==>
        client.calls == old(client.calls) && published == old(published)
      ensures TickGuard(cache, request.instrumentId, kind).Some? ==>
        var run := TicksFrom(pages, request.start, TickLimit(request.start, request.limit, tickCapacity),
                             0, EffectiveEnd(request.end, now), []);
        var ticks := SortByTsInit(run.0);
        && client.calls == old(client.calls)
             + TickFetchCalls(request.instrumentId, HistoricalTickType(kind), run.1, useRegularTradingHours)
        && published == old(published)
             + (if ticks == [] then []
                else if kind == Quotes then [QuoteTicksResponse(request.instrumentId, ticks, request.id)]
                else [TradeTicksResponse(request.instrumentId, ticks, request.id)])
    {
      var instrument := TickGuard(cache, request.instrumentId, kind);
      if instrument.None? {
        return;
      }
      var ticks, ends := HandleTicksRequest(pages, request.limit, request.start, request.end, tickCapacity, now);
      client.calls := client.calls
        + TickFetchCalls(request.instrumentId, HistoricalTickType(kind), ends, useRegularTradingHours);
      if ticks == [] {
        return;
      }
      if kind == Quotes {
        published := published + [QuoteTicksResponse(request.instrumentId, ticks, request.id)];
      } else {
        published := published + [TradeTicksResponse(request.instrumentId, ticks, request.id)];
      }
    }

    /** `_request_bars` goes past its guards: the instrument is cached and
        the bars are time-aggregated. */
    predicate BarsProceed(request: BarRequest)
      reads this
    {
      request.barType.instrumentId in cache && IsTimeAggregated(request.barType.spec)
    }

    /** `_request_bars`: nothing for an uncached instrument or a bar type that
        is not time-aggregated; `raised` when the default duration needs a
        timedelta the specification does not have; otherwise page through the
        venue's history and publish the distinct bars sorted by `ts_init`,
        then exactly one status. */
    method RequestBars(request: BarRequest, pages: seq<seq<Record>>, now: Nanos, durationStr: Nanos -> string)
      returns (raised: bool)
      modifies this, client
      ensures client.registeredNautilusClients == old(client.registeredNautilusClients)
      ensures client.isRunning == old(client.isRunning)
      ensures cache == old(cache)
      ensures raised <==> BarsProceed(request) && BarDuration(request.start, EffectiveEnd(request.end, now), request.barType.spec, durationStr).None?
      ensures !BarsProceed(request) || raised ==> client.calls == old(client.calls) && published == old(published)
      ensures BarsProceed(request) && !raised ==>
        var end := EffectiveEnd(request.end, now);
        var run := BarsFrom(pages, request.start, BarLimit(request.start, request.limit), 0, end, []);
        && client.calls == old(client.calls)
             + BarFetchCalls(request.barType, BarDuration(request.start, end, request.barType.spec, durationStr).value, run.1, useRegularTradingHours)
        && published == old(published) + BarsMessages(request.barType, FinalBars(run.0), request.id)
    {
      if request.barType.instrumentId !in cache || !IsTimeAggregated(request.barType.spec) {
        return false;
      }
      var limit := BarLimit(request.start, request.limit);
      var end := EffectiveEnd(request.end, now);
      var duration := BarDuration(request.start, end, request.barType.spec, durationStr);
      if duration.None? {
        return true;
      }
      var bars, ends := PaginateBars(pages, request.start, end, limit);
      client.calls := client.calls + BarFetchCalls(request.barType, duration.value, ends, useRegularTradingHours);
      var result := FinalBars(bars);
      var messages: seq<BusMessage> := [];
      if result != [] {
        messages := [BarsResponse(request.barType, result, result[0], request.id)];
      }
      messages := messages + [RequestStatus("requests." + request.id, request.id, BarsStatus(result))];
      published := published + messages;
      return false;
    }
  }
}
