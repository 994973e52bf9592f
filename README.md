# Interactive Brokers data client and Parquet data catalog, in Dafny

This project models two parts of a trading platform's market-data layer and
proves properties of the model.

1. **The Interactive Brokers live data client** (`data.py`). The model covers:
   - how a data client registers with and leaves the IB client session it shares with other clients;
   - the guards in front of every subscription and historical request;
   - which session call each subscription and unsubscription makes;
   - the two backward-walking paginators behind historical tick and bar requests;
   - the messages a bar request publishes, including its status.
2. **The Parquet data catalog** (`parquet.py`). The model covers:
   - how a catalog is located from a URI and which filesystem protocol it defaults to;
   - the directory layout of `_make_path`;
   - the DataFusion SQL text `_build_query` produces, compared with the pyarrow filters of `_load_pyarrow_table`;
   - how `write_data` splits its input into single-class chunks;
   - how the Feather files of a backtest or live run are named and read back.

Files:

- `collections.dfy` (module `Collections`) models Python's stable `sorted` as an insertion sort over a total preorder, and `list(set(...))`.
- `text.dfy` (module `Text`) models the Python string operations the catalog uses on `seq<char>`:
  - `join`, `in`, `replace` and `str(int)`;
  - string ordering;
  - `PurePosixPath(...).parent.name`.
- `ib_requests.dfy` (module `IbRequests`) holds the value-level part of the client:
  - records, bar specifications, request defaults and bar routing;
  - the tick and bar paginators. Each is a loop method proved against a recursive function (`TicksFrom`, `BarsFrom`) that describes the loop call by call.
- `ib_data_client.dfy` (module `IbDataClient`) holds two classes:
  - `IbClient`, the shared session, with its registered client ids, its running flag and a log of the calls made on it;
  - `DataClient`, whose methods are `_connect`, `_disconnect`, the subscriptions, the unsubscriptions and the two request paths. The message bus and the data engine are one log, `published`.
- `parquet_catalog.dfy` (module `ParquetCatalog`) holds the catalog logic:
  - `BuildQuery`, `GroupRuns`/`WriteData`, `ListFeatherFiles` and `ReadFeather` are methods with loops where the source has them;
  - their results are tied to specification functions. Lemmas about those functions prove what the source promises.

The venue's history is modelled as a list of pages, one per call, oldest call first. Once the list is exhausted, every later call returns an empty page. Each paginator also returns the `end_date_time` it passed on each call. The client methods use these values to state the exact sequence of session calls.

### Behaviour of the source worth noting

- **Bar order.** Bars are sorted by `ts_init` (`data.py:479`), not by event time. `IbRequests.FinalBarsNotOrderedByEvent` exhibits two bars the result does not put in event-time order.
- **Tick limit.** Without a start, the tick limit becomes the cache's tick capacity, whatever limit the caller gave (`data.py:413-414`). See `IbRequests.FirstCallWithoutStart`.
- **Tick deduplication.** Ticks are kept with their duplicates. Only bars go through `set(...)` (`data.py:478`). `IbRequests.HandleTicksRequest` keeps every fetched tick, duplicates included (multiset equality).
- **Disconnect.** Disconnecting twice raises: `set.remove` raises for a client that is not registered (`data.py:130`). See `IbDataClient.DisconnectTwiceRaises`.
- **Status events.** A status event is published only by a bar request that reached its loop (`data.py:486-490`). Tick requests publish none, and neither do the early returns. A Month bar specification without a start makes `timedelta` raise before any status is published. See `IbDataClient.DataClient.RequestTicks` and `IbDataClient.DataClient.RequestBars`.

## Model

| member | source | states |
|---|---|---|
| IbRequests.SortByTsInit | nautilus_trader/adapters/interactive_brokers/data.py:434 | Ticks sorted by `ts_init` are ordered by `ts_init` and are a permutation of the input |
| IbRequests.FirstCallWithoutStart | nautilus_trader/adapters/interactive_brokers/data.py:413-420 | Without a start, a tick request with positive tick capacity and a bar request with non-negative limit make at least one call, ending at the given or current end; the caller's tick limit is then replaced by the tick capacity and has no effect |
| IbRequests.DefaultDurationByInterval | nautilus_trader/adapters/interactive_brokers/data.py:459-460 | Without a start, the duration is "7 D" exactly when the bar interval is at least 60 s and "1 D" exactly when it is shorter |
| IbRequests.DurationWithStartIgnoresSpec | nautilus_trader/adapters/interactive_brokers/data.py:456-458 | With a start, the duration is the conversion of `end - start` and does not depend on the bar specification |
| IbRequests.RealtimeIffFiveSeconds | nautilus_trader/adapters/interactive_brokers/data.py:226-238 | A bar subscription is realtime exactly for a 5-second (or 5000-ms) specification; it raises exactly for a non-time or monthly specification |
| IbRequests.UnsubscribeAsWrittenNeverRealtime | nautilus_trader/adapters/interactive_brokers/data.py:310-313 | As written, `timedelta == 5` never holds, so no bar type is unsubscribed from realtime bars |
| IbRequests.UnsubscribeAsWrittenMismatch | nautilus_trader/adapters/interactive_brokers/data.py:305-313 | The 5-second bar type is subscribed as realtime bars but, as written, unsubscribed as historical bars |
| IbRequests.UnsubscribeBarsRoute | nautilus_trader/adapters/interactive_brokers/data.py:305-313 | The corrected unsubscription picks the same route as the subscription for every bar specification |
| IbRequests.MinTsInitIsMinimum | nautilus_trader/adapters/interactive_brokers/data.py:431 | The new tick `end` is the `ts_init` of some tick of the page and no tick of the page has a smaller one |
| IbRequests.MinTsEventIsMinimum | nautilus_trader/adapters/interactive_brokers/data.py:475 | The new bar `end` is the `ts_event` of some bar gathered so far and none has a smaller one |
| IbRequests.TicksFromFetched | nautilus_trader/adapters/interactive_brokers/data.py:420-432 | The ticks gathered are exactly the pages returned by the calls made, in call order |
| IbRequests.TicksFromBounded | nautilus_trader/adapters/interactive_brokers/data.py:420-430 | The tick loop makes at most one call past the last page the venue has |
| IbRequests.TicksCallsAtMostLimit | nautilus_trader/adapters/interactive_brokers/data.py:420-432 | Without a start, the tick loop makes at most `limit - len(ticks)` calls (none when that is not positive), whatever the venue returns |
| IbRequests.TicksFromCall | nautilus_trader/adapters/interactive_brokers/data.py:420 | Each tick call is made only when the loop condition holds for its `end` and the number of ticks gathered before it |
| IbRequests.TicksFromStep | nautilus_trader/adapters/interactive_brokers/data.py:429-431 | Every tick call but the last returned a non-empty page, and the next call ends at that page's earliest `ts_init` |
| IbRequests.TicksFromStops | nautilus_trader/adapters/interactive_brokers/data.py:420-431 | The tick loop makes no call exactly when its condition fails at once. The first call ends at the effective end. When the last page was non-empty, the loop stopped because its condition fails; without a start, that means at least `limit` ticks were gathered |
| IbRequests.HandleTicksRequest | nautilus_trader/adapters/interactive_brokers/data.py:405-435 | The tick loop with the defaulted limit and end computes `TicksFrom`, and the ticks it returns are sorted by `ts_init` and are exactly the fetched ticks, duplicates included |
| IbRequests.BarsFromFetched | nautilus_trader/adapters/interactive_brokers/data.py:463-474 | The bars gathered are exactly the pages returned by the calls made, in call order |
| IbRequests.BarsFromBounded | nautilus_trader/adapters/interactive_brokers/data.py:463-474 | The bar loop makes at most one call past the last page, and at most one call in all when a start is given |
| IbRequests.BarsCallsAtMostLimit | nautilus_trader/adapters/interactive_brokers/data.py:463-475 | Without a start, the bar loop makes at most `limit - len(bars)` calls (none when that is not positive), whatever the venue returns |
| IbRequests.BarsFromCall | nautilus_trader/adapters/interactive_brokers/data.py:463 | Each bar call is made only when the loop condition holds for its `end` and the number of bars gathered before it |
| IbRequests.BarsFromStep | nautilus_trader/adapters/interactive_brokers/data.py:472-475 | Every bar call but the last had no start and returned a non-empty page, and the next call ends at the earliest `ts_event` of everything gathered so far |
| IbRequests.BarsFromStops | nautilus_trader/adapters/interactive_brokers/data.py:463-475 | The bar loop makes no call exactly when its condition fails at once, and the first call ends at the given end. Walking back without a start after a non-empty page, it stopped because the condition fails at the new end and count |
| IbRequests.PaginateBars | nautilus_trader/adapters/interactive_brokers/data.py:462-475 | The bar loop computes `BarsFrom`, and its bars are exactly the pages of the calls it made |
| IbRequests.FinalBars | nautilus_trader/adapters/interactive_brokers/data.py:477-479 | The result is sorted by `ts_init`, holds exactly the bars fetched, and holds each at most once |
| IbRequests.FinalBarsNotOrderedByEvent | nautilus_trader/adapters/interactive_brokers/data.py:479 | Two bars whose `ts_init` and `ts_event` orders disagree come back out of event-time order |
| IbRequests.BarsStatusIffFetched | nautilus_trader/adapters/interactive_brokers/data.py:477-485 | The status is `Success` exactly when some bar was fetched |
| IbDataClient.Unregister | nautilus_trader/adapters/interactive_brokers/data.py:130 | Removal succeeds exactly when the client is registered, and removes exactly that client |
| IbDataClient.ConnectThenDisconnect | nautilus_trader/adapters/interactive_brokers/data.py:119-130 | Registering and then removing a new client restores the registrations |
| IbDataClient.DisconnectTwiceRaises | nautilus_trader/adapters/interactive_brokers/data.py:130 | A second removal of the same client raises |
| IbDataClient.OtherClientKeepsSession | nautilus_trader/adapters/interactive_brokers/data.py:131-132 | While another client is registered, disconnecting never stops the session |
| IbDataClient.TickGuard | nautilus_trader/adapters/interactive_brokers/data.py:180-208 | A tick subscription or request returns early exactly when the instrument is not cached or trades are asked for a currency pair; otherwise it uses the cached instrument |
| IbDataClient.QuotesOnlyNeedCachedInstrument | nautilus_trader/adapters/interactive_brokers/data.py:180-184 | Quotes are refused only for an uncached instrument, and for a non-currency-pair the trade and quote guards agree |
| IbDataClient.BarsMessagesOneStatus | nautilus_trader/adapters/interactive_brokers/data.py:477-490 | A bar request that ran its loop publishes exactly one status, last, on `requests.{id}`. The status is `Success` exactly when bars were fetched, and only then are bars published too |
| IbDataClient.DataClient.constructor | nautilus_trader/adapters/interactive_brokers/data.py:106-111 | The client keeps the session and the configuration flags it was given, and has published nothing |
| IbDataClient.DataClient.Connect | nautilus_trader/adapters/interactive_brokers/data.py:116-127 | Connecting registers the client, sets the market data type once, and hands every loaded instrument to the data engine, in order |
| IbDataClient.DataClient.Disconnect | nautilus_trader/adapters/interactive_brokers/data.py:129-132 | Disconnecting raises exactly for an unregistered client and then changes nothing; otherwise it deregisters the client and stops the session exactly when it is running and no client is left |
| IbDataClient.DataClient.SubscribeTicks | nautilus_trader/adapters/interactive_brokers/data.py:175-215 | A tick subscription makes no call when the guard refuses, else exactly one `subscribe_ticks` call with "BidAsk" for quotes or "AllLast" for trades |
| IbDataClient.DataClient.UnsubscribeTicks | nautilus_trader/adapters/interactive_brokers/data.py:291-303 | A tick unsubscription always makes exactly one `unsubscribe_ticks` call with the matching tick type |
| IbDataClient.DataClient.SubscribeBars | nautilus_trader/adapters/interactive_brokers/data.py:217-238 | A bar subscription does nothing for an uncached instrument. It raises exactly for a specification without timedelta. Otherwise it makes one realtime call for 5-second bars and one historical call for all others |
| IbDataClient.DataClient.UnsubscribeBars | nautilus_trader/adapters/interactive_brokers/data.py:305-313 | With the corrected test, a bar unsubscription cancels the same kind of stream the subscription opened |
| IbDataClient.DataClient.RequestTicks | nautilus_trader/adapters/interactive_brokers/data.py:359-403 | A tick request does nothing when the guard refuses. Otherwise it makes one `get_historical_ticks` call per paginator step, with "BID_ASK" or "TRADES", and publishes the sorted ticks once unless there are none. It publishes no status |
| IbDataClient.DataClient.RequestBars | nautilus_trader/adapters/interactive_brokers/data.py:437-490 | A bar request does nothing for an uncached instrument or non-time bars, and raises exactly when the default duration has no timedelta. Otherwise it makes one `get_historical_bars` call per paginator step with the computed duration, then publishes the distinct sorted bars when there are any, and one status |
| ParquetCatalog.FsProtocol | nautilus_trader/persistence/catalog/parquet.py:110 | A missing or empty protocol becomes "file"; any other protocol is kept |
| ParquetCatalog.FromUriNormalize | nautilus_trader/persistence/catalog/parquet.py:166-168 | The normalised URI always has a scheme and ends with the given URI; a URI that already has `://` is unchanged, and any other gets `file://` in front |
| ParquetCatalog.FromUriIdempotent | nautilus_trader/persistence/catalog/parquet.py:166-168 | Normalising twice is the same as normalising once |
| ParquetCatalog.MakePathOneSegmentDeeper | nautilus_trader/persistence/catalog/parquet.py:186-192 | An instrument's directory is its class's directory plus exactly one path segment, the URI-safe instrument id |
| ParquetCatalog.MakePathParentIsClass | nautilus_trader/persistence/catalog/parquet.py:186-192 | The parent directory of an instrument's data is named after the class file name |
| ParquetCatalog.BuildQuery | nautilus_trader/persistence/catalog/parquet.py:426-446 | The query built step by step is the select, the `AND`-joined conditions (truthy where, then the truthy inclusive bounds) under `WHERE` when there are any, and the ordering |
| ParquetCatalog.QueryFrame | nautilus_trader/persistence/catalog/parquet.py:434-445 | Every query starts with `SELECT * FROM {table}` and ends with ` ORDER BY ts_init` |
| ParquetCatalog.WhereIffConditions | nautilus_trader/persistence/catalog/parquet.py:443-444 | The query has a `WHERE` clause exactly when there is at least one condition |
| ParquetCatalog.FalsyBoundIgnored | nautilus_trader/persistence/catalog/parquet.py:437-442 | A falsy start or end (`0`, `""`, `0.0`) adds no condition, just like a missing one |
| ParquetCatalog.BoundsIffGiven | nautilus_trader/persistence/catalog/parquet.py:435-442 | The conditions hold a `ts_init >= ` bound exactly when the start is truthy and a `ts_init <= ` bound exactly when the end is truthy; there are at most three |
| ParquetCatalog.FalsyStartDiverges | nautilus_trader/persistence/catalog/parquet.py:415-419 | On a falsy start, the pyarrow path still filters `ts_init >=` its conversion while the SQL path has no condition, whatever the two conversions are |
| ParquetCatalog.TruthyBoundsAgree | nautilus_trader/persistence/catalog/parquet.py:415-419 | On truthy bounds, each path applies one inclusive lower and one inclusive upper bound from its own conversion (`pd.Timestamp(x).value` for pyarrow, `dt_to_unix_nanos` for SQL). Where the two conversions agree on both bounds, the SQL conditions are the pyarrow filters written as text |
| ParquetCatalog.Key | nautilus_trader/persistence/catalog/parquet.py:228-236 | The key is the class name together with an instrument id, taken from an `Instrument`'s id, a `Bar`'s bar type or any other object's `instrument_id`. It is missing exactly for objects that are neither an `Instrument` nor a `Bar` and have no `instrument_id`, even when they have an `id` |
| ParquetCatalog.KeyLeAntisymmetric | nautilus_trader/persistence/catalog/parquet.py:239 | Keys that sort before each other are equal |
| ParquetCatalog.KeyLeTransitive | nautilus_trader/persistence/catalog/parquet.py:239 | The key order is transitive |
| ParquetCatalog.ObjectLeTotalPreorder | nautilus_trader/persistence/catalog/parquet.py:239 | Comparing objects by key is a total preorder, so sorting by key is well defined |
| ParquetCatalog.GroupRuns | nautilus_trader/persistence/catalog/parquet.py:239-245 | Grouping sorted objects yields chunks whose concatenation is the input; each chunk is non-empty with one key, and the keys strictly increase |
| ParquetCatalog.WriteData | nautilus_trader/persistence/catalog/parquet.py:227-245 | Every object is written exactly once, in key order. Each chunk holds one class and one instrument id, and no two chunks share a key |
| ParquetCatalog.ChunkKeysDistinct | nautilus_trader/persistence/catalog/parquet.py:238-239 | Chunks grouped from key-sorted input never repeat a key |
| ParquetCatalog.ObjectInOneChunk | nautilus_trader/persistence/catalog/parquet.py:238-245 | At most one chunk holds a given object |
| ParquetCatalog.ObjectInSomeChunk | nautilus_trader/persistence/catalog/parquet.py:238-245 | Every object written is in some chunk, one whose key is the object's key |
| ParquetCatalog.ListFeatherFiles | nautilus_trader/persistence/catalog/parquet.py:566-581 | Under the prefix `{path}/{kind}/{urisafe(instance_id)}`, the top-level files are listed first, named by stripping the prefix and `.feather`; the nested files follow, named by their parent directory |
| ParquetCatalog.TopLevelClassNameOf | nautilus_trader/persistence/catalog/parquet.py:574-575 | A file `{prefix}/{name}.feather` is read as class `name` |
| ParquetCatalog.NestedClassNameOfChild | nautilus_trader/persistence/catalog/parquet.py:579-580 | A file `{prefix}/{cls}/{file}` is read as class `cls` |
| ParquetCatalog.NestedClassNameOfDeep | nautilus_trader/persistence/catalog/parquet.py:579-580 | A file `{prefix}/{dirs}/{cls}/{file}` deeper down is read as class `cls` |
| ParquetCatalog.ExtendAdds | nautilus_trader/persistence/catalog/parquet.py:559 | Extending a class's list adds exactly the new objects to the whole |
| ParquetCatalog.ExtendNames | nautilus_trader/persistence/catalog/parquet.py:559 | The lists stay one per class name, and a new class name is added last |
| ParquetCatalog.GroupsHoldLoaded | nautilus_trader/persistence/catalog/parquet.py:545-564 | Unless it raised, reading gathers exactly the objects of the usable, deserialisable files |
| ParquetCatalog.RaisesIffFailure | nautilus_trader/persistence/catalog/parquet.py:555-563 | Reading raises exactly when failures are re-raised and some non-empty file fails to deserialise |
| ParquetCatalog.UnusableFileContributesNothing | nautilus_trader/persistence/catalog/parquet.py:549-550 | A missing or empty file, wherever it stands in the list, changes neither the groups (nor whether reading raises) nor the loaded objects |
| ParquetCatalog.UnusableFilesIgnored | nautilus_trader/persistence/catalog/parquet.py:549-550 | A list of only missing or empty files loads nothing |
| ParquetCatalog.PrefixRaisedStaysRaised | nautilus_trader/persistence/catalog/parquet.py:560-562 | Once a file has raised, reading the whole list raises |
| ParquetCatalog.ReadFeather | nautilus_trader/persistence/catalog/parquet.py:537-564 | Reading returns, unless it raised, every loaded object sorted by `ts_init` and nothing else; it raises exactly when a re-raised failure occurs |
| Collections.SortBy | nautilus_trader/persistence/catalog/parquet.py:564 | `sorted(..., key=...)` returns a sorted permutation of its input |
| Collections.Dedup | nautilus_trader/adapters/interactive_brokers/data.py:478 | `list(set(bars))` keeps exactly the distinct bars, each once |

## Left out

- Waiting for readiness, timeouts, async suspension and concurrency are not modelled. Every venue call returns the next page at once, and nothing runs concurrently.
- Contract construction (`IBContract(**instrument.info["contract"])`) is not modelled; a contract is identified by its instrument id.
- The IB client's internals (`subscribe_*`, `get_historical_*`, `stop()`) are not modelled: each call is recorded in `IbClient.calls`. `stop()` does not change `isRunning` in the model.
- The base-class handlers (`_handle_data`, `_handle_quote_ticks`, `_handle_trade_ticks`, `_handle_bars`) and the message bus are not modelled; what they receive is appended to `published`.
- Logging and `print` are not modelled.
- `_request_instrument` and the other request and subscription methods outside the tick and bar paths are not modelled.
- The instrument provider's `initialize()` is not modelled: the instruments it loaded are a parameter of `Connect`.
- Time is modelled as integer UNIX nanoseconds. `pd.Timestamp.utcnow()` is the parameter `now`. A timestamp is falsy exactly when it is missing.
- `timedelta_to_duration_str`, `urisafe_instrument_id`, `class_to_filename`, `dt_to_unix_nanos` and `pd.Timestamp(x).value` are not modelled; they are function parameters. The last two are separate parameters, and the model does not assume they agree.
- `BarSpecification` is not part of this model. The model assumes `timedelta` exists for millisecond to week aggregations and raises for months and non-time aggregations, and that `is_time_aggregated` covers millisecond to month.
- Filesystems, `fsspec` globbing, `infer_storage_options`, Arrow tables and (de)serialisation are not modelled; what they return is a parameter. This includes whether `**` also matches top-level files.
- `ParquetCatalog.FromUriNormalize`: the Windows path adjustment and the splitting into path, protocol and storage options are not modelled.
- `Collections.Dedup`: Python's set iteration order is undefined. The model keeps first occurrences in order. The sort by `ts_init` that follows is stable, so distinct bars sharing a `ts_init` stay in first-occurrence order. In the source their order is the set's and may differ. `FinalBars` states nothing about that order.
- `Collections.SortBy`: sort stability is not stated as a property.
- `ParquetCatalog.KeyLe`: keys are compared as tuples, with a missing instrument id first. Python raises a `TypeError` when comparing `None` with a string. That case never arises, because objects of one class always have the same kind of key.
- `ParquetCatalog.WriteData`: a class is identified by its name, as `name_to_cls` does. `write_chunk` and `_objects_to_table` are represented by the chunks they receive.
- `ParquetCatalog.TimestampLike`: NaN is not modelled; floats are exact reals.
- `IbRequests.HandleTicksRequest`: with a truthy start, the tick loop in the source runs for as long as the venue keeps returning non-empty pages whose earliest `ts_init` is after the start; it need not terminate. The model's page list is finite and is followed by empty pages, so the model's loop always terminates. The other cases terminate in the source as well: the bar loop with a start makes one call; without a start, each loop makes at most `limit` calls (`IbRequests.TicksCallsAtMostLimit`, `IbRequests.BarsCallsAtMostLimit`).

## Findings

| source | as written | input that shows it | evidently intended | confidence | as-written member | corrected member |
|---|---|---|---|---|---|---|
| nautilus_trader/adapters/interactive_brokers/data.py:310 | `bar_type.spec.timedelta == 5` compares a `timedelta` with the int 5, which is never equal, so every bar type is unsubscribed from historical bars | a 5-second bar type: subscribed with `subscribe_realtime_bars` (line 226), unsubscribed with `unsubscribe_historical_bars`, so the realtime stream stays open | `bar_type.spec.timedelta.total_seconds() == 5`, matching the subscription | high, not executed | IbRequests.UnsubscribeAsWrittenMismatch | IbRequests.UnsubscribeBarsRoute |
