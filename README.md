# HT_API core, modelled in Dafny

HT_API collects Korean market data from a broker's REST and WebSocket interfaces, turns it into
one-minute candles and option-chain matrices, stores both in PostgreSQL, and runs the dolpha1
band-breakout strategy on the stored bars. This project models the deterministic core of that
pipeline and proves what each piece promises. The clock, the vendor, the database and the
socket are replaced by parameters and recorded calls.

Modules, one per part of the program:

- `Wrappers` holds Python's `None` (`Option`) and raised exceptions (`Result`, `Error`).
- `Text` holds the string operations the code relies on:
  - lexicographic order, `startswith`, `split`/`join`, `lower`;
  - `str`/`int`/`float` on integers;
  - a scanner that reads back the `$k` placeholders of a SQL text.
- `Clock` holds civil date-times as `datetime` handles them, minute arithmetic across calendar boundaries, and the KST helpers of `TimeService`. It also holds `isoformat`/`fromisoformat`, `strftime`/`strptime` on the fixed formats used, and `weekday()`.
- `Models` holds the candle, option and option-chain records, with their `to_dict` serialisers and round trips.
- `Channel` is the asyncio queue between producers and consumers.
- `Subscription`, `Factory`, `Polling`, `Fetchers` and `Processors` cover the polling side:
  - the subscription list;
  - the data-type registry;
  - the retry ladder;
  - the stock, derivatives and option-chain fetchers;
  - the per-fetcher candle gate and the queue consumer.
- `LegacyFeed` is the older single-file pipeline in `src/feed.py`. Its gate, selectors and stamps differ from the newer ones, and lemmas compare the two. Given one unfinished bar, the newer selector returns that bar (`candles[0]`) and the legacy one returns nothing. The newer gate emits on its first call; the legacy gate's first call only primes its cursor.
- `MarketHours` holds the session predicates of `src/utils.py`, the dolpha1 feeder and `wsc/tools.py`.
- `Matrix` is the option matrix builder. `Database` is the batch writer: routing, the table-creation memo, and the upsert builders.
- `Readers` holds the read-side SQL builders, whose placeholder numbers match their argument lists.
- `Feeder`, `Signals` and `Dolpha1` form the dolpha1 strategy:
  - the minute-bar collector, the paged day download and the completeness check;
  - the VWAP/ATR/sigma band features and the signal;
  - the periodic signal check.
- `WscFeed`, `WscCandle`, `WscOrder`, `WscStrategy` and `TradingClient` form the WebSocket client:
  - the message parsers and the tick-to-candle aggregator;
  - the order body and the one-shot buy strategy;
  - the request-body sanitiser.

Where the program updates objects in place, the model is a class with `modifies` clauses. Examples are the gates, registries, aggregators, the writer, the matrix processor and the strategies. Each method is proved against a function of the old state, and the lemmas about those functions state what the program promises. Loops in the source are loops here, with their invariants.

Prices are exact `real`s, and a pandas NaN is `None`. Each place where this differs from IEEE arithmetic is listed below.

## Model

| member | source | states |
|---|---|---|
| Subscription.SubscriptionManager.constructor | src/core/subscription.py:8-9 | a new manager holds no subscriptions |
| Subscription.SubscriptionManager.AddSubscription | src/core/subscription.py:11-12 | the configuration is appended after the existing ones, which are kept in order |
| Subscription.SubscriptionManager.GetSubscriptions | src/core/subscription.py:14-15 | the copy returned lists the same configurations in the same order |
| Subscription.SubscriptionManager.ClearSubscriptions | src/core/subscription.py:17-18 | afterwards no subscription is held |
| Factory.Dispatch | src/fetchers/factory.py:27-53 | ValueError exactly when the data type has no registered class; otherwise that class, with the subscription's symbol and time frame, plus maturity, underlying type and name exactly for an option chain |
| Factory.FetcherRegistry.constructor | src/fetchers/factory.py:19-20 | a new registry is empty |
| Factory.FetcherRegistry.Register | src/fetchers/factory.py:22-25 | the type maps to the new class and every other entry is unchanged |
| Factory.FetcherRegistry.CreateFetcher | src/fetchers/factory.py:27-53 | the dispatch error is raised as is; otherwise a fresh fetcher of the registered class for the subscription's market, or TypeError when the class does not take the dispatched arguments |
| Factory.DefaultsServeEveryType | src/fetchers/factory.py:61-64 | with the default registrations every data type is served, stock candles by the stock fetcher, derivative candles by the derivatives fetcher and option chains by the chain fetcher |
| Factory.FetcherFactory.constructor | src/fetchers/factory.py:57-64 | a new factory owns a fresh registry holding exactly the three default registrations |
| Factory.FetcherFactory.CreateFetcher | src/fetchers/factory.py:66-74 | agrees with the registry's dispatch: its error, or a fetcher exactly when the class and the argument shape match |
| Factory.FetcherFactory.RegisterFetcher | src/fetchers/factory.py:76-79 | replaces the class of one data type and leaves the others |
| WscStrategy.WithinCeiling | wsc/strategy.py:24 | KeyError for a missing price, the comparison with 70000 for an int, a float or a bool, TypeError for any other value |
| WscStrategy.DecideSpec | wsc/strategy.py:22-27 | an order is placed exactly for a price event of the target stock at most 70000 while no position is held; holding a position never places one |
| WscStrategy.ReplayAtMostOne | wsc/strategy.py:22-34 | handling events in turn places at most one order, none when a position is already held, and none when the trader's call raises |
| WscStrategy.ReplayHeld | wsc/strategy.py:22-27 | while a position is held no event places an order |
| WscStrategy.TradingStrategy.constructor | wsc/strategy.py:16-20 | a new strategy holds no position and has placed no order |
| WscStrategy.TradingStrategy.ProcessEvent | wsc/strategy.py:22-27 | a qualifying event calls the trader for one market order of one share of the target and sets the position only when that call returns; a raising call leaves the position unset and escapes; any other event changes nothing; a held position is never followed by another call |
| WscOrder.AccountRoundTrip | wsc/order.py:36-37 | an account number with one dash splits into two dash-free parts that join back to it |
| WscOrder.PlaceOrder | wsc/order.py:35-46 | IndexError when the account has no dash, ValueError for a limit order without a price; otherwise the body holds the account parts, the code, the order type, the quantity as text and the unit price ("0", or the given price for a limit order) |
| MarketHours.StockHours | src/utils.py:8-9 | the stock session is open exactly from 09:00 through 15:30:00, seconds and microseconds included |
| MarketHours.DerivativesHours | src/utils.py:10-11 | the derivatives session is open exactly from 08:45 through 15:45:00 |
| MarketHours.StockOpenImpliesDerivativesOpen | src/utils.py:5-13 | whenever the stock session is open, so is the derivatives session |
| MarketHours.FeederHours | src/strategies/dolpha1/feeder.py:100-103 | the feeder admits exactly 08:45 through 15:47:00; it contains the derivatives session and exceeds it only in minutes 15:45-15:47 |
| MarketHours.WeekdayMarketOpenIff | wsc/tools.py:5-14 | open exactly on a weekday from 09:00 through 15:30:00, that is the stock session minus weekends |
| MarketHours.GetMarketStatus | wsc/tools.py:17-21 | "Open" exactly when the weekday session is open, "Closed" otherwise; the time text is the `%Y-%m-%d %H:%M:%S` stamp of the reading |
| MarketHours.GetMarketInfo | wsc/tools.py:28-36 | the weekday is the reading's day of the week, a weekend exactly for weekdays 5 and 6, open exactly on weekdays 0-4 within 09:00-15:30:00, the time text the same stamp as the status, and the fixed hours text |
| WscFeed.CodeOfHeader | wsc/feed.py:168-169 | a header of at least four `\|`-fields yields its last field as the code, a shorter one "UNKNOWN" |
| WscFeed.IntOrZero | wsc/feed.py:173 | an empty field reads as 0; any other field is its integer value, or ValueError exactly when it is not an integer literal |
| WscFeed.RealOrZero | wsc/feed.py:247-252 | an empty field reads as 0.0; any other field is its decimal value, or ValueError exactly when it is not a decimal literal |
| WscFeed.TickToDict | wsc/feed.py:171-173 | the queued dict starts with the "type" key, then "code" holding the tick's code |
| WscFeed.ParseStockPrice | wsc/feed.py:162-175 | a frame not accepted is ignored; an accepted one gives a price tick whose code comes from the header and whose price is field 2 when present and 0 otherwise |
| WscFeed.ParseStockQuote | wsc/feed.py:192-216 | a frame not accepted or with fewer than 15 `^`-fields is ignored; an accepted longer one gives a quote tick exactly when all nine numeric fields parse, each read from its fixed position, and ValueError otherwise |
| WscFeed.ParseFuturesQuote | wsc/feed.py:233-261 | a frame not accepted or with fewer than 22 fields is ignored; an accepted longer one gives a tick exactly when all ten numeric fields parse, and ValueError otherwise; the fields come from fixed positions, and the current price equals the first ask price because both read field 2 |
| WscFeed.ParseFuturesPrice | wsc/feed.py:278-300 | a frame not accepted or with fewer than 6 fields is ignored; an accepted longer one gives a tick exactly when its four numeric fields parse, and ValueError otherwise; price from field 5, change from field 2, rate from field 4 and volume from field 3 |
| WscFeed.ParseIgnores | wsc/feed.py:162-166 | every handler ignores a JSON frame, a frame not starting with '0' and a frame without its `tr_id` |
| WscFeed.StockPriceOfFields | wsc/feed.py:166-173 | a frame assembled from `^`-free fields with a four-field header parses back to the header's code and the price in field 2 |
| WscFeed.SubscriptionRequest | wsc/feed.py:155-160 | the request has the header (approval key, customer type "P", transaction type "1") and the body (the handler's `tr_id` and key) |
| WscFeed.Handler.constructor | wsc/feed.py:149-153 | the handler keeps its queue and symbol and takes the `tr_id` of its class from the configuration |
| WscFeed.Handler.HandleMessage | wsc/feed.py:162-175 | a parsed frame is appended to the queue as its dict; an ignored frame leaves the queue alone; a bad number raises before anything is queued |
| WscFeed.HandlerRegistry.constructor | wsc/feed.py:82-83 | a new registry is empty |
| WscFeed.HandlerRegistry.Register | wsc/feed.py:85-86 | the type maps to the new class, other entries unchanged |
| WscFeed.HandlerRegistry.CreateHandler | wsc/feed.py:88-92 | ValueError exactly for an unregistered type; otherwise a fresh handler of the registered class for the queue and the symbol |
| WscFeed.DefaultsServeEveryType | wsc/feed.py:100-104 | the defaults register a handler for every data type, and distinct types get distinct classes |
| WscFeed.HandlerFactory.constructor | wsc/feed.py:96-98 | a new factory owns a fresh registry holding exactly the four default handlers |
| WscFeed.HandlerFactory.CreateHandler | wsc/feed.py:106-107 | ValueError exactly for an unregistered type, else a fresh handler of the registered class with the given queue and symbol and the class's tr_id |
| WscFeed.HandlerFactory.RegisterHandler | wsc/feed.py:109-110 | replaces the class of one data type and leaves the others |
| TradingClient.JsonCopy | src/trading/client.py:68 | the JSON round trip succeeds exactly on serialisable values and gives back an equal value; otherwise TypeError |
| TradingClient.DropNoneSpec | src/trading/client.py:31 | dropping `None` keeps exactly the other entries, in order, and their keys |
| TradingClient.DropNoneUnique | src/trading/client.py:61-66 | distinct keys stay distinct after `None` entries are dropped |
| TradingClient.SanitizeBody | src/trading/client.py:58-69 | ValueError for a body that is not a dict; otherwise TypeError exactly when some value does not serialise, else the entries without `None`, in order, with unique keys |
| TradingClient.SafeParams | src/trading/client.py:31 | the query parameters without `None` values, none of which is `None` |
| TradingClient.DropNoneComprehension | src/trading/client.py:31 | the front-to-back comprehension agrees with the filter |
| Processors.CandleDecision | src/processing/processors.py:25-40 | no time or no record: nothing; a time not strictly after the cursor: nothing; otherwise the cursor moves forward to the time before the conversion, whose error escapes, whose None gives `{}` and whose candle is emitted as its dict |
| Processors.EmittedTimesIncrease | src/processing/processors.py:28-36 | over any run of calls the emitted times strictly increase and all lie after the starting cursor, so a minute is enqueued at most once |
| Processors.CursorNeverDecreases | src/processing/processors.py:28-36 | the cursor never moves backwards over a run of calls |
| Processors.CandleProcessor.constructor | src/processing/processors.py:12-16 | the gate starts with no cursor |
| Processors.CandleProcessor.ProcessCandleData | src/processing/processors.py:18-56 | the cursor becomes the decision's cursor, and exactly the emitted record is appended to the queue and returned |
| Processors.Consume | src/processing/processors.py:81-82 | matrices keep their metrics; an item that is not a chain, or that fails to rebuild, changes nothing |
| Processors.ConsumeSerialisedChain | src/processing/processors.py:90-102 | a chain serialised by `to_dict` reaches the matrices as the chain itself |
| Processors.ConsumeAllSkipsOthers | src/processing/processors.py:81-84 | items that are not option chains leave the matrices alone |
| Processors.ConsumeAppends | src/processing/processors.py:90-104 | one consumed item only appends rows to each matrix |
| Processors.ConsumeAllAppends | src/processing/processors.py:77-88 | over a run of items each matrix before is a prefix of the matrix after |
| Processors.DataProcessor.constructor | src/processing/processors.py:60-75 | a count of 0 and a fresh matrix processor over the eight default metrics and 10 strikes, with every matrix empty |
| Processors.DataProcessor.ProcessOptionChain | src/processing/processors.py:90-104 | a chain that rebuilds updates the matrices; one that fails leaves them as they were |
| Processors.DataProcessor.ProcessData | src/processing/processors.py:77-88 | the queue is drained, every item is counted, and the option-chain items reach the matrices in queue order |
| Polling.FilterFailedSpec | src/core/polling.py:30-34 | the failed list is a subsequence of the fetchers holding exactly those whose paired result is empty or an exception |
| Polling.BackoffLadder | src/core/polling.py:38 | the pauses never shrink, stay between 2 and 4 seconds, and the ten of them add up to 33 seconds |
| Polling.WaitSeconds | src/core/polling.py:21-23 | the pause reaches the next minute boundary plus the interval, and is positive for a valid reading |
| Polling.RetrySpec | src/core/polling.py:37-53 | from any round: at most ten rounds, each pause on the schedule, those still failing a subsequence of the failed, an early stop only when none fails, and at least one call per retry |
| Polling.RetryNext | src/core/polling.py:42-49 | one round of the ladder leads to the same outcome as the ladder from the state after it |
| Polling.RetryStop | src/core/polling.py:37-53 | the ladder stops after ten rounds or once no fetcher fails |
| Polling.NoRetry | src/core/polling.py:36 | with nothing failed the ladder does not start |
| Polling.LadderSpec | src/core/polling.py:36-57 | the whole ladder: at most ten rounds on the schedule, those still failing among the failed, an early stop only when none fails, it runs exactly when some fetcher failed |
| Polling.CycleSpec | src/core/polling.py:19-57 | one result per fetcher; those still failing are a subsequence of the fetchers; a leftover failure means all ten rounds ran; retries happen exactly when some fetcher failed; the call counter grows by at least the calls made |
| Polling.PollingManager.constructor | src/core/polling.py:11-15 | not running, no fetches counted |
| Polling.PollingManager.ExecuteFetchCycle | src/core/polling.py:64-87 | every fetcher once, in order, an exception kept as its result; the counter grows by the number of fetchers |
| Polling.PollingManager.RetryFailed | src/core/polling.py:36-57 | the ladder's outcome from the current call count, which the counter then holds |
| Polling.PollingManager.PollOnce | src/core/polling.py:20-57 | one loop iteration is the cycle report at that clock reading, and the counter is the one the cycle leaves |
| Polling.PollingManager.StartPolling | src/core/polling.py:17-62 | sets the running flag, and each cycle starts from the counter the previous one left |
| Polling.PollingManager.Stop | src/core/polling.py:89-90 | clears the running flag and keeps the count |
| Polling.PollingManager.IsRunning | src/core/polling.py:92-94 | the running flag |
| Polling.PollingManager.FetchCount | src/core/polling.py:96-98 | the fetch counter |
| Models.CandleDictKeys | src/models/dataclasses.py:21-32 | the serialised candle has exactly the nine keys, distinct, in the order `to_dict` writes them |
| Models.CandleGets | src/models/dataclasses.py:21-32 | each key holds its field: the ISO timestamp, the time frame as "<n>m", the prices, the volume and "<type>_candle" |
| Models.CandleToDictRoundTrip | src/models/dataclasses.py:21-32 | serialisation loses nothing: the ISO timestamp, "<n>m" and "<type>_candle" all read back to the original candle |
| Models.CandleTypeNamesCandle | src/models/dataclasses.py:31 | the serialised type always contains "candle", which the batch writer selects on |
| Models.OptionFromDict | src/processing/processors.py:92-93 | `OptionData(**d)` succeeds only when every key names a field and every field is given; every failure is a TypeError |
| Models.OptionFromDictExact | src/processing/processors.py:92-93 | with exactly the fields present, the rebuild succeeds exactly when each field holds a value of its declared kind, and the option carries those values |
| Models.OptionDictKeys | src/models/dataclasses.py:50-51 | the instance dict has exactly the twelve fields, distinct, in declaration order |
| Models.OptionGets | src/models/dataclasses.py:36-51 | each key of the instance dict holds its field |
| Models.OptionRoundTrip | src/models/dataclasses.py:50-51 | `OptionData(**o.to_dict())` gives `o` back |
| Models.OptionsRoundTrip | src/models/dataclasses.py:68-69 | a list of options serialised and rebuilt is the same list, in the same order |
| Models.ChainDictKeys | src/models/dataclasses.py:63-71 | the serialised chain has exactly its six keys, distinct, in order |
| Models.ChainGets | src/models/dataclasses.py:63-71 | each key holds its field, the calls and puts as lists of option dicts |
| Models.ChainRoundTrip | src/models/dataclasses.py:63-71 | a serialised chain is rebuilt into the same chain, calls and puts in the same order |
| Models.DefaultSubscription | src/models/dataclasses.py:74-81 | the configuration holds the given type and symbol, a time frame of 1 and no name, maturity or underlying type |
| Fetchers.SelectCompleted | src/fetchers/stock_fetcher.py:27-34 | None exactly for no bars; the freshest bar at the close marker; otherwise the previous bar when there are two or more, else the only one |
| Fetchers.CandlePlan | src/fetchers/stock_fetcher.py:55-70 | an HTTP failure escapes; a non-"0" `rt_cd` or no rows gives `{}`; a freshest bar without a time raises AttributeError; an empty selected bar gives `{}`; otherwise the gate gets the freshest (stock) or selected (derivatives) bar's time and the selected bar, in both directions |
| Fetchers.StockCandle | src/fetchers/stock_fetcher.py:72-92 | None exactly for an empty bar; a ValueError exactly when a price or volume field is malformed; otherwise a stock candle ("s") whose open, high, low, close and volume are the `int()` of their fields (0 when absent), with the fetcher's symbol and time frame and the stock stamp |
| Fetchers.DerivCandle | src/fetchers/deriv_fetcher.py:76-90 | None exactly for an empty bar; a ValueError exactly when a price or volume field is malformed; otherwise a derivatives candle ("d") whose prices are the `float()` of their fields and whose volume is the `int()`, stamped with the start of the current minute |
| Fetchers.StockStampSpec | src/fetchers/stock_fetcher.py:76-80 | the stock stamp is a whole minute: the end of the minute in progress, except at 15:30, where it is that minute itself |
| Fetchers.DerivCandleStamp | src/fetchers/deriv_fetcher.py:82 | the derivatives stamp is the start of the minute containing the clock reading |
| Fetchers.CandleFetcher.constructor | src/fetchers/stock_fetcher.py:14-25 | the fetcher keeps its market, symbol and time frame and owns a fresh gate with no cursor |
| Fetchers.CandleFetcher.FetchData | src/fetchers/stock_fetcher.py:36-70 | outside the market's hours `{}`, no request and nothing changed; otherwise the request, the plan and the gate with the market's conversion |
| Fetchers.OptionFromBar | src/fetchers/option_chain_fetcher.py:99-116 | None exactly for an empty record; a non-empty record converts exactly when every numeric field parses, else ValueError; each field of the option is its vendor field (`acpr` the strike, `optn_prpr` the price, ..., `hts_otst_stpl_qty` the open interest), with "" and 0 for missing ones |
| Fetchers.ConvertOptions | src/fetchers/option_chain_fetcher.py:79-80 | the converted list has one entry per raw record; it succeeds exactly when every record converts, and otherwise raises ValueError |
| Fetchers.PresentOptions | src/fetchers/option_chain_fetcher.py:79-89 | the chain keeps exactly the non-empty records, converted, in reply order |
| Fetchers.UnderlyingSymbol | src/fetchers/option_chain_fetcher.py:82 | "unknown" exactly when no maturity is given, otherwise text starting with the maturity |
| Fetchers.ChainSnapshot | src/fetchers/option_chain_fetcher.py:70-90 | None exactly when both lists are empty; otherwise the first error of the price read and the two conversions, or a chain stamped with the clock reading, the underlying symbol, the price from the first call (else the first put), and the converted non-empty calls and puts |
| Fetchers.ChainOutcome | src/fetchers/option_chain_fetcher.py:60-97 | an HTTP failure escapes; a non-"0" `rt_cd` gives `{}`; on a "0" reply a conversion error escapes, no options give `{}`, and a snapshot gives its non-empty serialised dict; a non-empty result is always a serialised snapshot |
| Fetchers.OptionChainFetcher.constructor | src/fetchers/option_chain_fetcher.py:14-32 | keeps its configuration and starts with no minute recorded |
| Fetchers.OptionChainFetcher.FetchData | src/fetchers/option_chain_fetcher.py:34-97 | requests exactly in derivatives hours in a minute other than the last one recorded; the minute is recorded before the request; a non-empty result is the one item queued |
| Fetchers.OneRequestPerMinute | src/fetchers/option_chain_fetcher.py:41-45 | while the clock moves forward the requested minutes strictly increase: at most one request per minute |
| LegacyFeed.LegacySelect | src/feed.py:205-210 | a bar exactly when there are two or more, or one at the close marker; the freshest at the close marker, otherwise the previous bar |
| LegacyFeed.LegacySelectAgrees | src/feed.py:205-210 | the legacy and current selectors differ exactly on a single bar before the close, and agree wherever the legacy one selects |
| LegacyFeed.LegacyPlan | src/feed.py:212-247 | an HTTP failure escapes; a non-"0" `rt_cd` or no rows gives `{}`; a freshest bar without a time raises AttributeError; no or an empty selected bar gives `{}`; otherwise the gate gets the freshest bar's time and the selected bar, in both directions |
| LegacyFeed.LegacyPlanAgrees | src/feed.py:212-247 | where the legacy plan reaches the gate, the current one reaches it with the same inputs; they part only on a reply of one bar |
| LegacyFeed.LegacyDecision | src/feed.py:129-161 | no time or no record: nothing; the first valid call only primes the cursor; the cursor always moves to the time; a record is emitted exactly when the time differs from a set cursor and converts; past that test a conversion error escapes and a None gives `{}` |
| LegacyFeed.GatesCompared | src/feed.py:134-144 | once primed, the legacy gate emits whatever the current gate emits, the same record, and beyond that only times older than the cursor |
| LegacyFeed.LegacyNeverRepeatsBackToBack | src/feed.py:141-142 | a call repeating the time of the valid call just before it adds nothing to the queue |
| LegacyFeed.LegacyReplaysOlderMinutes | src/feed.py:141-144 | with the cursor at 09:02, a bar for 09:01 and then a replay of 09:02 both pass the legacy gate, while the current gate drops both |
| LegacyFeed.LegacyStockCandle | src/feed.py:249-263 | None exactly for an empty bar; a ValueError exactly when a price or volume field is malformed; otherwise a stock candle whose fields are the `int()` of the bar's, stamped with the current minute |
| LegacyFeed.StockStampShifted | src/feed.py:249-263 | the legacy and current stock candles agree in every field but the stamp, and succeed or fail together |
| LegacyFeed.LegacyCandleProcessor.constructor | src/feed.py:123-127 | the gate starts with no cursor |
| LegacyFeed.LegacyCandleProcessor.ProcessCandleData | src/feed.py:129-161 | the cursor becomes the decision's, and exactly the emitted record is enqueued and returned |
| LegacyFeed.LegacyFetcher.constructor | src/feed.py:165-176 | keeps its market, symbol and time frame and owns a fresh gate with no cursor |
| LegacyFeed.LegacyFetcher.FetchData | src/feed.py:212-247 | outside the market's hours `{}`, no request and nothing changed; otherwise the request, the legacy plan and the legacy gate |
| LegacyFeed.LegacyDispatch | src/feed.py:340-344 | ValueError exactly for an unregistered type; otherwise the class with the symbol and time frame only, as the current dispatch does for candle types |
| LegacyFeed.LegacyFetcherRegistry.constructor | src/feed.py:334-335 | a new registry is empty |
| LegacyFeed.LegacyFetcherRegistry.Register | src/feed.py:337-338 | the type maps to the new class, other entries unchanged |
| LegacyFeed.LegacyFetcherRegistry.CreateFetcher | src/feed.py:340-344 | the dispatch error as is; the stock and derivatives classes build a fresh legacy fetcher for the subscription; a class from elsewhere is called with the symbol and time frame |
| LegacyFeed.LegacyFetcherFactory.constructor | src/feed.py:348-354 | a fresh registry holding exactly the stock and derivatives fetchers |
| LegacyFeed.LegacyPollingManager.constructor | src/feed.py:364-368 | not running, no fetches counted |
| LegacyFeed.LegacyPollingManager.ExecuteFetchCycle | src/feed.py:380-391 | one outcome per fetcher, exceptions kept; the counter grows by the number of fetchers whatever the outcomes |
| LegacyFeed.LegacyPollingManager.StartPolling | src/feed.py:370-378 | sets the running flag; each loop iteration adds a full round of fetchers to the counter |
| LegacyFeed.LegacyPollingManager.Stop | src/feed.py:393-396 | clears the running flag and keeps the count |
| WscCandle.CandleStart | wsc/candle.py:107-150 | the bucket start keeps the tick's date with seconds and microseconds cleared; the day frame starts at 09:00 |
| WscCandle.CandleStartIdempotent | wsc/candle.py:107-150 | flooring a bucket start again leaves it unchanged |
| WscCandle.CandleStartBrackets | wsc/candle.py:117-142 | for every frame but the day, the start is a frame-aligned minute of the tick's day, and the tick lies in [start, start + frame) |
| WscCandle.CandleStartAligned | wsc/candle.py:117-142 | the start is a valid, frame-aligned minute whose frame holds the tick and ends by midnight |
| WscCandle.CandleStartUnique | wsc/candle.py:117-142 | the start is the only frame-aligned minute of the day whose frame holds the tick |
| WscCandle.TickPrice | wsc/candle.py:165-169 | a present "current_price" is the price, otherwise a present "price", otherwise 0.0; an int, float or bool reads as its number, and any other value raises TypeError in the comparison with 0 |
| WscCandle.TickKey | wsc/candle.py:164-166 | a present code and volume are the key, each defaulting on its own to "UNKNOWN" and 0; TypeError exactly for a code that is not a string or a volume that is not an int |
| WscCandle.Fold | wsc/candle.py:195-223 | a new bucket or symbol starts a candle with O = H = L = C = price; otherwise the open and the bucket stay, the high only rises, the low only falls, the close is the price and the volume the larger one |
| WscCandle.ReplayOhlcv | wsc/candle.py:195-223 | a bucket's candle is its ticks' OHLCV: the first price opens, the last closes, the high and low are the extreme prices and the volume the largest seen |
| WscCandle.Broadcast | wsc/candle.py:188-233 | one notice per subscriber, in subscription order |
| WscCandle.StepSpec | wsc/candle.py:152-235 | a price that does not compare raises and a price at most 0 is ignored, both changing nothing; otherwise only the tick's symbol changes and the previous candle is returned exactly when its bucket ended |
| WscCandle.StepKeepsWellKept | wsc/candle.py:152-235 | every step keeps each open candle under its own symbol, in the frame, with low ≤ open, close ≤ high |
| WscCandle.CandleAggregator.constructor | wsc/candle.py:90-100 | a missing subscriber list is the empty one; no candle is open and nothing was sent |
| WscCandle.CandleAggregator.AddSubscriber | wsc/candle.py:102-105 | appends the subscriber and changes nothing else |
| WscCandle.CandleAggregator.ProcessTick | wsc/candle.py:152-235 | the candles, the answer and the notices are those of one step on the state before the call; the subscribers are unchanged |
| WscCandle.CandleAggregator.Notify | wsc/candle.py:188-192 | one call per subscriber, in order, nothing else changed |
| WscCandle.CandleAggregator.GetCurrentCandle | wsc/candle.py:237-239 | the symbol's open candle, present exactly when one is open, under that symbol and ordered |
| WscCandle.CandleAggregator.GetAllCurrentCandles | wsc/candle.py:241-243 | a copy with the same symbols, every candle well kept |
| WscCandle.CandleManager.constructor | wsc/candle.py:297-298 | no frame registered |
| WscCandle.CandleManager.AddTimeframe | wsc/candle.py:300-309 | a new frame gets a fresh aggregator with the given subscribers; an existing frame keeps its aggregator and candles and appends the subscribers; other frames are untouched |
| WscCandle.CandleManager.AddSubscriberToTimeframe | wsc/candle.py:311-316 | appends to a registered frame; an unknown frame changes nothing |
| WscCandle.CandleManager.ProcessTick | wsc/candle.py:318-335 | every registered frame's aggregator takes the tick; the answer has an entry per frame, the completed candle or None, and None where the aggregator raised |
| WscCandle.CandleManager.GetCurrentCandle | wsc/candle.py:337-341 | present exactly for a registered frame with an open candle for the symbol |
| WscCandle.CandleManager.GetAllCurrentCandles | wsc/candle.py:343-347 | the empty map for an unregistered frame; every candle well kept |
| Matrix.SortByStrike | src/processing/matrix_processor.py:41-42 | the sort keeps exactly the quotes of the snapshot (a permutation) |
| Matrix.SortByStrikeOrdered | src/processing/matrix_processor.py:86-95 | the sorted list is ordered by strike, ascending or, for `reverse`, descending |
| Matrix.OfClass | src/processing/matrix_processor.py:44-45 | the filter keeps exactly the quotes of the given class |
| Matrix.OfClassOrdered | src/processing/matrix_processor.py:86-95 | filtering an ordered list keeps it ordered |
| Matrix.AtmQuote | src/processing/matrix_processor.py:77-81 | the ATM slot's quote is an ATM quote of the snapshot with the lowest strike among the ATM quotes |
| Matrix.RankWrites | src/processing/matrix_processor.py:97-103 | the first `num_strikes` quotes of a ranking go to ranks 1, 2, ... in order |
| Matrix.SetCell | src/processing/matrix_processor.py:84 | the written column holds the value, every other column is unchanged |
| Matrix.WriteSlotsConcat | src/processing/matrix_processor.py:83-103 | writing two runs of slots is writing their concatenation |
| Matrix.WriteSlotsCell | src/processing/matrix_processor.py:83-103 | after a run of writes a slot holds the metric of the quote written to it last, and is unchanged if none was |
| Matrix.RankedDistinct | src/processing/matrix_processor.py:99-103 | two ranked names of one side coincide only for the same kind and rank |
| Matrix.ItmNotOtm | src/processing/matrix_processor.py:97-103 | no ITM slot is an OTM slot |
| Matrix.SidesDistinct | src/processing/matrix_processor.py:56-57 | a call slot is never a put slot |
| Matrix.AtmNotRanked | src/processing/matrix_processor.py:84-103 | the ATM slot is no ranked slot |
| Matrix.RankWritesLookup | src/processing/matrix_processor.py:97-103 | ranked writes name rank `k` of the list exactly for `1 <= k <= min(n, len)` and nothing else |
| Matrix.SideWritesPrefix | src/processing/matrix_processor.py:84-103 | a side writes only slots carrying its own letter |
| Matrix.SideWritesLookup | src/processing/matrix_processor.py:74-103 | the ATM slot gets the first ATM quote and rank `k` the k-th quote of its kind's ranking exactly for `1 <= k <= min(n, count)` |
| Matrix.EmptyRows | src/processing/matrix_processor.py:51-54 | an empty row for each listed metric and no other |
| Matrix.InSortedClass | src/processing/matrix_processor.py:41-47 | a class is present after sorting exactly when it was before |
| Matrix.NewRowCells | src/processing/matrix_processor.py:51-57 | on each side the ATM slot holds the lowest-strike ATM quote's metric and rank `k` the k-th ranked quote's metric within `num_strikes`, NaN beyond |
| Matrix.NewRowCell | src/processing/matrix_processor.py:56-57 | a slot is decided by its own side's writes alone and is NaN if none wrote it |
| Matrix.AppendRowsSpec | src/processing/matrix_processor.py:59-62 | every earlier row stays; a listed metric ends with its new row, one row more when metrics are distinct; an unlisted metric is untouched |
| Matrix.UpdateNeedsAtm | src/processing/matrix_processor.py:38-49 | a snapshot without ATM quotes on both sides changes no matrix |
| Matrix.UpdateAppends | src/processing/matrix_processor.py:37-62 | a snapshot with ATM quotes on both sides appends the new row to every listed metric and keeps every earlier row |
| Matrix.SideColumnAt | src/processing/matrix_processor.py:29-34 | a side's columns are ITM n down to ITM 1, then ATM, then OTM 1 up to OTM n |
| Matrix.SideColumnsLead | src/processing/matrix_processor.py:29-34 | every column of a side starts with its letter |
| Matrix.ColumnsDistinct | src/processing/matrix_processor.py:27-35 | 2(2n+1) column names, all distinct |
| Matrix.ColumnsCover | src/processing/matrix_processor.py:27-35 | every slot `update` can write is a column, so a new row adds no column |
| Matrix.GenerateItm | src/processing/matrix_processor.py:30-31 | the loop yields ranks n down to 1 |
| Matrix.GenerateOtm | src/processing/matrix_processor.py:33-34 | the loop yields ranks 1 up to n |
| Matrix.GenerateSideColumns | src/processing/matrix_processor.py:30-34 | one outer pass yields the side's column list |
| Matrix.GenerateColumns | src/processing/matrix_processor.py:27-35 | the loops build the column list the lemmas above describe |
| Matrix.SideViewSpec | src/processing/matrix_processor.py:120-128 | a side shows a name exactly when a present column with the side's prefix lowers to it, with that column's value; NaN is never shown |
| Matrix.ViewsStep | src/processing/matrix_processor.py:110-118 | each metric whose matrix has rows contributes the view of its latest row; an empty one is skipped |
| Matrix.SameLatestSameView | src/processing/matrix_processor.py:105-130 | the view depends only on the latest rows |
| Matrix.ReplayKeepsView | src/processing/matrix_processor.py:37-130 | feeding the same snapshot twice leaves the view as the first feed left it |
| Matrix.OptionMatrixProcessor.constructor | src/processing/matrix_processor.py:17-25 | an empty matrix per metric |
| Matrix.OptionMatrixProcessor.WriteMetrics | src/processing/matrix_processor.py:83-84 | the loop writes the quote's metric into the slot of every metric's row |
| Matrix.OptionMatrixProcessor.WriteRanks | src/processing/matrix_processor.py:97-103 | the loop performs exactly the ranked writes |
| Matrix.OptionMatrixProcessor.FillRowByAtmClass | src/processing/matrix_processor.py:74-103 | the rows after the call are the side's writes applied in order |
| Matrix.OptionMatrixProcessor.Update | src/processing/matrix_processor.py:37-62 | the matrices become the updated matrices of the lemmas above |
| Matrix.OptionMatrixProcessor.AppendNewRows | src/processing/matrix_processor.py:59-62 | each listed metric's matrix gets its new row |
| Matrix.OptionMatrixProcessor.ViewOfRow | src/processing/matrix_processor.py:120-128 | the loop over the columns builds the row's view |
| Matrix.OptionMatrixProcessor.GetCurrentMatrices | src/processing/matrix_processor.py:105-130 | the result is the current view of the matrices |
| Database.Prefix3 | src/database/data_writer.py:114 | `symbol[:3]` is the first three characters, or the whole of a shorter symbol |
| Database.AppendCall | src/database/data_writer.py:30-32 | the memo grows by a table key exactly when that table is created, so every key is created once |
| Database.IsCandleItem | src/database/data_writer.py:103 | a missing type is not a candle; `in` raises TypeError exactly on a type value that is not a string, list or dict |
| Database.SymbolOf | src/database/data_writer.py:104 | a missing symbol raises KeyError; otherwise the symbol string |
| Database.RouteSpec | src/database/data_writer.py:102-111 | the grouping lists once each futures symbol that has a candle record, with exactly its candle records in batch order, and keeps the stock candles in batch order |
| Database.ItemsOfLast | src/database/data_writer.py:106-109 | a symbol's group grows by the last record exactly when it is a candle of that symbol |
| Database.RoutePrefixErr | src/database/data_writer.py:102-111 | once a record raises, the whole grouping raises the same exception |
| Database.Field | src/database/data_writer.py:144-150 | `d[k]` succeeds exactly for a present key and gives its value |
| Database.ParseKst | src/database/data_writer.py:25-26 | a parse succeeds exactly for an ISO timestamp and gives its naive KST reading |
| Database.CandleRowsSpec | src/database/data_writer.py:141-152 | the parameter rows are the candles' rows one for one, and exist exactly when every candle has one |
| Database.CandleRowOfCandle | src/database/data_writer.py:102-152 | a record from `CandleData.to_dict` is a candle of its own symbol and is stored with its own timestamp, symbol, prices and volume |
| Database.TimestampParamOfIsoFormat | src/database/data_writer.py:144 | an `isoformat` timestamp reads back as the same moment |
| Database.Insert | src/database/data_writer.py:126-155 | nothing for no candles, else one `executemany`; the memo is unchanged |
| Database.FlushOnePrefix | src/database/data_writer.py:113-121 | a pass of the futures loop after earlier calls is the same pass with those calls in front |
| Database.FlushPrefixErr | src/database/data_writer.py:113-121 | once a pass raises, the later symbols write nothing |
| Database.WriteBatchTables | src/database/data_writer.py:98-124 | a batch that raises nothing writes once per futures symbol to `futures_<first three characters>` in the grouping's symbol order, then once to `stocks_1m` when it held a stock candle |
| Database.FlushTables | src/database/data_writer.py:113-121 | the futures loop writes the symbols' tables in order |
| Database.WrittenFlushOne | src/database/data_writer.py:113-121 | a pass that raises nothing writes its symbol's table once |
| Database.PlaceholderList | src/database/data_writer.py:43-55 | placeholders `$1` to `$k` in order |
| Database.UpdateSet | src/database/data_writer.py:62 | one `col = EXCLUDED.col` per value column, in order |
| Database.MetricCall | src/database/data_writer.py:36-65 | a missing or empty metric, and a row with no value column, are skipped; otherwise one upsert with more columns than the header |
| Database.MatrixCalls | src/database/data_writer.py:36-65 | at most one statement per metric, none creating a table |
| Database.MatrixCallsPrefixErr | src/database/data_writer.py:36-65 | once a metric raises, later metrics write nothing |
| Database.MatrixCallShape | src/database/data_writer.py:41-63 | columns, placeholders and values line up, the header first, the values column by column, and the conflict clause updates exactly the columns after the header |
| Database.SidePairsSpec | src/database/data_writer.py:46-55 | the value columns of a side are `<side>_<strike>` for exactly the strikes with a present value, each once, with that value |
| Database.StrikesDistinct | src/database/data_writer.py:47-48 | no strike level is listed twice |
| Database.AppendExecutes | src/database/data_writer.py:65 | statements that create no table keep the memo and its once-only property |
| Database.InsertPrefix | src/database/data_writer.py:126-155 | an insert after earlier calls is the same insert with those calls in front |
| Database.DataWriter.constructor | src/database/data_writer.py:11-16 | empty queue, no table created, no call made |
| Database.DataWriter.SaveCandleData | src/database/data_writer.py:18-19 | the record joins the end of the queue; nothing else changes |
| Database.DataWriter.EnsureTable | src/database/data_writer.py:30-32 | the table is created exactly when its key is not yet in the memo, and the key is then in the memo |
| Database.DataWriter.Emit | src/database/data_writer.py:65 | one statement sent, memo unchanged |
| Database.DataWriter.BulkInsertCandles | src/database/data_writer.py:126-155 | the calls, memo and exception are those of the insert function |
| Database.DataWriter.WriteBatch | src/database/data_writer.py:98-124 | the calls, memo and exception are those of grouping then flushing the batch |
| Database.DataWriter.WriteFutures | src/database/data_writer.py:113-121 | the futures loop's calls, memo and exception |
| Database.DataWriter.SaveOptionMatrices | src/database/data_writer.py:24-65 | a bad timestamp or missing key raises before any call; otherwise the matrix table is created once and each metric's upsert follows in order |
| Database.DataWriter.ExecuteAll | src/database/data_writer.py:65 | the statements are sent in order, memo unchanged |
| Database.MetricStatements | src/database/data_writer.py:36-65 | the loop emits exactly the metric statements of the function, up to the first metric that raises |
| Database.MetricRow | src/database/data_writer.py:41-63 | the loop builds exactly the metric's statement |
| Database.AppendSide | src/database/data_writer.py:47-55 | a column, a value and the next placeholder for each strike with a present value, the counter one past the values |
| Database.GroupBatch | src/database/data_writer.py:99-111 | the grouping loop computes the grouping function |
| Readers.BoundArgs | src/read/candles_reader.py:25-32 | one naive KST timestamp argument per present bound, `start` before `end` |
| Readers.TailParts | src/read/candles_reader.py:34-36 | the order part, then a LIMIT part exactly when a limit is given; neither holds a placeholder |
| Readers.OrderTailText | src/read/candles_reader.py:34-38 | the query ends `ORDER BY timestamp ASC`, followed by ` LIMIT n` only when a limit is given |
| Readers.BoundClausesPlaceholders | src/read/candles_reader.py:24-32 | each bound clause holds exactly the next placeholder number |
| Readers.AppendBounds | src/read/candles_reader.py:24-32 | each present bound appends one clause and one argument, and the counter ends one past the arguments |
| Readers.RangeQuery | src/read/candles_reader.py:18-38 | the arguments are the head's then the bounds'; the placeholders number the arguments `$1..$n` in order after the head's own; the text opens with the head and closes with the order tail |
| Readers.CandlesFetchRange | src/read/candles_reader.py:10-39 | the symbol is `$1`, the bounds take the next numbers in order, the rows come in ascending time, a LIMIT only when given |
| Readers.LatestCandlesText | src/read/candles_reader.py:44-50 | the only argument placeholder is `$1`, and the query ends with the descending order and the window limit |
| Readers.CandlesFetchLatest | src/read/candles_reader.py:41-52 | one argument, the symbol; the rows come back in reverse of the database's newest-first order |
| Readers.SignalsFetchRange | src/read/signals_reader.py:14-43 | as for candles, over the signal table's columns |
| Readers.SignalsLatest | src/read/signals_reader.py:45-52 | one argument, the symbol as `$1`; the query ends with the newest-first single-row limit |
| Readers.MatrixTable | src/read/option_matrices_reader.py:10-11 | `option_matrices_` and the lower-cased underlying, itself lower case |
| Readers.MetricArgs | src/read/option_matrices_reader.py:29-33 | every metric, in order, when the list is given and not empty; otherwise none |
| Readers.PlaceholderRun | src/read/option_matrices_reader.py:30 | the placeholders `$idx` to `$idx+m-1`, in order |
| Readers.MetricClausePlaceholders | src/read/option_matrices_reader.py:30-31 | the IN clause holds exactly `$1..$m` |
| Readers.FetchMetrics | src/read/option_matrices_reader.py:13-49 | the metrics, when given, take `$1..$m`, the bounds continue from `$m+1`, the rows come in ascending time |
| Readers.ListTablesQuery | src/read/base.py:17-25 | a non-empty pattern adds the ILIKE clause with `$1` and one argument; otherwise no clause and no argument; always ordered by name |
| Readers.TableNames | src/read/base.py:26 | the names one for one, KeyError exactly when a row lacks the column |
| Feeder.BarStamp | src/strategies/dolpha1/feeder.py:165-168 | the stamp exists exactly when both parts are present and their concatenation parses as `%Y%m%d%H%M%S`, and is then that valid reading |
| Feeder.RowOf | src/strategies/dolpha1/feeder.py:172-180 | a row exactly when every price field reads as a float and the volume as an int (absent fields read 0), carrying the stamp, the symbol, and the open, high, low, close and volume read from their fields |
| Feeder.HmsTextIsClose | src/strategies/dolpha1/feeder.py:169 | the compact time text is "154500" exactly when the clock reads 15:45:00 |
| Feeder.ProcessCandleStamp | src/strategies/dolpha1/feeder.py:164-185 | a bar converts exactly when its row does; the 15:45:00 closing bar keeps its time, every other bar is stamped one minute later |
| Feeder.LatestCandle | src/strategies/dolpha1/feeder.py:125-155 | a transport failure, a non-"0" `rt_cd` or no rows give None with the cursor untouched; a freshest time not past a set cursor gives None with the cursor untouched; a missing time raises TypeError against a set cursor and AttributeError otherwise; past the cursor, the cursor becomes the freshest time whatever follows, a selected bar of another day gives None, and today's bar is converted, its error escaping |
| Feeder.CursorMonotone | src/strategies/dolpha1/feeder.py:139-145 | a set cursor is only ever replaced by a strictly later time |
| Feeder.RealtimeCollector.constructor | src/strategies/dolpha1/feeder.py:68-72 | keeps the symbol; no time processed yet |
| Feeder.RealtimeCollector.FetchLatestCandle | src/strategies/dolpha1/feeder.py:105-155 | the cursor and the answer are those of the reply function on the old cursor and today's date |
| Feeder.HistoricalWindow | src/strategies/dolpha1/feeder.py:359-379 | a kept bar's time lies in 08:45-15:45; its row falls on the same date, within 08:46-15:45, one minute later except at 15:45 |
| Feeder.KeptIndicesExact | src/strategies/dolpha1/feeder.py:355-381 | the kept positions ascend and are exactly the bars whose loop body yields a row |
| Feeder.HistoricalRecordsAt | src/strategies/dolpha1/feeder.py:352-383 | the k-th row is the row of the k-th kept bar, so the rows are the kept bars' rows in input order |
| Feeder.ProcessHistoricalCandles | src/strategies/dolpha1/feeder.py:352-383 | the loop returns exactly the kept bars' rows in input order |
| Feeder.PageReply | src/strategies/dolpha1/feeder.py:316-328 | the attempts for a page use at least one and at most the remaining of three requests |
| Feeder.PageReplyAttempts | src/strategies/dolpha1/feeder.py:316-328 | every request before the last one failed in transport; the body is the last reply's; None only after all remaining attempts failed |
| Feeder.PageOutcome | src/strategies/dolpha1/feeder.py:330-344 | the loop goes on only with a non-empty page whose earliest bar's time parses and lies after 08:45:00, and then queries at that time |
| Feeder.DayPagesCounts | src/strategies/dolpha1/feeder.py:304-328 | at most ten pages and three requests per page |
| Feeder.DayPagesChain | src/strategies/dolpha1/feeder.py:301-344 | each page after the first is asked for at the time of the previous page's earliest bar, which lies after 08:45:00 |
| Feeder.DayPagesStep | src/strategies/dolpha1/feeder.py:304-345 | a stop ends the loop with this page's outcome; a go-on continues it from the next page |
| Feeder.DedupExact | src/strategies/dolpha1/feeder.py:347-348 | the rows are exactly the first bar of every (date, time) key, in input order |
| Feeder.DedupDistinct | src/strategies/dolpha1/feeder.py:348 | no key occurs twice among the rows |
| Feeder.DedupCovers | src/strategies/dolpha1/feeder.py:348 | every key of the input survives |
| Feeder.DropDuplicates | src/strategies/dolpha1/feeder.py:347-348 | an empty frame has no subset columns, so de-duplication raises KeyError |
| Feeder.DropDuplicatesNonEmpty | src/strategies/dolpha1/feeder.py:347-348 | a successful de-duplication never returns the empty list |
| Feeder.FetchDayResult | src/strategies/dolpha1/feeder.py:287-350 | at most ten pages of at most three requests, the first asked at 15:45:00, each next at the previous page's earliest time; `[]` exactly after a third failure |
| Feeder.RequestPage | src/strategies/dolpha1/feeder.py:315-328 | the retry loop returns the next request number and the body the attempts function gives |
| Feeder.PageTurn | src/strategies/dolpha1/feeder.py:330-345 | no body gives up; a bad `rt_cd` or no rows finishes with no page; and the other exits case by case as the loop tests them |
| Feeder.PageLoop | src/strategies/dolpha1/feeder.py:304-345 | how the loop ended, and on a normal end all pages' rows appended in order |
| Feeder.FetchDayData | src/strategies/dolpha1/feeder.py:287-350 | the download returns what the day function says |
| Feeder.OldestDay | src/strategies/dolpha1/feeder.py:402 | None exactly for no days; otherwise a listed day no later than any other |
| Feeder.FixDay | src/strategies/dolpha1/feeder.py:451-462 | at most one non-empty batch per day |
| Feeder.FixOne | src/strategies/dolpha1/feeder.py:451-462 | one turn saves the day's batch as the day function says |
| Feeder.FixDays | src/strategies/dolpha1/feeder.py:449-462 | the loop saves the batches of the listed days in order |
| Feeder.FixBatchesSnoc | src/strategies/dolpha1/feeder.py:451-462 | the batches for one more day are the earlier batches and that day's |
| Feeder.CheckDays | src/strategies/dolpha1/feeder.py:419-443 | the incomplete days are the missing days then the short days; the verdict holds exactly when every day is OK |
| Feeder.VerifyHistoricalData | src/strategies/dolpha1/feeder.py:398-462 | the missing and short days, the verdict, and the auto-fix batches only when asked and the verdict failed |
| Feeder.MissingDaysExact | src/strategies/dolpha1/feeder.py:420-429 | a day is reported missing exactly when it is a trading day absent from the table and not the oldest |
| Feeder.ShortDaysExact | src/strategies/dolpha1/feeder.py:431-443 | a day is reported short exactly when it is a stored trading day with fewer than 411 bars and not the oldest |
| Feeder.IncompleteExact | src/strategies/dolpha1/feeder.py:420-443 | the days for the auto-fix are exactly the trading days other than the oldest that are absent or have fewer than 411 bars |
| Feeder.VerdictExact | src/strategies/dolpha1/feeder.py:402-443 | with ascending days, all is OK exactly when every day after the oldest is stored with exactly 411 bars |
| Feeder.VerdictAndIncomplete | src/strategies/dolpha1/feeder.py:437-443 | an OK verdict leaves nothing to fix; a day with more than 411 bars clears the verdict yet is never handed to the auto-fix |
| Signals.SortRowsSorted | src/strategies/dolpha1/signals.py:34 | the sort yields the same rows, ascending by timestamp |
| Signals.FirstOfDay | src/strategies/dolpha1/signals.py:81 | `transform('first')` reads the earliest row of the row's day |
| Signals.VwapBounds | src/strategies/dolpha1/signals.py:62-69 | the VWAP is missing exactly while the day has traded no volume, and otherwise lies between the least and greatest typical price of the day so far |
| Signals.VwapRestarts | src/strategies/dolpha1/signals.py:66-69 | at a day's first row the VWAP is that row's typical price, missing on zero volume |
| Signals.TrueRangeCovers | src/strategies/dolpha1/signals.py:72-75 | the true range is at least the high−low spread and, after the first bar, both gaps to the previous close |
| Signals.SumTrueRangeBound | src/strategies/dolpha1/signals.py:75-76 | with lows at most highs, a window's true-range sum is non-negative and at least each term |
| Signals.AtrWindow | src/strategies/dolpha1/signals.py:71-76 | the ATR exists exactly from the `atr_period`-th row on, across days, and is then the window's mean true range, non-negative |
| Signals.MinFromOpenWholeMinute | src/strategies/dolpha1/signals.py:82 | the bucket key is the minute of the day minus 526, zero at 08:46 |
| Signals.MoveOpen | src/strategies/dolpha1/signals.py:83 | `|close / day open − 1|`, non-negative, missing exactly on a zero day open |
| Signals.SameMinuteBefore | src/strategies/dolpha1/signals.py:85 | exactly the earlier rows with the same bucket key, in row order |
| Signals.Window | src/strategies/dolpha1/signals.py:86 | the last `rolling_move` entries of the group, or all when fewer |
| Signals.Present | src/strategies/dolpha1/signals.py:86 | the rolling mean averages exactly the values that are not NaN |
| Signals.MinPeriods | src/strategies/dolpha1/signals.py:86 | `max(rolling_move // 2, 3)` is at least 3 and at least half the window |
| Signals.RawSigmaMeaning | src/strategies/dolpha1/signals.py:85-87 | a raw `sigma_open` is a non-negative mean over at least `max(rolling_move // 2, 3)` earlier bars of the same minute |
| Signals.RawSigmaExists | src/strategies/dolpha1/signals.py:85-87 | with non-zero day opens, the raw sigma exists exactly when the window holds `max(rolling_move // 2, 3)` bars |
| Signals.FFillByDayMeaning | src/strategies/dolpha1/signals.py:89 | the forward fill takes the latest present raw value of the same day up to the row, and is missing only when there is none |
| Signals.BFillMeaning | src/strategies/dolpha1/signals.py:89 | the back fill takes the first present value at or after the row, and is missing only when there is none |
| Signals.SigmaOpenMeaning | src/strategies/dolpha1/signals.py:78-91 | some row has a `sigma_open` exactly when some row has a raw one; every value is non-negative |
| Signals.LastSigmaIsOwn | src/strategies/dolpha1/signals.py:89 | the last row with a `sigma_open` has it from its own day's forward fill, never from a later bar |
| Signals.Widen | src/strategies/dolpha1/signals.py:100-101 | widening both anchors by a non-negative fraction keeps them ordered |
| Signals.BandAnchors | src/strategies/dolpha1/signals.py:94-98 | the upper anchor is the larger and the lower the smaller of the day open and the previous day's last close; on the first day both are the day open |
| Signals.BandsOrdered | src/strategies/dolpha1/signals.py:93-103 | with non-negative prices, multiplier and sigma, LB ≤ lower anchor ≤ upper anchor ≤ UB |
| Signals.FeaturesAt | src/strategies/dolpha1/signals.py:45-57 | a row's features keep the row and its sigma, and have bands exactly when it has a sigma |
| Signals.CreateFeatures | src/strategies/dolpha1/signals.py:29-59 | an empty frame below 100 rows; an error exactly when `rolling_move` makes `min_periods` exceed the window; otherwise one feature row per input row |
| Signals.CreateFeaturesRows | src/strategies/dolpha1/signals.py:33-34 | the frame holds the input rows, sorted by timestamp |
| Signals.LastValid | src/strategies/dolpha1/signals.py:119-131 | the last row with both bands, None exactly when there is none |
| Signals.ClassifyExact | src/strategies/dolpha1/signals.py:136-146 | +1 exactly above UB with the VWAP confirming, −1 exactly not above UB but below LB with the VWAP confirming, else 0, with the matching reason |
| Signals.SignalOfShape | src/strategies/dolpha1/signals.py:110-163 | without a banded row no signal and an "insufficient_data" reason; otherwise the last banded row's classification, traded only at observation minutes |
| Signals.FeaturesWithBands | src/strategies/dolpha1/signals.py:119-121 | some row has both bands exactly when some sorted row has a raw `sigma_open` |
| Signals.LatestSignalOfFrame | src/strategies/dolpha1/signals.py:105-163 | "insufficient_data" below 100 rows; an error exactly for a too-small `rolling_move` or, with a banded row, a zero observation interval; no latest row exactly when no raw sigma |
| Signals.LatestRowOwnSigma | src/strategies/dolpha1/signals.py:89-131 | the signal's row carries the sigma of its own day's forward fill, which is non-negative |
| Signals.LatestBandsOrdered | src/strategies/dolpha1/signals.py:131-146 | the signal's row has LB ≤ UB, so it is never both above the one and below the other |
| Dolpha1.OutsideHoursMinutes | src/strategies/dolpha1/dolpha1.py:60-65 | the string test skips exactly the minutes before 08:45 and from 15:47 on |
| Dolpha1.SavedIffLatest | src/strategies/dolpha1/dolpha1.py:89-96 | a signal is saved exactly when it has a latest row; an alert fires exactly at an observation minute with a non-zero monitor signal, and only for a saved signal |
| Dolpha1.SavedIffSigma | src/strategies/dolpha1/dolpha1.py:72-96 | on at least 100 bars a signal is saved exactly when some sorted bar has a raw `sigma_open` |
| Dolpha1.Dolpha1Strategy.constructor | src/strategies/dolpha1/dolpha1.py:22-46 | no signal time, nothing saved, no alert |
| Dolpha1.Dolpha1Strategy.CheckSignal | src/strategies/dolpha1/dolpha1.py:59-100 | outside hours nothing; below 100 bars only the signal time; an exception changes nothing; otherwise the signal, saved unless "insufficient_data", alerted at observation minutes with a trade |
| Dolpha1.Dolpha1Strategy.Report | src/strategies/dolpha1/dolpha1.py:72-100 | the in-hours part of the check once the signal is computed |
| Clock.ToKstNaive | src/services/time_service.py:18-21 | a naive value is returned as is; an aware one is moved from its offset to UTC+9 and made naive |
| Clock.ToKstNaiveSameInstant | src/services/time_service.py:18-21 | two aware readings of the same instant give the same naive KST value |
| Clock.ToKstNaiveOfKst | src/services/time_service.py:18-21 | a reading already at +09:00 keeps its wall clock |
| Clock.FloorMinuteKst | src/services/time_service.py:24-29 | the same date, hour and minute with seconds and microseconds cleared |
| Clock.FloorMinuteBrackets | src/services/time_service.py:24-29 | the floor is the start of the minute holding the input, and flooring again changes nothing |
| Clock.FloorMinuteIgnoresOffset | src/services/time_service.py:26-29 | the zone is replaced, not converted, so the floor does not depend on the offset |
| Clock.NowKstNaive | src/services/time_service.py:10-15 | the naive KST wall clock of the UTC instant |
| Clock.NowKstNaiveAgrees | src/services/time_service.py:14-21 | any aware reading of the same instant gives the same wall clock as `now_kst_naive` |
| Clock.Weekday | wsc/tools.py:9 | a weekday number from 0 to 6 |
| Clock.WeekdayAnchors | wsc/tools.py:9 | 2024-01-01 is a Monday (0) and 2024-06-15 a Saturday (5) |
| Clock.WeekdayTomorrow | wsc/tools.py:9 | the day after any valid date falls on the next day of the week, Sunday (6) wrapping to Monday (0) |
| Clock.WeekdayShift | wsc/tools.py:9 | `n` days later, in either direction, the day of the week has moved on by `n` modulo 7, so with one anchor the number is the day of the week on every date |
| Clock.StampTextFields | wsc/tools.py:20 | the `%Y-%m-%d %H:%M:%S` text has the reading's year, month, day, hour, minute and second at fixed places, with a space between date and time |
| Clock.IsoFields | src/models/dataclasses.py:24 | the `isoformat` digit fields sit at fixed positions and read back as the reading's fields |
| Clock.IsoFraction | src/models/dataclasses.py:24 | after the seconds, nothing when the microseconds are 0, else `.` and six digits reading back as them |
| Clock.FromIsoFormatOfIsoFormat | src/database/data_writer.py:144 | `fromisoformat(dt.isoformat())` is `dt` for every valid reading |
| Clock.ParseCompact | src/strategies/dolpha1/feeder.py:168 | a parse yields a valid whole-second reading |
| Clock.ParseCompactOfText | src/strategies/dolpha1/feeder.py:168 | the compact date and time text of a whole-second reading parses back to that reading |
| Clock.HmTextIs | src/fetchers/stock_fetcher.py:78 | the `%H%M` text names exactly one clock minute |
| Clock.ClockTextBefore | src/strategies/dolpha1/dolpha1.py:61-63 | comparing `%H:%M` texts as strings is comparing minutes of the day |
| Clock.LessFive | src/strategies/dolpha1/dolpha1.py:63 | strings of five characters compare at the first position where they differ |
| Text.JoinSplit | wsc/feed.py:240 | joining the pieces of a split with the separator gives the string back |
| Text.SplitShape | wsc/feed.py:240 | one piece more than there are separators, and no piece holds a separator |
| Text.LowerIdempotent | src/read/option_matrices_reader.py:11 | lower-casing twice is lower-casing once |
| Text.PlaceholdersJoin | src/read/candles_reader.py:38 | joining SQL fragments with a `$`-free separator concatenates their placeholders |
| Channel.Queue.constructor | src/database/data_writer.py:13 | a new queue is empty |
| Channel.Queue.Put | src/database/data_writer.py:18-19 | the item joins the end of the queue |
| Channel.Queue.Get | src/database/data_writer.py:76-84 | the oldest waiting item is taken from the front |
| WscCandle.FrameMinutes | wsc/candle.py:10-18 | every intraday frame is a positive number of minutes that divides the day |
| Signals.SortRows | src/strategies/dolpha1/signals.py:34 | the sort keeps exactly the input rows |
| Signals.SigmaOpen | src/strategies/dolpha1/signals.py:78-91 | one `sigma_open` per row |
| Signals.FeatureRows | src/strategies/dolpha1/signals.py:45-57 | one feature row per row, keeping the row and its sigma, with bands exactly where there is a sigma |
| Fetchers.StampAtClose | src/fetchers/stock_fetcher.py:76-80 | at 15:30 the stamp is the current minute's start, which the clock has reached |
| Fetchers.StampNextMinute | src/fetchers/stock_fetcher.py:76-80 | otherwise the stamp is the next minute's start, later than the clock by at most a minute |

## Left out

- Network, authentication and configuration are not modelled. This covers token caching, the headers, the HTTP calls and the WebSocket connection. Each call's outcome is a parameter of the member that makes it: an HTTP reply value, a server function from request number to reply, or a recorded trader call together with the exception it raised, if any.
- Logging, printing, the display processors and the 60-second print throttle of the matrix processor are left out. None of them changes the matrices. The throttle only writes its own `_last_print_time`, and its `self.matrices["iv"]` lookup is safe because the default metrics include `iv`.
- `asyncio` scheduling is not modelled. `start_batch_writer` races the queue against a deadline, and the task managers, `asyncio.sleep` and the orchestration wiring are left out too. The back-off pauses are kept as a schedule of values.
- `TimeService.now_*` and `datetime.now()` become explicit clock parameters. `Dolpha1.Dolpha1Strategy.CheckSignal` takes two readings, because the check and `get_latest_signal` each read the clock.
- `Fetchers.CandleFetcher.FetchData`, `Fetchers.OptionChainFetcher.FetchData`, `LegacyFeed.LegacyFetcher.FetchData`, `Feeder.RealtimeCollector.FetchLatestCandle`, `MarketHours.GetMarketStatus`, `MarketHours.GetMarketInfo` and `WscCandle.CandleManager.ProcessTick` each take one clock reading per call. The source reads `datetime.now()` again later in the same call, often after an HTTP await: the query time and the candle stamp, the query time and today's date, the status and its helpers, and once per aggregator. A minute or a day rolling over between those reads is not modelled.
- Database connection and execution are not modelled. The database is the log of the calls made on it, or a parameter holding the rows it returns. `SignalDatabase` and the DDL strings are left out, and so are `_get_recent_data` and the feeder's save/ensure-table/status methods. The recent bars are a parameter of the signal check.
- `get_trading_days` uses a market calendar library, so its result is a parameter. `Feeder.VerifyHistoricalData` requires that list to be ascending, which is what the function returns.
- `Feeder.FixDays`: `_save_batch` is modelled as the list of batches it is asked to save.
- `get_candle_progress` and the float `wait_seconds` are floating-point timing and are left out.
- Prices and features are exact reals, not IEEE doubles. Rounding, overflow to infinity and signed zero are not modelled.
- `Signals.MoveOpen`: a zero day open makes the move missing (`None`). pandas would give an infinity, or NaN when the close is also zero, and the rolling means would then propagate it.
- `Signals.MinFromOpenWholeMinute` is proved only for whole-minute stamps. The bucket key of a stamp with seconds is a fractional number of minutes, which groups only with identical fractions, as pandas does.
- `Signals.SortRows` is a stable insertion sort. `sort_values` uses quicksort by default, which may order rows with equal timestamps differently.
- `Signals.PrevClose` reads the row before the day's first row. That is the previous day's last close only because the frame is sorted first, as `create_features` does.
- `Clock.ParseCompact` accepts exactly fourteen digits. `strptime` also accepts shorter fields, which the vendor never sends.
- `Text.Lower` lower-cases ASCII letters only and keeps the length. Python's `str.lower` also maps other Unicode letters and can change the length. It is applied to symbols and to matrix column names, which the vendor and the program write in ASCII; other text is not modelled.
- `Text.ParseInt` and `Text.ParseReal` model `int()` and `float()` on their plain decimal forms: an optional sign, digits, and for `float` an optional fraction. Exponents, underscores, surrounding spaces, `inf` and `nan` are rejected rather than parsed.
- `WscCandle.TickKey` accepts only a string code and an integer volume and raises TypeError otherwise. Python would accept any hashable code and any volume that `max` can compare.
- `WscCandle.CandleAggregator.GetCurrentCandle` and `GetAllCurrentCandles` return candle values. Python returns the live candle objects (the dict copy is shallow), so a caller could mutate them; that aliasing is not modelled.
- `WscCandle.CandleAggregator.constructor` stores the subscriber list as a value. Python keeps the caller's non-empty list itself (`subscribers or []`), so `add_subscriber` and later appends by the caller are seen on both sides; that sharing is not modelled.
- Subscriber callbacks in `wsc/candle.py` are recorded as notices in order rather than run. An exception in a callback is not modelled.
- `Models.OptionFromDict` raises TypeError for a field holding a value of another kind. `OptionData(**d)` would accept it, since dataclasses do not check types. The dicts it is given come from `OptionChainData.to_dict`, whose kinds always match.
- `Feeder.DropDuplicates` returns the kept bars as they were. pandas' `to_dict('records')` gives every record every column, with NaN where a bar lacked a key. The model assumes the vendor's rows share one key set, where the two agree.
- `Clock.FromIsoFormat` accepts only the forms this system writes: a six-digit fraction and a `+HH:MM` or `-HH:MM` zone. Python's `fromisoformat` also accepts other forms, such as the three-digit fraction `.123` or seconds in the zone.
- `WscOrder.PlaceOrder` takes the `price` keyword argument as an optional integer. Other types that Python's `str()` would render are not modelled.
- The four handler classes of `wsc/feed.py` become one `Handler` class tagged with its kind. Their parsing is kept case by case.
- `TradingClient.JsonCopy` covers the JSON value kinds the sanitiser meets: lists, string-keyed dicts, scalars, and datetimes, which raise. Non-string dict keys and tuples are not modelled.
- `save_option_chain_data` returns at once and changes nothing, so it has no member. `log_system_status` is database plumbing and is left out.
- `Database.DataWriter.SaveOptionMatrices` builds the metric statements first and then sends them in order. The log and the exception are the same as sending each one inside the loop, but the interleaving with other writers is not modelled.
- `Database.AppendSide` takes the strike list as a parameter. `SaveOptionMatrices` always passes the fixed `itm10`..`otm10` list.
- The option-chain and candle display code of `src/feed.py` and `wsc/feed.py` is left out, along with their `main()` entry points. `BalancePoller`, the hashkey request and the network half of `TradingAPI` are left out too.
- `src/orchestration.py` passes two arguments to `DataProcessor`, whose constructor takes one. The model builds the processor with the queue alone, as its constructor is written.
- `LegacyFeed.LegacyFetcherRegistry` is keyed by the shared data type, which also has `O_CHAIN`. The enum in `src/feed.py` has only `S_CANDLE` and `D_CANDLE`, so an `O_CHAIN` key there stands for a type that module cannot name.
- The three copies of the subscription manager (`src/core/subscription.py`, `src/feed.py`, `wsc/feed.py`) become one generic class. They differ only in the record they hold.
