# A verified model of the trading bot's data and trading core

This project models, in Dafny, the core of an automated stock-trading bot
that trades through the Alpaca broker API:

- **the broker binding** (`src/api/alpaca.py`): how request parameters are
  built, how a bars response is grouped into one frame per symbol, how broker
  objects become plain records, and how every failing API call becomes an
  empty value;
- **the retrying API wrapper** (`src/utils/api.py`): credentials, retry with
  exponential backoff, the local guards of `submit_order`, and
  `create_client`;
- **the market data fetcher** (`src/utils/data.py`): feeds tried in priority
  order (sip, the default feed, iex), one pagination request when a feed
  returns too few bars, standardization of the frame, fallback to coarser
  timeframes and to a smaller daily request, the fetch statistics, and the
  feed diagnostic;
- **the data provider** (`src/data/provider.py`): a five-minute bars cache
  keyed by the sorted symbols, the timeframe and the limit; request
  statistics; and the cleaning pipeline (drop incomplete rows, drop repeated
  timestamps, sort, whole volumes);
- **the moving-average crossover strategy** (`src/bot/strategy.py`);
- **the trading engine** (`src/bot/trader.py`): one trading cycle, signal
  execution with risk-based position sizing and a protective stop, and the
  position and account refresh.

A pandas DataFrame is modelled as a `Frames.Frame`. A frame records whether
it has a datetime index, its set of columns, and its rows in order. Each row
holds a timestamp and a map from column to value, and a cell absent from the
map stands for NaN.

The broker and the clock are parameters:

- The wrapper's bars request is a function from the query to the frame it
  yields. The binding's answers are `Option`s, where None stands for "the API
  raised inside the binding's try block".
- Each of the trading bot's broker calls is a function of the number of
  broker calls made before it, and of its request. It answers either
  `Raised`, for an exception that escapes the binding's method, or the
  binding's own answer.
- The data provider's client is a function of the request and the current
  time.
- The current time `now` is an explicit parameter.

Mutable objects are classes with the source's fields:

- `MarketDataFetcher` holds the `data_stats` counters and a ghost log of
  every query issued.
- `DataProvider` holds the cache, the cache timestamps, the statistics and a
  ghost log of the broker calls.
- `TradingBot` holds the positions snapshot, the account dictionary, the
  running flag, a broker-call counter and a ghost log of order requests.

Each of their methods is proved against a function of its inputs and old
state. The properties are proved about those functions.

The trading bot's execution methods take a flag `keepBuyId`. With the flag
false they do what the source does; with it true they keep the id of an
accepted buy whose protective stop order raised (see "## Findings"). Both
are proved against the same execution specification, `Trader.ExecuteWith`.

## Model

| member | source | states |
|---|---|---|
| Common.OrElse | src/utils/api.py:50-52 | Python's `a or b` on optional strings: the result is truthy exactly when one of them is, and is the first whenever the first is truthy |
| Common.Trunc | src/api/alpaca.py:214 | `int()` on a float truncates toward zero: for non-negative input the result is the largest integer not above it, for negative input the smallest not below it |
| Frames.MinTs | src/utils/data.py:95 | `index.min()` is a timestamp of the frame and no row is older |
| Frames.MaxTs | src/utils/data.py:371 | `index.max()` is a timestamp of the frame and no row is newer |
| Frames.SortByTs | src/utils/data.py:201 | `sort_index()` yields the same rows (as a multiset) in ascending timestamp order |
| Frames.DedupFirst | src/utils/data.py:105 | dropping repeated timestamps keeps only input rows whose timestamp was not yet seen, and never lengthens the frame |
| Frames.DedupFirstUnique | src/utils/data.py:105 | after dropping repeated timestamps, no timestamp occurs twice |
| Frames.DedupFirstKeepsAllTimestamps | src/utils/data.py:105 | dropping repeated timestamps loses no timestamp: the kept timestamps are exactly the input's, minus those already seen |
| Frames.DedupFirstKeepsFirst | src/utils/data.py:105 | `keep='first'`: every kept row is the first row of the input with its timestamp |
| Frames.Project | src/utils/data.py:209 | selecting the OHLCV columns keeps every row and its timestamp; each row keeps exactly those selected columns it had a value in, with their values, so a missing (NaN) cell stays missing and no other column remains |
| Frames.SortByTsStrict | src/data/provider.py:149-152 | sorting rows whose timestamps are distinct gives strictly ascending timestamps |
| ApiUtils.NewClient | src/utils/api.py:28-58 | construction fails (ValueError) exactly when the key or the secret is missing from both the arguments and the environment; otherwise explicit values win over the environment, the base URL defaults to the paper URL, and the retry settings are kept |
| ApiUtils.RetryFromMeaning | src/utils/api.py:69-101 | retrying returns the value of the first attempt that returns, after exactly that many calls; it gives None exactly when every one of the `n` attempts raised, having made all `n`; it sleeps `base ** k` after failed attempt `k`, except after the last one |
| ApiUtils.RetryApiCall | src/utils/api.py:69-101 | the loop's result, call count and sleeps are those of the retry specification, with `max_retries or self.max_retries` attempts and the client's backoff base |
| ApiUtils.GetBarsResult | src/utils/api.py:154-161 | the wrapper's `get_bars` gives a frame exactly when the retried call produced a non-empty one, and then gives that frame unchanged |
| ApiUtils.SubmitOrder | src/utils/api.py:163-229 | a side other than buy or sell, or a non-positive quantity, is refused with no API call and no sleep; any other order goes through the retry specification with the client's default attempt count |
| ApiUtils.CreateClient | src/utils/api.py:276-311 | a client comes back exactly when the credentials resolve and, if verification is asked for, the retried account lookup returned an account; it keeps the requested retry count and the default backoff base |
| Alpaca.NewClient | src/api/alpaca.py:24-67 | construction fails exactly when a credential is missing; an explicit base URL wins, otherwise the paper flag selects the paper or the live URL; the data URL is fixed |
| Alpaca.BarsParams | src/api/alpaca.py:184-193 | the bars request always carries timeframe and limit, and carries start and end only when they are given |
| Alpaca.OrderParams | src/api/alpaca.py:262-278 | an order request carries the six fixed fields; a limit price only for limit and stop-limit orders, a stop price only for stop and stop-limit orders, each only when non-zero; a client order id only when non-empty |
| Alpaca.BarsFor | src/api/alpaca.py:202 | the bars kept for a symbol are exactly the response's bars for that symbol |
| Alpaca.BarsForConcat | src/api/alpaca.py:202 | filtering a response in two parts gives the first part's bars for the symbol followed by the second part's, so the filter keeps the broker's order |
| Alpaca.BarsForSnoc | src/api/alpaca.py:202 | one more bar in the response adds it to the end of its own symbol's bars and to no other |
| Alpaca.BarFrame | src/api/alpaca.py:206-216 | one symbol's frame has a datetime index, the OHLCV columns and one row per bar, in the broker's order |
| Alpaca.GroupedBarsMeaning | src/api/alpaca.py:198-223 | the grouped response has a key exactly for each requested symbol with at least one bar; its frame is non-empty and its rows are that symbol's bars converted one by one, in the broker's order |
| Alpaca.GroupBars | src/api/alpaca.py:198-223 | the symbol loop builds exactly the grouping specified above |
| Alpaca.GetBars | src/api/alpaca.py:159-227 | `get_bars` answers the grouping, or `{}` when the API raised |
| Alpaca.PositionSide | src/api/alpaca.py:145 | a position is long exactly when its quantity is positive, short otherwise |
| Alpaca.ListPositions | src/api/alpaca.py:131-157 | one record per broker position in the broker's order, with symbol, quantity and a side that agrees with the quantity's sign; `[]` when the API raised |
| Alpaca.ToOrder | src/api/alpaca.py:284-297 | an order without a filled quantity reports 0; a filled quantity, the id and the average fill price are passed through |
| Alpaca.GetAccount | src/api/alpaca.py:79-106 | the account record exactly when the API answered, with its fields passed through; `{}` (None) when it raised |
| Alpaca.GetClock | src/api/alpaca.py:108-129 | a failed call reports the market closed and no times; otherwise the open flag, the timestamp and the next open and close times are passed through |
| Alpaca.CreateOrder | src/api/alpaca.py:229-301 | an order record exactly when the API answered, with its id, symbol, side, limit and stop prices passed through and an unfilled quantity reported as 0; `{}` (None) when it raised |
| Alpaca.ClosePosition | src/api/alpaca.py:337-366 | an order record exactly when the API answered, with its id, symbol and side passed through, an unfilled quantity reported as 0 and no limit or stop price; `{}` (None) when it raised |
| Alpaca.GetOrders | src/api/alpaca.py:303-335 | one record per broker order in order; `[]` when the API raised |
| MarketData.Fetched | src/utils/data.py:81 | a frame obtained through the wrapper is never empty |
| MarketData.Standardize | src/utils/data.py:170-212 | standardization succeeds exactly when there is a datetime index or a `timestamp` or `index` column, and every OHLCV column is present; the result has a datetime index, exactly the OHLCV columns, the same number of rows, ascending timestamps, and the projected rows of the input |
| MarketData.Merge | src/utils/data.py:103-105 | concatenating the paginated frame before the initial one and dropping repeated timestamps keeps every timestamp of both frames exactly once, and only their rows; where both frames have a timestamp, the paginated frame's row is the one kept |
| MarketData.Accept | src/utils/data.py:117-125 | a feed's frame is accepted exactly when it is non-empty, standardizes, and has at least the required number of bars; an accepted frame is standardized and long enough |
| MarketData.AttemptFeed | src/utils/data.py:80-125 | one feed makes the initial request and a pagination request exactly when the initial frame is non-empty but shorter than the lookback; the pagination request is the initial one ending at its oldest bar; a result is standardized and long enough; no result without an initial frame |
| MarketData.FirstSuccessMeaning | src/utils/data.py:67-160 | the feed loop returns the frame of the first feed that succeeds, after trying exactly the feeds before it; it fails, having tried every feed, exactly when none succeeds |
| MarketData.FallbackDescends | src/utils/data.py:234-245 | a fallback always moves to a strictly coarser timeframe, and an hourly fallback goes to the daily timeframe |
| MarketData.TryFeedsMeaning | src/utils/data.py:62-160 | one invocation's feed loop starts with the sip query; every query is for the symbol and timeframe with limit `min(1000, lookback)`; a frame it yields comes from one of the three feeds, is standardized and has at least the required number of bars |
| MarketData.TryFeedsPicksFirst | src/utils/data.py:62-160 | the feed loop yields a frame exactly when some feed's fetched (and possibly paginated) frame is standardized and long enough, and then it is the accepted frame of the first such feed in the order sip, default, iex |
| MarketData.FetchFirstFeed | src/utils/data.py:36-168 | `get_bars` answers the first sufficient feed at the requested timeframe in one invocation and records that feed and timeframe as its success; only when no feed is sufficient does it return what `_try_timeframe_fallbacks` returns, after its own queries |
| MarketData.FetchMeaning | src/utils/data.py:36-168 | a frame `get_bars` returns (over all its fallbacks) is standardized and has at least `min_required_bars or lookback_bars` bars; it succeeds exactly when some invocation records a feed success, on a known feed at the requested or a coarser timeframe; the first query is the sip feed at the requested timeframe; every query is for the symbol, asks for at most 1000 bars, and is at the requested or a coarser timeframe; there is at most one invocation per fallback step, plus one reduced daily request |
| MarketData.FallbackMeaning | src/utils/data.py:214-291 | `_try_timeframe_fallbacks` is `get_bars` at the next coarser timeframe; at the daily timeframe with more than 100 bars asked for it is `get_bars` with a lookback of `min(100, min_required_bars)`; otherwise it gives None with no query; a frame it gives is standardized and long enough, and a success names a known feed at a timeframe no finer than the one it started from |
| MarketData.AttemptsShape | src/utils/data.py:62-99 | every query of the feed loop is for the symbol and timeframe, with limit `min(1000, lookback)` |
| MarketData.Bump | src/utils/data.py:131-132 | a success counter goes up by one from 0 or its old value; the other counters are unchanged |
| MarketData.Record | src/utils/data.py:343-354 | a successful probe adds or updates only its own entry: it is marked successful and its bar maximum becomes the larger of the old maximum (0 for a new entry) and the probe's count; every other entry is unchanged |
| MarketData.ProbeStep | src/utils/data.py:327-361 | one probe adds its feed's entry, keeps the set of timeframe entries and never lowers the highest bar count |
| MarketData.ProbeStepEntries | src/utils/data.py:327-361 | one probe changes only its feed's and its timeframe's entries; each is marked successful and raised to the probe's bar count when the probe fetched a non-empty frame, and otherwise stays as it was (a new feed entry starting unsuccessful with 0 bars) |
| MarketData.SurveyMeaning | src/utils/data.py:323-364 | after the diagnostic loops, the highest bar count bounds every successful probe; there is a best combination exactly when some probe succeeded, and it names a probe that reached the highest count; each timeframe's and each feed's entry is successful exactly when one of its probes succeeded and holds the largest bar count among them (0 when none did); the timeframe entries are exactly the timeframes asked for, and the feed entries are the three feeds once any timeframe was probed |
| MarketData.EnhancedOf | src/utils/data.py:366-383 | the enhanced check succeeds exactly when `get_bars` returned a non-empty frame, and then reports its bar count, and a start and end that are timestamps of the frame with every bar between them |
| MarketData.MarketDataFetcher.constructor | src/utils/data.py:20-34 | the statistics start at zero, with the three feed counters present |
| MarketData.MarketDataFetcher.FetchFromFeed | src/utils/data.py:80-125 | one feed pass issues and returns exactly what the feed attempt specifies, and changes no statistic |
| MarketData.MarketDataFetcher.PollFeeds | src/utils/data.py:62-160 | the loop that sets or removes the shared `feed` parameter issues exactly the queries of the feed loop specification, and returns its frame and the winning feed |
| MarketData.MarketDataFetcher.GetBars | src/utils/data.py:36-168 | the result and the issued queries are those of the `get_bars` specification; attempts grow by the number of invocations; a success increments the success count and the feed and timeframe counters of the winning invocation, and stamps the time; a failure leaves them unchanged |
| MarketData.MarketDataFetcher.TryTimeframeFallbacks | src/utils/data.py:214-291 | the same, for `_try_timeframe_fallbacks` against its specification |
| MarketData.MarketDataFetcher.ProbeTimeframe | src/utils/data.py:323-364 | one timeframe of the diagnostic gives the specified survey step, issues one query per feed, and changes no statistic |
| MarketData.MarketDataFetcher.ProbeFeed | src/utils/data.py:327-361 | one probe issues the single query of its timeframe and feed (with the raw lookback as limit) and applies the specified survey step to its answer; no statistic changes |
| MarketData.MarketDataFetcher.TestDataFeeds | src/utils/data.py:293-396 | the diagnostic results are the survey of the given timeframes (the three defaults when none are given) followed by one hourly `get_bars`; its queries and statistics are those of the two parts in order |
| Provider.InsertStringMeaning | src/data/provider.py:73 | inserting into a sorted list keeps it sorted and adds exactly the one element |
| Provider.SortStringsMeaning | src/data/provider.py:73 | `sorted(symbols)` is ascending and a permutation of its input |
| Provider.SortedUnique | src/data/provider.py:73 | two sorted lists with the same elements are the same list |
| Provider.CacheKeyOrderFree | src/data/provider.py:73 | the cache key does not depend on the order in which the symbols are given |
| Provider.CacheKeySingle | src/data/provider.py:73 | the key of a one-symbol request is the symbol, the timeframe and the limit joined by underscores |
| Provider.DropMissing | src/data/provider.py:146 | `dropna(subset=...)` keeps exactly the rows with a value in every required column |
| Provider.DropMissingConcat | src/data/provider.py:146 | dropping incomplete rows commutes with concatenation, so the kept rows stay in their original order |
| Provider.FirstAt | src/data/provider.py:149 | the first row with a timestamp is absent exactly when no row has that timestamp, and otherwise is one of the rows and has it |
| Provider.FirstAtIndex | src/data/provider.py:149 | a row with no earlier row of the same timestamp is the first row with that timestamp |
| Provider.WholeVolume | src/data/provider.py:159 | the volume conversion truncates the volume toward zero and keeps the timestamp, the columns and every other value |
| Provider.Clean | src/data/provider.py:122-161 | an empty frame is returned as is, and a frame missing an OHLCV column becomes an empty frame; otherwise the columns are kept, the rows are exactly those with every OHLCV value, with one row per timestamp, in strictly ascending order, with whole volumes, and each kept row is the first complete input row with its timestamp, with its volume truncated |
| Provider.CleanAll | src/data/provider.py:90-92 | cleaning the response keeps its symbols |
| Provider.CleanAllMeaning | src/data/provider.py:90-92 | each symbol's frame is replaced by its cleaned copy, and an empty frame is left unchanged |
| Provider.CleanBars | src/data/provider.py:90-92 | the loop replaces every non-empty frame of the response by its cleaned copy, as specified |
| Provider.DataProvider.constructor | src/data/provider.py:23-43 | empty cache, zero statistics, no request yet |
| Provider.ServeMeaning | src/data/provider.py:45-104 | a request is a cache hit exactly when caching is on and the key's entry is younger than five minutes; a hit answers the cached data and changes nothing; otherwise the broker is called once; it raises exactly when the request fails, which answers `{}` and changes nothing; otherwise the cleaned response is answered and, exactly when caching is on and it is non-empty, stored under the key with the current time |
| Provider.ServeCached | src/data/provider.py:45-104 | a non-empty answer is served again from the cache without a broker call, for the same symbols in any order, timeframe and limit: a fetched answer for as long as it is younger than five minutes, a cached one at the same moment |
| Provider.DataProvider.IsCacheValid | src/data/provider.py:106-120 | a key is valid exactly when it has a timestamp less than five minutes old |
| Provider.DataProvider.GetBars | src/data/provider.py:45-104 | the answer and the new cache are those of the request specification above; the request count goes up by one and the time is stamped; the hit and failure counts go up exactly on a hit and on a failed broker call; the broker call is logged exactly on a miss; the cache invariant (keys stamped, entries non-empty, hits plus failures at most requests) is kept |
| Provider.DataProvider.Refresh | src/data/provider.py:80-104 | the miss path: one logged broker call, with the answer and the new cache of the miss specification, and a failure counted exactly when the call raised |
| Provider.DataProvider.Store | src/data/provider.py:95-97 | a non-empty answer is cached with its time only when caching; nothing else changes |
| Provider.DataProvider.GetLatestPrice | src/data/provider.py:163-188 | one cached request for the symbol's last one-minute bar, with the new cache, the request count, the time stamp, the hit and failure counts and the broker-call log exactly as `get_bars` leaves them; a price exactly when the answer has a non-empty frame for the symbol whose last bar has a close, and then it is that close |
| Provider.DataProvider.GetMultiTimeframeData | src/data/provider.py:215-245 | one request per timeframe, in order, each through the request specification on the cache the previous one left; the result collects, per timeframe, the symbol's frame from the answers that had it; the request count grows by the number of timeframes, the hit and failure counts by the run's hits and failures, and the broker-call log by its misses; the time is stamped when there was a request |
| Provider.DataProvider.RequestTimeframe | src/data/provider.py:236-240 | the request for the i-th timeframe is counted and stamped, and its answer, new cache, hit, failure and broker call are those of one cached request; the cached requests still to make are this one followed by the rest, made on the cache it leaves |
| Provider.ServeEachCounts | src/data/provider.py:215-245 | in a run of requests, hits and failures together are at most the number of timeframes, there is one broker call for every request that was not a hit, and each is for the symbol alone |
| Provider.ServeEachRepeats | src/data/provider.py:215-245 | a timeframe listed twice in a row is answered the second time from the cache, with the same non-empty answer |
| Provider.GatherMeaning | src/data/provider.py:235-243 | a timeframe is in the collected result exactly when one of its answers had the symbol, and it holds the frame of the last such answer |
| Provider.DataProvider.GetCacheStats | src/data/provider.py:247-261 | the hit ratio times `max(1, requests)` is the hit count, and it lies between 0 and 1 whenever the statistics are consistent |
| Provider.DataProvider.ClearCache | src/data/provider.py:263-267 | both cache maps are emptied and the statistics are kept |
| Strategy.WindowSum | src/bot/strategy.py:129-150 | a window's sum exists exactly when none of its closes is NaN |
| Strategy.MA | src/bot/strategy.py:129-150 | `rolling(window=w).mean()` has a value at a row exactly when `w` rows end there and none of their closes is NaN |
| Strategy.MAIsMean | src/bot/strategy.py:129-150 | that value is the arithmetic mean of the `w` closes ending at the row |
| Strategy.MovingAveragesMeaning | src/bot/strategy.py:129-150 | the four means exist exactly when there are at least `long_window` rows, at least two, a close column, and every compared mean is defined; each is the arithmetic mean of the closes in its window, ending at the last row for the current means and at the row before for the previous ones |
| Strategy.Analyze | src/bot/strategy.py:152-234 | fewer rows than the long window give no action; an action needs at least `long_window + 1` rows, positive windows and a present last close, which is its price; a buy carries a stop 5% below the price, other signals none; the strategy never asks for an exit |
| Strategy.BuyIffGoldenCross | src/bot/strategy.py:201-209 | a buy comes exactly from a golden cross: the short mean at or below the long one at the previous row, and above it at the last row |
| Strategy.SellIffDeathCross | src/bot/strategy.py:210-217 | a sell comes exactly from a death cross: the short mean at or above the long one at the previous row, and below it at the last row |
| Strategy.ExactlyLongWindowIsNull | src/bot/strategy.py:169-184 | with exactly `long_window` rows the previous long mean is NaN, so there is never an action |
| Strategy.RequiredDataSuffices | src/bot/strategy.py:112-127 | the requirement asks for hourly bars, a lookback above the minimum, and a minimum under which every mean the rule compares is defined when the closes are present and the short window is at most the long one |
| Strategy.RequiredDataTight | src/bot/strategy.py:112-127 | with fewer rows than `min_required_bars` there is never an action, so the minimum cannot be lowered |
| Strategy.GoldenCrossExample | src/bot/strategy.py:152-234 | closes 1, 1, 1, 3 under windows 1 and 2 give a buy at 3 with a stop at 2.85 |
| Trader.BuyQuantityMeaning | src/bot/trader.py:220-236 | no order exactly when the price or the stop is missing or zero, they coincide, or the truncated size is not positive; otherwise the size is at least 1 and is the largest whole number of shares whose risk fits the budget `equity * risk_per_trade` |
| Trader.BuyQuantityExample | src/bot/trader.py:220-236 | equity 10000 at 2% risk, entering at 100 with a stop at 95, buys 40 shares |
| Trader.ExecuteWith | src/bot/trader.py:201-268 | every request is for the signal's symbol, and a signal without an action sends nothing |
| Trader.ExecuteMeaning | src/bot/trader.py:201-268 | a buy sends a market buy of the computed size, then the stop order exactly when the broker accepted the buy, and returns the buy's id exactly when it was accepted; a sell or an exit sends one close and returns its order's id when the broker answered |
| Trader.StopFailureLosesBuyId | src/bot/trader.py:240-268 | as written, when the stop order raises after an accepted buy, no id is returned; the corrected execution returns the buy's id |
| Trader.NoEquityNoBuy | src/bot/trader.py:220-236 | without an account snapshot (before the first refresh, or after the account call failed) the equity is 0, so a buy signal is sized to nothing and sends no order |
| Trader.PositionMap | src/bot/trader.py:274 | the snapshot has a key exactly for each symbol with a position, and maps it to one of that symbol's positions |
| Trader.PositionMapLastWins | src/bot/trader.py:274 | for each symbol, the snapshot keeps the last position listed |
| Trader.AvailableSlots | src/bot/trader.py:132-133 | the free slots are never negative, are zero exactly when the held positions reach the maximum, and otherwise fill it up |
| Trader.StrategyRunMeaning | src/bot/trader.py:154-169 | with at least one free slot, every execution that returns an order id uses exactly one slot (placed orders plus remaining slots stay equal to the slots at the start), so at most the free slots' worth of them happen; the slots never go below zero and the loop stops early exactly when they are all used; it only appends to the request log, every new request is for the symbol, and each is one broker call |
| Trader.PassedOver | src/bot/trader.py:154-169 | a strategy that raises or answers no signal is passed over: the loop continues with the next strategy exactly as if it were not there |
| Trader.NoActionNoOrders | src/bot/trader.py:154-169 | strategies that all raise, answer nothing, or answer a signal without an action send nothing and use no slot |
| Trader.ShortHistoryNoOrders | src/bot/trader.py:154-169 | with the moving-average strategies plugged in, bars fewer than every strategy's minimum send nothing and use no slot, although every strategy answers with a signal |
| Trader.StopFailureKeepsSlot | src/bot/trader.py:160-166 | an accepted buy whose stop order raises leaves the free slots unchanged as written, and uses one slot in the corrected execution |
| Trader.SymbolData | src/bot/trader.py:191-195 | the bot uses a frame exactly when the provider's answer has the symbol, and then it is that frame; the emptiness check is subsumed |
| Trader.ScanMeaning | src/bot/trader.py:142-169 | with at least one free slot, the symbol loop keeps the strategy loop's slot accounting across symbols, so it places at most the free slots' worth of orders with an id and stops early exactly when all are used; it never fetches a held symbol, and unless the slots run out it fetches every other symbol; the strategies run only on a fetched symbol's non-empty frame, and every new request is for such a symbol; it only appends to the request log, and each request is one broker call |
| Trader.TradingBot.constructor | src/bot/trader.py:31-83 | the configuration is kept, with no positions, an empty account and the bot not running |
| Trader.TradingBot.HandleExit | src/bot/trader.py:312-315 | only the running flag changes, to false |
| Trader.TradingBot.UpdateAccountInfo | src/bot/trader.py:279-286 | the account becomes the binding's answer (`{}` on an API failure); an exception leaves it as it was |
| Trader.TradingBot.UpdatePositions | src/bot/trader.py:270-277 | the positions become the listed positions keyed by symbol, replacing the old snapshot; an exception leaves it as it was |
| Trader.TradingBot.FetchDataForSymbol | src/bot/trader.py:173-199 | one cached provider request for the bot's timeframe and 100 bars, with the provider's new cache as specified; the result is the symbol's frame from that answer, or None when the answer lacks it; at most one broker call, for the symbol |
| Trader.TradingBot.ExecuteSignal | src/bot/trader.py:201-268 | the returned id, the requests sent and the broker calls are those of the execution specification (as written, or with the stop failure kept apart), sized with the current account equity |
| Trader.TradingBot.PlaceBuy | src/bot/trader.py:238-258 | a market buy, then the stop order exactly when the buy was accepted; no id unless the buy was accepted, and then its id, except that as written a stop order that raises loses it |
| Trader.TradingBot.ApplyStrategies | src/bot/trader.py:154-169 | the remaining slots, the placed-order count, the early stop, the request log and the broker calls are those of the strategy-loop specification |
| Trader.TradingBot.ScanSymbols | src/bot/trader.py:142-169 | the request log, the broker calls, the provider's cache and its request count are those of the symbol-loop specification, over the symbols not held |
| Trader.TradingBot.VisitSymbol | src/bot/trader.py:147-169 | one unheld symbol: one provider request, then the strategies on its frame when that is non-empty; the scan from this symbol on equals the scan from the next one on the state it leaves, unless the slots ran out, when it ends here |
| Trader.TradingBot.TradingCycle | src/bot/trader.py:121-170 | the account and positions are refreshed first; the free slots are computed from the new snapshot; with none free nothing is fetched or ordered; otherwise the request log, the broker calls, the provider's cache and its request count are those of the symbol-loop specification with those slots, at most that many orders return an id, the cycle stops early exactly when all slots are used, and every request sent is for an unheld symbol whose frame was non-empty |

## Left out

- Logging, event emission and `print` output are not modelled. Neither is the timing of fetches (`fetch_time_seconds`).
- The run loop, market-hours polling with `sleep`, `_check_market_status`, `_cleanup`, signal handler registration and the command-line entry point are not modelled. `_handle_exit` is modelled.
- `_rate_limit` is not modelled as code. Its effect on a call is one of the broker's possible answers: an exception escaping the binding's method (`Raised`).
- `get_daily_bars` is not modelled: it is one provider request whose start and end come from the wall clock.
- `DataProvider.close` is not modelled: it calls `clear_cache` without awaiting it, so it does nothing.
- `get_position` and `get_account` of the API wrapper are not modelled separately. `get_account` is `RetryApiCall`. `get_position` distinguishes the broker's error codes, which the model does not represent.
- Time zones, ISO date strings and the conversion of an index column to datetimes are not modelled. Timestamps are integers (microseconds).
- Floating point is modelled as real numbers, so rounding in means, ratios and sizes is not captured.
- Broker objects' fields are modelled as present (Some) or absent (None). The binding tests the presence of the broker's string fields. Position quantities are taken as integers, so a fractional quantity string (which makes `int()` raise) is not modelled.
- The dictionary the provider caches is the same object it returns. Changes a caller makes to it are not modelled.
- Each oracle is a total function of its inputs. Repeating the same call at the same time gives the same answer.
- Signals keep only their action, price and stop. Their metrics and reason texts are not modelled. An action other than buy, sell or exit is modelled as no action.
- The strategy base class and the strategy registry are not modelled. The bot's strategies are the `Analyzer` oracle. `MAAnalyzer` plugs the moving-average strategy into it (see `ShortHistoryNoOrders`).
- The `TradingBot` constructor does not model the construction of the broker client. That construction is `Alpaca.NewClient`.
- Frames.SortByTs: the model sorts stably. The source's default sort is not guaranteed stable, so no property depends on the order of rows that share a timestamp.
- Trader.TradingBot.ScanSymbols: states the provider's cache and request count, but not its hit and failure counts or its log of broker calls. `DataProvider.GetBars` states those for each request.
- Trader.TradingBot.TradingCycle: the same as for `ScanSymbols`.
- Provider.DataProvider.GetLatestPrice: a last bar without a close gives None. The source would return NaN there. This cannot arise for frames produced by cleaning, which keeps only rows with a close.

## Findings

| source | as written | input that shows it | evidently intended | confidence | as-written member | corrected member |
|---|---|---|---|---|---|---|
| src/bot/trader.py:240-268 | After the broker accepts the market buy, the protective stop order is placed inside the same `try`. If that call raises, the handler returns None. The cycle then does not count the new position against its free slots, and it may open more positions than `max_positions` allows. | A buy signal whose buy order is accepted, followed by a stop order that raises. For example, `_rate_limit` (src/api/alpaca.py:69-77) awaits `time.sleep` when two requests come within 0.2 s. That raises a TypeError outside the binding's own `try`, and the stop order always follows the buy immediately. | Return the accepted buy's id whatever the stop order's outcome. | not executed | Trader.ExecuteAsWritten, Trader.StopFailureLosesBuyId, Trader.StopFailureKeepsSlot | Trader.Execute, Trader.ExecuteMeaning |
