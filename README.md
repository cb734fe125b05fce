# OmniCharts market-data core in Dafny

This project models the small, self-contained pieces of market-data logic in OmniCharts, a
browser charting front end for a crypto exchange, and proves what they guarantee. The pieces are:

- the timeframe codec (`"15m"` to milliseconds and back);
- the live candle sampler that folds one trade into a candle array in place;
- the trade-stream client, a state machine of module-level flags driven by socket events and timers;
- the kline row formatter and the `loading` guard of the real-time test loader;
- the symbol catalogue: the one-hour cache, grouping by quote asset, search, category order, popular picks and the fallback list;
- the `/api/v3/ws-info` endpoint that builds a combined-stream URL;
- the trading-signal list;
- the meta hub's tool state, OHLC index, auto-precision table and y-transform storage key.

Each source file is one module:

- `timeframe.dfy` (Timeframe)
- `sampler.dfy` (Sampler)
- `stream_client.dfy` (StreamClient)
- `data_loader.dfy` (DataLoader)
- `symbols.dfy` (SymbolService)
- `ws_info.dfy` (WsInfo)
- `signals.dfy` (Signals)
- `meta_hub.dfy` (MetaHub)

Two shared modules support them:

- `strings.dfy` (JsText) models the JavaScript string built-ins the code relies on: `toUpperCase`, `toLowerCase`, `split`, `join`, `trim`, `includes`, `endsWith`, `parseInt` and number-to-string conversion. It also models `localeCompare`, as ordinal order.
- `sorting.dfy` (Sorting) is a stable insertion sort that stands in for `Array.prototype.sort`.

Code that updates state in place is modelled as classes:

- `Sampler.Series`, `StreamClient.Client`, `DataLoader.Loader`, `SymbolService.SymbolCache`, `Signals.SignalFeed` and `MetaHub.Hub`.
- The loops of the source are methods with invariants: `CalcOhlcMap`, the grouping and sorting of `processSymbolCategories`, both loops of `getTopSymbols`, and the fallback split.
- Each state-changing method of the stream client is tied to a pure step function on a state record, and the lemmas are stated about those step functions.

The following become parameters:

- clock readings (`Date.now()`, `new Date().getTime()`);
- fetched responses;
- incoming socket frames;
- generated UUIDs.

Sockets and timers are not executed. A stream-client step returns the effects it requests: open, send, close, schedule a job after a delay, or call a callback.

## Model

| member | source | states |
|---|---|---|
| Timeframe.TfToMs | tests/real-time/lib/timeframeUtils.js:6-41 | a number is returned unchanged; text whose leading integer does not parse, or whose last character is not a unit, gives 300000 |
| Timeframe.TfToMsOfIntegerAndUnit | tests/real-time/lib/timeframeUtils.js:17-36 | `"<k>...<u>"` gives `k` times the multiplier of `u` (1000, 60000, 3600000, 86400000, 604800000, 2592000000) and 300000 when `u` is not a unit; only the leading integer and the final character matter |
| Timeframe.MsToTf | tests/real-time/lib/timeframeUtils.js:48-65 | a string matching `^[0-9]+[smhdwM]$` is returned unchanged; NaN and non-number, non-string input give `"5m"` |
| Timeframe.UnitFor | tests/real-time/lib/timeframeUtils.js:89-99 | the unit chosen for a non-canonical duration is positive and is the multiplier of the letter written |
| Timeframe.RoundDiv | tests/real-time/lib/timeframeUtils.js:90 | `Math.round(ms / u)` is the integer within half a unit of `ms / u`, halves rounded up |
| Timeframe.DigitsOfTfText | tests/real-time/lib/timeframeUtils.js:28 | `parseInt` of a timeframe text reads all of its digits and stops at the unit letter |
| Timeframe.TfTextValue | tests/real-time/lib/timeframeUtils.js:28-36 | a text that `msToTf` passes through is read by `tfToMs` as its digits times its unit |
| Timeframe.CanonicalNameValue | tests/real-time/lib/timeframeUtils.js:68-86 | each of the 18 canonical names is a timeframe text whose value is its duration |
| Timeframe.CanonicalRoundTrip | tests/real-time/lib/timeframeUtils.js:68-86 | `tfToMs(msToTf(ms)) == ms` for each canonical duration |
| Timeframe.CanonicalNameRoundTrip | tests/real-time/lib/timeframeUtils.js:68-86 | `msToTf(tfToMs(name)) == name` for each canonical name |
| Timeframe.NonCanonicalUnit | tests/real-time/lib/timeframeUtils.js:87-99 | a non-canonical duration is written as the rounded count of m, h, d, w or M, chosen by the thresholds 1h, 1d, 1w and 30d |
| Timeframe.NonCanonicalReadBack | tests/real-time/lib/timeframeUtils.js:87-99 | the text of a non-canonical duration reads back as a whole number of its unit |
| Timeframe.MsToTfRoundTripWithinHalfUnit | tests/real-time/lib/timeframeUtils.js:48-101 | for every integral duration, reading back its text is exact for canonical ones and within half a unit otherwise |
| Timeframe.DigitTextIsMilliseconds | tests/real-time/lib/timeframeUtils.js:58-60 | a digit-only string is treated as that many milliseconds |
| Sampler.JsRem | tests/real-time/lib/ohlcvSampler.js:14 | `%` truncates toward zero: the remainder has the sign of the dividend and is smaller than the divisor's size, whatever the divisor's sign |
| Sampler.JsRemAligned | tests/real-time/lib/ohlcvSampler.js:14 | subtracting the remainder leaves a multiple of the timeframe's size |
| Sampler.Series.Sample | tests/real-time/lib/ohlcvSampler.js:2-28 | `tf` defaults to 300000 and may be negative; the new array and result are those of the step function; undefined exactly for an empty array; a new candle extends the array and keeps the old candles; an update keeps all candles but the last |
| Sampler.BucketStartAligned | tests/real-time/lib/ohlcvSampler.js:14 | for a clock reading `now >= 0` and any non-zero `tf`, the new candle's time is a multiple of `abs(tf)` in `(now - abs(tf), now]` |
| Sampler.NewCandleAfterAlignedLast | tests/real-time/lib/ohlcvSampler.js:12-14 | when the last time was aligned, the new candle starts at least one timeframe after it |
| Sampler.SampleAppendsOnBoundary | tests/real-time/lib/ohlcvSampler.js:8-19 | once `now >= last.ts + tf`, exactly one aligned candle `[t, p, p, p, p, vol]` is appended and the result is true |
| Sampler.SampleUpdatesLast | tests/real-time/lib/ohlcvSampler.js:20-27 | otherwise only the last candle changes: time and open kept, high and low take in the price, close is the price, volume grows by the trade volume (0 when missing), result false |
| Sampler.SampleEmpty | tests/real-time/lib/ohlcvSampler.js:3-4 | an empty array is left alone and the result is undefined |
| Sampler.SampleKeepsWellFormed | tests/real-time/lib/ohlcvSampler.js:8-27 | every candle stays well formed (low <= open, close <= high) |
| StreamClient.MatchesIff | tests/real-time/lib/wsx.js:56 | the filter matches exactly when some subscribed symbol upper-cases to the message symbol |
| StreamClient.SubscribeParams | tests/real-time/lib/wsx.js:78 | one param per symbol, in order, each lower-cased with `@aggTrade` appended |
| StreamClient.Route | tests/real-time/lib/wsx.js:47-73 | an unparsable frame is ignored; a frame without `s` goes to `print`; a forwarded trade carries the upper-cased symbol, which matches the filter |
| StreamClient.RouteForwardsIff | tests/real-time/lib/wsx.js:52-62 | an `aggTrade` is forwarded iff its upper-cased symbol equals some subscribed symbol upper-cased |
| StreamClient.StartHfStep | tests/real-time/lib/wsx.js:36-45 | `start_hf` opens a new socket to the stream URL and changes nothing else |
| StreamClient.PrintStep | tests/real-time/lib/wsx.js:128-140 | `print` always clears `reconnecting`; sets `ready` only when not reconnecting; never clears `ready`; refreshes `last_event` and schedules the heartbeat only on first readiness; asks for a refine while reconnecting |
| StreamClient.ReconnectStep | tests/real-time/lib/wsx.js:117-126 | `reconnect` sets `reconnecting`, closes the socket and schedules a restart after a fixed 1000 ms |
| StreamClient.OnCloseStep | tests/real-time/lib/wsx.js:86-96 | the close event leaves `ready` and `reconnecting` alone and requests nothing |
| StreamClient.HeartbeatStep | tests/real-time/lib/wsx.js:142-151 | nothing when terminated; when the last event is over 60000 ms old, runs `reconnect` (close and a 1000 ms restart when there is a socket) unless already reconnecting, and checks again in 10000 ms; otherwise checks again in 1000 ms |
| StreamClient.TerminateStep | tests/real-time/lib/wsx.js:153-169 | leaves `terminated` true and `ready` and `reconnecting` false; closes a socket that is not closed; schedules the 500 ms reset |
| StreamClient.InitStep | tests/real-time/lib/wsx.js:19-34 | stores the symbols, keeps the last-event time and opens a socket; with an existing socket first runs exactly `terminate`'s effects (close unless already closed, the 500 ms reset) and leaves `ready` and `reconnecting` false; without one only the connect and the 10 s retry are requested |
| StreamClient.RetryInitStep | tests/real-time/lib/wsx.js:31-33 | the retry does nothing once ready, and runs `init` with the stored symbols otherwise |
| StreamClient.AddSymbolStep | tests/real-time/lib/wsx.js:104-115 | `add_symbol` leaves the state (and the symbol list) unchanged and sends a subscribe frame only on an open socket |
| StreamClient.SymbolLessMessage | tests/real-time/lib/wsx.js:50 | a message without `s` goes to `print` and refreshes `last_event` only on first readiness |
| StreamClient.SymbolMessageRefreshes | tests/real-time/lib/wsx.js:51-68 | a message with a symbol refreshes `last_event` and nothing else, and emits a trade iff it is a matching `aggTrade` |
| StreamClient.MessagesNeverUnready | tests/real-time/lib/wsx.js:128-140 | no message turns `ready` off |
| StreamClient.CloseDoesNotReconnect | tests/real-time/lib/wsx.js:86-101 | the close event does not reconnect; the error event does |
| StreamClient.TerminatedHeartbeatStops | tests/real-time/lib/wsx.js:143 | after `terminate` the heartbeat stops and changes nothing |
| StreamClient.AddSymbolKeepsFilter | tests/real-time/lib/wsx.js:104-115 | after `add_symbol` a trade that did not match the filter still is not forwarded |
| StreamClient.OpenSubscribesEverySymbol | tests/real-time/lib/wsx.js:75-84 | the frame sent on open is one SUBSCRIBE with id 1 and one `<lower>@aggTrade` stream per symbol, in order |
| StreamClient.NoEventNeverStale | tests/real-time/lib/wsx.js:142-151 | with `last_event` still Infinity a heartbeat of a live stream never reconnects: the state is unchanged and the next check is in 1000 ms |
| StreamClient.Client.constructor | tests/real-time/lib/wsx.js:3-13 | the initial flags: not ready, not reconnecting, not terminated, no event, no symbols, no socket |
| StreamClient.Client.Print | tests/real-time/lib/wsx.js:128-140 | the new state and effects are those of `PrintStep` |
| StreamClient.Client.OnMessage | tests/real-time/lib/wsx.js:47-73 | the new state and effects are those of `OnMessageStep` |
| StreamClient.Client.OnOpen | tests/real-time/lib/wsx.js:75-84 | the new state and effects are those of `OnOpenStep` |
| StreamClient.Client.OnClose | tests/real-time/lib/wsx.js:86-96 | the new state and effects are those of `OnCloseStep` |
| StreamClient.Client.OnError | tests/real-time/lib/wsx.js:98-101 | the new state and effects are those of `OnErrorStep` (a reconnect) |
| StreamClient.Client.Reconnect | tests/real-time/lib/wsx.js:117-126 | the new state and effects are those of `ReconnectStep` |
| StreamClient.Client.Heartbeat | tests/real-time/lib/wsx.js:142-151 | the new state and effects are those of `HeartbeatStep` |
| StreamClient.Client.Terminate | tests/real-time/lib/wsx.js:153-169 | the new state and effects are those of `TerminateStep` |
| StreamClient.Client.ClearTerminated | tests/real-time/lib/wsx.js:166-168 | the reset timer clears `terminated` |
| StreamClient.Client.Init | tests/real-time/lib/wsx.js:19-34 | the new state and effects are those of `InitStep` |
| StreamClient.Client.RetryInit | tests/real-time/lib/wsx.js:31-33 | the new state and effects are those of `RetryInitStep` |
| StreamClient.Client.StartHf | tests/real-time/lib/wsx.js:36-45 | the new state and effects are those of `StartHfStep` |
| StreamClient.Client.AddSymbol | tests/real-time/lib/wsx.js:104-115 | the state is unchanged; the effects are those of `AddSymbolStep` |
| DataLoader.Format | tests/real-time/lib/dataLoader.js:152-161 | exactly six elements: raw element 0, then `parseFloat` of raw elements 1 to 4 and 7 |
| DataLoader.FormatIgnoresOtherColumns | tests/real-time/lib/dataLoader.js:152-161 | rows that agree on indices 0 to 4 and 7 format alike; indices 5, 6 and 8 onward are ignored |
| DataLoader.FormatReadsNumbersAsDecimal | tests/real-time/lib/dataLoader.js:155-158 | a numeric price reaches `parseFloat` as its decimal text |
| DataLoader.FormatRows | tests/real-time/lib/dataLoader.js:148 | the callback gets one formatted row per raw row, in order |
| DataLoader.MoreUrlCarriesEndTime | tests/real-time/lib/dataLoader.js:144-145 | the `loadMore` URL is the base URL with symbol and interval, then `&endTime=` and the end time, which reads back |
| DataLoader.Loader.constructor | tests/real-time/lib/dataLoader.js:7 | `loading` starts false |
| DataLoader.Loader.LoadMore | tests/real-time/lib/dataLoader.js:141-145 | a call while loading issues no request; otherwise `loading` is raised and the request for the end time is issued |
| DataLoader.Loader.OnResponse | tests/real-time/lib/dataLoader.js:146-149 | rows are delivered formatted and only then is `loading` lowered; a failed fetch delivers nothing and leaves `loading` raised |
| Sorting.InsertPermutes | src/services/symbolService.js:89 | inserting adds exactly the element |
| Sorting.InsertSorted | src/services/symbolService.js:89 | inserting into a sorted list keeps it sorted |
| Sorting.SortSortsAndPermutes | src/services/symbolService.js:147-162 | the sort is ordered by the comparator and is a permutation |
| SymbolService.ActiveSymbols | src/services/symbolService.js:40-49 | only pairs with status TRADING survive |
| SymbolService.ActiveSymbolsIff | src/services/symbolService.js:40-49 | a pair is listed iff it is the six-field copy of a raw entry with status TRADING |
| SymbolService.BaseLeTotalPreorder | src/services/symbolService.js:89 | the base-asset comparator is a total preorder |
| SymbolService.QuoteOrderIff | src/services/symbolService.js:76-81 | a quote asset is a key iff some pair has it |
| SymbolService.QuoteOrderDistinct | src/services/symbolService.js:77-79 | each key occurs once |
| SymbolService.WithQuoteCount | src/services/symbolService.js:80 | the list of `q` holds each pair quoted in `q` as often as the input, and nothing else |
| SymbolService.CategoryKeys | src/services/symbolService.js:76-81 | the category keys are exactly the quote assets present, each once |
| SymbolService.CategoryCount | src/services/symbolService.js:76-90 | every pair lands in the category of its quote asset, as often as it occurs, and in no other |
| SymbolService.CategorySorted | src/services/symbolService.js:87-90 | each category is sorted by base asset |
| SymbolService.CategorizeKeyed | src/services/symbolService.js:76-90 | every list holds only pairs quoted in its key |
| SymbolService.GroupByQuote | src/services/symbolService.js:74-81 | the grouping loop builds the keys in first-occurrence order and each list in input order |
| SymbolService.SortGroups | src/services/symbolService.js:87-90 | the sorting loop leaves each list sorted by base asset |
| SymbolService.SymbolCache.ProcessSymbolCategories | src/services/symbolService.js:72-94 | the cache's categories become the grouping of the pairs; the data and its time are untouched |
| SymbolService.SymbolCache.FetchAllSymbols | src/services/symbolService.js:18-66 | a fresh cache (data present, under one hour old) is returned as is; a listed response replaces and stamps the data and refiles the categories; any failure returns the fallback list |
| SymbolService.FilterMatchingCount | src/services/symbolService.js:112-116 | the filter keeps each matching pair as often as it occurs and drops the rest |
| SymbolService.SearchSymbols | src/services/symbolService.js:101-107 | a missing, empty or whitespace-only query returns the full list |
| SymbolService.FilterAppend | src/services/symbolService.js:112-116 | the filter keeps input order: filtering a concatenation is filtering each part and concatenating |
| SymbolService.SearchSymbolsCount | src/services/symbolService.js:109-116 | otherwise the result keeps exactly the pairs whose symbol, base or quote asset contains the trimmed, upper-cased query, as often as they occur and in input order (a single pair is kept iff it matches, and the search of a concatenation is the concatenation of the searches) |
| SymbolService.IndexOf | src/services/symbolService.js:148-149 | `indexOf` is the first position of the element, or -1 when it is absent |
| SymbolService.CategoryLeTotalPreorder | src/services/symbolService.js:147-162 | the category comparator is a total preorder |
| SymbolService.CategoryLeMeaning | src/services/symbolService.js:147-162 | the comparator puts priority assets first, in priority order, and the others in ordinal order |
| SymbolService.OrderCategories | src/services/symbolService.js:140-163 | the categories come out permuted, with USDT, BUSD, BTC, ETH, BNB first in that order, then the others alphabetically |
| SymbolService.FindBase | src/services/symbolService.js:185-187 | `find` returns the first pair of the list with the base, and nothing only when there is none |
| SymbolService.FindBaseNotInFresh | src/services/symbolService.js:199-201 | when no pair with the base is taken yet, excluding taken pairs changes nothing |
| SymbolService.Picks | src/services/symbolService.js:184-191 | at most one pick per base, each from the list and with a popular base |
| SymbolService.PicksComplete | src/services/symbolService.js:184-191 | every popular base with a pair in the list gets that base's first pair among the picks |
| SymbolService.PicksFollowBases | src/services/symbolService.js:184-191 | the picks follow the popular order, with at most one per base asset |
| SymbolService.PickEach | src/services/symbolService.js:184-191 | the first loop builds the picks |
| SymbolService.TopUpStep | src/services/symbolService.js:196-205 | one round of the second loop keeps the result a prefix of the USDT picks followed by the BTC picks |
| SymbolService.TopUp | src/services/symbolService.js:195-206 | the second loop stops at `limit` and otherwise adds every BTC pick |
| SymbolService.Slice | src/services/symbolService.js:208 | `slice(0, limit)` keeps a prefix of `limit` elements, or drops `-limit` from the end when `limit` is negative |
| SymbolService.SymbolCache.GetTopSymbols | src/services/symbolService.js:170-209 | with the default limit 20; for a non-negative limit, the first `limit` of the USDT picks followed by the BTC picks, hence at most `limit`; for a negative one the USDT picks sliced from the end |
| SymbolService.TopPicksDistinct | src/services/symbolService.js:183-208 | the top symbols have no repeats |
| SymbolService.SymbolCache.GetSymbolsByCategory | src/services/symbolService.js:124-134 | a known category gives its list; a missing, empty or unknown one gives the top 20 |
| SymbolService.SplitSymbol | src/services/symbolService.js:224-235 | with a matching suffix (tried in the order USDT, BTC, ETH, BNB, BUSD) the first one is the quote and `baseAsset + quoteAsset == symbol`; without one the base is the symbol and the quote is USDT |
| SymbolService.FallbackNamesEndInUsdt | src/services/symbolService.js:217-221 | every fallback symbol ends in USDT and splits at it |
| SymbolService.FallbackList | src/services/symbolService.js:217-245 | the 20 fallback entries, each split into base and USDT, with precisions 8 and status TRADING |
| SymbolService.SymbolCache.GetFallbackSymbols | src/services/symbolService.js:215-251 | returns the fallback list and refiles the categories from it, leaving the data alone |
| WsInfo.Handle | api/v3/ws-info.js:12-52 | a missing or empty `symbols` gives 400; a repeated parameter throws into the 500 path; otherwise 200 with the split list echoed, the fixed instructions and a URL that is the base followed by the `/`-joined streams |
| WsInfo.NoSymbolsUnreachable | api/v3/ws-info.js:28-34 | the "No valid symbols provided" 400 is never sent |
| WsInfo.StreamsFollowSymbols | api/v3/ws-info.js:37 | when no symbol contains `/`, there are as many streams as symbols and the i-th is the i-th symbol lower-cased with `@aggTrade` |
| Signals.CloseById | src/services/signalService.js:67-71 | `closeSignal` keeps length and order, leaves other ids unchanged, and gives matching ids `eventType` "close" with all other fields kept |
| Signals.CloseByIdIdempotent | src/services/signalService.js:69 | closing twice is closing once |
| Signals.CloseByIdKeepsFields | src/services/signalService.js:69 | only `eventType` changes, and a signal is closed afterwards iff it had the id or was closed already |
| Signals.CloseByIdCommutes | src/services/signalService.js:67-71 | closing two ids gives the same list in either order |
| Signals.CloseByIdAppend | src/services/signalService.js:64 | closing distributes over an appended signal |
| Signals.TestSignal | src/services/signalService.js:38-53 | the test signal has the given id and time, event "open", and the defaults for missing overrides (price 0, stop loss 0.2% below, take profit 0.5% above, confidence 0.5, strategy "debug") |
| Signals.DefaultTestSignal | src/services/signalService.js:38-53 | without overrides the signal has zero prices and passes the symbol filter only when that is empty or lists `""` |
| Signals.SignalFeed.Init | src/services/signalService.js:10-15 | re-initialising while a socket exists clears the list; the listener filters by the new symbols (none by default); POSTs in flight are kept |
| Signals.SignalFeed.OnMessage | src/services/signalService.js:19-29 | an inbound signal is appended at the end iff the filter is empty or contains its symbol; an unparsable frame changes nothing |
| Signals.SignalFeed.SendTestSignal | src/services/signalService.js:37-60 | the test signal is built and its POST issued; the list is untouched until the POST settles, so messages, `init` and `closeSignal` can act on it in between |
| Signals.SignalFeed.PostSettled | src/services/signalService.js:54-64 | when a pending POST settles, in any order and whether it succeeded or failed, exactly that signal is appended at the end and leaves the pending set |
| Signals.SignalFeed.CloseSignal | src/services/signalService.js:67-71 | the list becomes `CloseById` of the old list |
| MetaHub.SelectTool | src/core/metaHub.js:183-196 | selecting the active tool resets to Cursor with magnet and drawing mode off; selecting another tool makes it active, turning the magnet on for Magnet and keeping it otherwise |
| MetaHub.AfterDrawingModeOff | src/core/metaHub.js:167-177 | a no-op for Brush and Magnet; otherwise tool Cursor and drawing mode off |
| MetaHub.KeyDown | src/core/metaHub.js:79-81 | after key-down the magnet equals `ctrlKey` |
| MetaHub.KeyUp | src/core/metaHub.js:87-91 | after key-up the magnet is off |
| MetaHub.SelectTwiceResets | src/core/metaHub.js:183-196 | selecting a tool twice returns to the initial tool state |
| MetaHub.DrawingModeOffIdempotent | src/core/metaHub.js:167-177 | turning drawing mode off is idempotent and never leaves the magnet tool |
| MetaHub.DrawingModeStaysOff | src/core/metaHub.js:167-196 | no tool or keyboard event turns drawing mode on |
| MetaHub.MagnetOffAfterKeyUp | src/core/metaHub.js:87-91 | any event run that ends with a key-up leaves the magnet off |
| MetaHub.OhlcMapLastOccurrence | src/core/metaHub.js:246-255 | the map's keys are exactly the data times, and each maps to the last row with that time and its index |
| MetaHub.OhlcMapDistinct | src/core/metaHub.js:246-255 | with distinct times, `map[data[i][0]]` is row `i` at index `i` |
| MetaHub.Prec | src/core/metaHub.js:338-340 | `getAutoPrec` is undefined unless both the grid and the overlay entry exist |
| MetaHub.SetThenGetPrec | src/core/metaHub.js:263-267 | after `setAutoPrec(g, o, p)`, `getAutoPrec(g, o)` is `p` and every other entry is unchanged |
| MetaHub.KeyRoundTrip | src/core/metaHub.js:296 | when neither uuid nor scale id contains `:`, splitting `yts:<uuid>:<scaleId>` recovers type, uuid and scale id |
| MetaHub.Hub.constructor | src/core/metaHub.js:40-43 | tool Cursor, drawing mode and magnet off, empty OHLC map and precision table |
| MetaHub.Hub.ToolSelected | src/core/metaHub.js:183-196 | the tool state becomes `SelectTool` of the old one; nothing else changes |
| MetaHub.Hub.DrawingModeOff | src/core/metaHub.js:167-177 | the tool state becomes `AfterDrawingModeOff` of the old one |
| MetaHub.Hub.ToggleMagnetOnCtrlKeyDown | src/core/metaHub.js:79-81 | the tool state becomes `KeyDown` of the old one |
| MetaHub.Hub.ResetMagnetOnCtrlUp | src/core/metaHub.js:87-91 | the tool state becomes `KeyUp` of the old one |
| MetaHub.Hub.CalcOhlcMap | src/core/metaHub.js:246-255 | the loop builds exactly `OhlcMapOf(data)` and changes nothing else |
| MetaHub.Hub.SetAutoPrec | src/core/metaHub.js:263-267 | the table becomes `SetPrec` of the old one |
| MetaHub.Hub.GetAutoPrec | src/core/metaHub.js:338-340 | reads the table as `Prec` |
| JsText.Upper | tests/real-time/lib/wsx.js:55 | `toUpperCase` keeps the length and maps ASCII lower-case letters to upper case, one by one |
| JsText.UpperIdempotent | tests/real-time/lib/wsx.js:55-58 | upper-casing yields upper-case text and is idempotent |
| JsText.Lower | tests/real-time/lib/wsx.js:78 | `toLowerCase` keeps the length and maps ASCII upper-case letters to lower case, one by one |
| JsText.Split | api/v3/ws-info.js:28 | `split` on one character always yields at least one piece, none holding the separator |
| JsText.SplitJoin | api/v3/ws-info.js:37 | joining pieces without the separator and splitting again gives the pieces back |
| JsText.JoinSplit | api/v3/ws-info.js:37-38 | splitting and joining again gives the string back |
| JsText.IncludesIff | src/services/symbolService.js:113-115 | `includes` holds iff the text occurs at some position |
| JsText.Trim | src/services/symbolService.js:105 | `trim` is empty exactly for all-white-space input, and otherwise starts and ends with non-white-space |
| JsText.ParseIntOfIntToString | tests/real-time/lib/timeframeUtils.js:28 | `parseInt` reads back the decimal text of an integer followed by a non-digit |
| JsText.StrLeTotal | src/services/symbolService.js:161 | ordinal order is total |
| JsText.StrLeTrans | src/services/symbolService.js:161 | ordinal order is transitive |

## Left out

- Event emission, the data hub, overlays and the heatmap of the meta hub (`exctractFrom`, `changeToolData`, `objectSelected`, `removeAllTools`, `onGridMousedown`, `finish`, the heatmap calls) depend on collaborators outside these files.
- The loops of `store`/`restore` in the meta hub depend on the data hub's panes. Only the key format and its split are modelled.
- Canvas primitives, HTTP and WebSocket proxies, the signal server, `BinanceService.js` and configuration are outside this core.
- Real sockets, timers and clocks are not executed. Timers are returned as scheduled jobs, and the current time is a parameter.
- Handlers of an old socket still firing after a new socket replaces it are not modelled.
- The commented-out FTX client at the end of `wsx.js` is dead code.
- Floating point: prices and volumes are `real`. `parseFloat` is an uninterpreted constructor over its input text. NaN and the infinities do not occur. `Math.round` is integer round-half-up.
- Unicode: white space is the ASCII set (space, tab, line feed, carriage return, vertical tab, form feed), without the Unicode spaces, no-break space or byte-order mark that `trim` also removes. Case mapping is ASCII only. JavaScript strings are modelled as sequences of characters rather than UTF-16 code units.
- `localeCompare` is modelled as ordinal (code-point) order.
- The stability of the sort is not proved.
- Object keys that are integer-like, which JavaScript enumerates first in ascending order, are treated like other keys in insertion order. Prototype names such as `constructor` as quote assets are not modelled.
- The CORS wrapper of the ws-info endpoint (api/v3/ws-info.js:5-12) is not modelled: the headers it adds for every origin and its answer to an `OPTIONS` preflight request. Only the handler body behind it is modelled.
- Durations are integers: `tfToMs` with a number and `msToTf` take whole milliseconds (`TfNumber`, `MsNumber`). A non-integral number of milliseconds given to either is not modelled, and neither is the fractional quotient that `Math.round` then rounds.
- FilterMatchingCount: states only how often each pair is kept. That the kept pairs stay in input order is stated by `FilterAppend` and by `SearchSymbolsCount`.
- Sampler.Series.Sample: requires a non-zero timeframe. With `tf = 0` the source computes a NaN candle time, which is not modelled. A negative timeframe, such as `tfToMs("-5m")` gives, is modelled: candles are aligned to its size and nearly every trade opens one. Only `NewCandleAfterAlignedLast`, about candle order after an aligned last candle, assumes a positive timeframe.
- StreamClient.Client.AddSymbol: a frame sent on a closing or closed socket is discarded by the browser. This is modelled as no effect, and the browser's console warning is not modelled.
- StreamClient.Route: a message whose `s` is a truthy non-string has no `toUpperCase`; the throw is caught and the message ignored. Symbols in other JSON types are not distinguished further.
- wsx hands `ontrades` a trade with `size`, while the sampler reads `volume`. The wiring between them is not part of these files, so the two are modelled separately.
- DataLoader: raw rows hold numbers (as integers), strings, null and booleans. Nested arrays or objects in a row are not modelled. The tool and SVG configuration that `load` passes to its callback is left out. A callback that throws in `loadMore` is not modelled.
- Signals: inbound signals are records with the fields of a test signal. A missing `symbol` is `None`. Other missing fields, non-string ids and the `trailingSL`/`trailingTP` objects are not modelled.
- Signals.TestSignal: states the defaults only for missing overrides. A present but falsy override (0 or "") also takes the default, as `OrNumber` and `OrText` define.
- MetaHub: tool names are arbitrary strings. Grid and overlay ids are integers, and precisions are integers.
- SymbolService: `searchSymbols`, `getSymbolsByCategory`, `getTopSymbols` and `getCategories` first await `fetchAllSymbols`. Here they are modelled over its result and the resulting cache. The HTTP status text of the thrown error is not modelled.
