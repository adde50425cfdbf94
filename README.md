# Alpaca live-data subscription bridge, in Dafny

A model of how LEAN's Alpaca brokerage acts as a live data-queue handler
(`Brokerages/Alpaca/AlpacaBrokerage.DataQueueHandler.cs`), and of the function-driven test double
`FuncDataQueueHandler` (`Tests/Engine/DataFeeds/FuncDataQueueHandler.cs`).

The Alpaca handler keeps a map `_subscribedSymbols` from a symbol's `Value` to the `Symbol`.
`Subscribe` and `Unsubscribe` update this map one symbol at a time. Each symbol first passes a
check that its value is, or is not, already a key, and then the eligibility rule `CanSubscribe`:
an equity whose value does not contain "universe" in any letter case. For every change the
handler calls the Polygon streaming client twice, quote stream first and trade stream second.
The handler receives quote and trade callbacks from that client. It drops a callback when the
callback's value is not subscribed. Otherwise it looks up the exchange time zone through a
get-or-compute cache. It then converts the UTC time of the event to that zone, builds a `Tick`,
and hands the tick to the aggregator.

The test double keeps a plain `HashSet<Symbol>`. Its subscribe and unsubscribe operations are
unfiltered, and a getter returns a snapshot list of the set.

Files:

- `lean_types.dfy`: the LEAN records the handlers use (`Symbol`, `SecurityIdentifier`,
  `SubscriptionDataConfig`, `Tick`, ...).
- `string_extensions.dfy`: `IndexOfInvariant(value, ignoreCase: true)`.
- `alpaca_subscriptions.dfy`: `CanSubscribe` and the subscription batches, written as functions
  over the map and the log of calls to the streaming client. It holds the lemmas about them,
  including the invariant that the open upstream streams are exactly the subscribed values, with
  no redundant call ever issued.
- `alpaca_normalizer.dfy`: the time-zone cache, the two event handlers as functions, and the
  lemmas about streams of events.
- `alpaca_data_queue.dfy`: the class `AlpacaBrokerage`. Its fields are updated in place by the
  imperative methods. Each method is proved against the functions above and keeps `Valid()`.
- `func_data_queue.dfy`: the class `FuncDataQueueHandler`.
- `registry_contrast.dfy`: the Alpaca registry compared with the unfiltered set of the test double.

Collaborators become data:

- The Polygon streaming client is the log `streamCalls`.
- `_aggregator.Update` is the log `aggregatorTicks`.
- The market-hours provider is a constant function field `marketHours`. It gives `None` where
  `GetExchangeHours` throws, and every question put to it is logged in `hoursQueries`.
- NodaTime's `ConvertFromUtc` is a constant function field `convertFromUtc`.

The batch operations take a sequence of symbols, as the code does: an `IEnumerable<Symbol>` that
may repeat a symbol or a value. They do not take a set. The code chains two lazy `Where` filters,
so the test "value not yet a key" runs for each element only when that element's turn comes,
after the earlier elements have been added. The model therefore re-checks the map for every
element. As a result, a value repeated in one batch is subscribed once, and the first eligible
symbol with that value wins.

## Model

| member | source | states |
|---|---|---|
| StringExtensions.IndexOfIgnoreCase | Brokerages/Alpaca/AlpacaBrokerage.DataQueueHandler.cs:110 | -1 exactly when the value occurs nowhere in the string, ignoring case; otherwise the first position where it occurs |
| AlpacaSubscriptions.CanSubscribe | Brokerages/Alpaca/AlpacaBrokerage.DataQueueHandler.cs:104-111 | eligible iff the security type is Equity and "universe" occurs at no position of the value, in any letter case |
| AlpacaSubscriptions.FirstEligibleIndex | Brokerages/Alpaca/AlpacaBrokerage.DataQueueHandler.cs:59-61 | the least position of an eligible symbol with a given value in a batch; -1 iff the value is not among the batch's eligible values |
| AlpacaSubscriptions.SubscribeOne | Brokerages/Alpaca/AlpacaBrokerage.DataQueueHandler.cs:61-69 | one element of a Subscribe batch adds its value as a key exactly when the symbol is eligible (and its value was not yet a key); existing entries keep their symbol; calls are only appended |
| AlpacaSubscriptions.SubscribeBatch | Brokerages/Alpaca/AlpacaBrokerage.DataQueueHandler.cs:57-70 | a Subscribe batch only adds keys and only appends calls; SubscribeBatchKeys, SubscribeBatchEntries and SubscribeBatchCalls state exactly what it adds |
| AlpacaSubscriptions.UniverseValuesNeverSubscribed | Brokerages/Alpaca/AlpacaBrokerage.DataQueueHandler.cs:59-68 | a value containing "universe" in any letter case, not already a key, never becomes a key and gets no SubscribeQuote or SubscribeTrade call, whatever the batch |
| AlpacaSubscriptions.SubscribeBatchEntries | Brokerages/Alpaca/AlpacaBrokerage.DataQueueHandler.cs:57-70 | after Subscribe, a value is a key iff it was one or some eligible symbol of the batch has it; existing entries are never replaced, even by another symbol with the same value; a new entry holds the first eligible symbol of the batch with that value |
| AlpacaSubscriptions.SubscribeBatchKeys | Brokerages/Alpaca/AlpacaBrokerage.DataQueueHandler.cs:57-70 | after Subscribe, the keys are the old keys plus the values of the batch's eligible symbols |
| AlpacaSubscriptions.SubscribeBatchPairs | Brokerages/Alpaca/AlpacaBrokerage.DataQueueHandler.cs:65-66 | Subscribe only appends to the call log, and what it appends is whole (SubscribeQuote(v), SubscribeTrade(v)) pairs, quote first |
| AlpacaSubscriptions.SubscribeBatchCalls | Brokerages/Alpaca/AlpacaBrokerage.DataQueueHandler.cs:59-68 | Subscribe issues SubscribeQuote(v) and SubscribeTrade(v) exactly once each for a value it newly subscribes, and zero times for every other value (already a key, ineligible, or absent) |
| AlpacaSubscriptions.SubscribeBatchUnchanged | Brokerages/Alpaca/AlpacaBrokerage.DataQueueHandler.cs:59-61 | a batch whose eligible values are all keys already issues no call and changes nothing |
| AlpacaSubscriptions.SubscribeBatchIdempotent | Brokerages/Alpaca/AlpacaBrokerage.DataQueueHandler.cs:59 | subscribing the same batch a second time issues no call and changes nothing |
| AlpacaSubscriptions.SubscribeOneValid | Brokerages/Alpaca/AlpacaBrokerage.DataQueueHandler.cs:61-69 | one subscription step keeps the registry invariant: entries are keyed by their own value and eligible; the open quote and trade streams are exactly the keys; no call in the log is redundant |
| AlpacaSubscriptions.SubscribeBatchValid | Brokerages/Alpaca/AlpacaBrokerage.DataQueueHandler.cs:57-70 | a whole Subscribe batch keeps the registry invariant |
| AlpacaSubscriptions.UnsubscribeOne | Brokerages/Alpaca/AlpacaBrokerage.DataQueueHandler.cs:89-98 | one element of an Unsubscribe batch removes exactly its value's entry when the symbol is eligible and nothing otherwise; calls are only appended |
| AlpacaSubscriptions.UnsubscribeBatch | Brokerages/Alpaca/AlpacaBrokerage.DataQueueHandler.cs:85-99 | an Unsubscribe batch only removes entries, never adds or changes one, and only appends calls; UnsubscribeBatchEntries and UnsubscribeBatchCalls state exactly what it removes and calls |
| AlpacaSubscriptions.UnsubscribeBatchEntries | Brokerages/Alpaca/AlpacaBrokerage.DataQueueHandler.cs:85-99 | after Unsubscribe, the map is the old map without the values of the batch's eligible symbols; absent or ineligible symbols change nothing |
| AlpacaSubscriptions.UnsubscribeBatchPairs | Brokerages/Alpaca/AlpacaBrokerage.DataQueueHandler.cs:93-94 | Unsubscribe only appends whole (UnsubscribeQuote(v), UnsubscribeTrade(v)) pairs, quote first |
| AlpacaSubscriptions.UnsubscribeBatchCalls | Brokerages/Alpaca/AlpacaBrokerage.DataQueueHandler.cs:87-98 | Unsubscribe issues UnsubscribeQuote(v) and UnsubscribeTrade(v) exactly once each for a key that an eligible symbol of the batch names, and zero times for every other value |
| AlpacaSubscriptions.UnsubscribeOneValid | Brokerages/Alpaca/AlpacaBrokerage.DataQueueHandler.cs:89-98 | one unsubscription step keeps the registry invariant |
| AlpacaSubscriptions.UnsubscribeBatchValid | Brokerages/Alpaca/AlpacaBrokerage.DataQueueHandler.cs:85-99 | a whole Unsubscribe batch keeps the registry invariant |
| AlpacaSubscriptions.SubscribeThenUnsubscribe | Brokerages/Alpaca/AlpacaBrokerage.DataQueueHandler.cs:57-99 | unsubscribing a batch right after subscribing it removes exactly the batch's eligible values; for a batch of values that were not keys it restores the map |
| AlpacaNormalizer.Resolve | Brokerages/Alpaca/AlpacaBrokerage.DataQueueHandler.cs:125-130 | the lookup gives what the provider gives for a USA equity; a hit asks nothing, a miss asks exactly one question; the cache only grows, never changes an entry, and stays consistent |
| AlpacaNormalizer.OnQuote | Brokerages/Alpaca/AlpacaBrokerage.DataQueueHandler.cs:117-143 | an unsubscribed value is dropped and the cache is left as it was; otherwise a provider failure gives no tick, else one Quote tick with the subscribed symbol, time = ConvertFromUtc(quote time, provider zone), last = bid = BidPrice, ask = AskPrice, both sizes copied |
| AlpacaNormalizer.OnTrade | Brokerages/Alpaca/AlpacaBrokerage.DataQueueHandler.cs:149-172 | an unsubscribed value is dropped and the cache is left as it was; otherwise a provider failure gives no tick, else one Trade tick with last = bid = ask = Price, quantity = Size, time converted with the provider's zone |
| AlpacaNormalizer.QuoteTick | Brokerages/Alpaca/AlpacaBrokerage.DataQueueHandler.cs:135-140 | a quote tick: type Quote, last price equal to the bid, bid and ask prices and sizes from the quote, no quantity |
| AlpacaNormalizer.TradeTick | Brokerages/Alpaca/AlpacaBrokerage.DataQueueHandler.cs:165-169 | a trade tick is a single price point: type Trade, last = bid = ask = the trade price, quantity = the trade size, no sizes |
| AlpacaNormalizer.Handle | Brokerages/Alpaca/AlpacaBrokerage.DataQueueHandler.cs:117-172 | one callback: an unsubscribed value is dropped with the cache untouched; a tick, if any, is for the subscribed symbol; from a consistent cache it emits exactly what the provider read directly gives; the cache stays consistent, only grows, and gains at most one question |
| AlpacaNormalizer.Normalize | Brokerages/Alpaca/AlpacaBrokerage.DataQueueHandler.cs:117-172 | a stream of callbacks gives at most one tick per event, each for a subscribed symbol; the cache only grows, by at most one question per event; NormalizeIsTransparent states which ticks |
| AlpacaNormalizer.NormalizeIsTransparent | Brokerages/Alpaca/AlpacaBrokerage.DataQueueHandler.cs:117-172 | over any stream of events, the ticks handed on are exactly those read off the provider with no cache in between, and the cache stays consistent and only grows |
| AlpacaNormalizer.UnsubscribedEventsIgnored | Brokerages/Alpaca/AlpacaBrokerage.DataQueueHandler.cs:149-152 | events whose values are all unsubscribed (the test at line 152, and at line 120 for quotes) emit no tick and leave the cache untouched |
| AlpacaNormalizer.AskedAtMostOnce | Brokerages/Alpaca/AlpacaBrokerage.DataQueueHandler.cs:126-130 | a consistent cache has asked the provider at most once about each symbol the provider resolves |
| AlpacaNormalizer.AskedAtMostOnceAcrossEvents | Brokerages/Alpaca/AlpacaBrokerage.DataQueueHandler.cs:158-162 | starting from an empty cache, across any number of events the provider is asked at most once about each symbol it resolves |
| AlpacaDataQueue.AlpacaBrokerage.constructor | Brokerages/Alpaca/AlpacaBrokerage.DataQueueHandler.cs:35 | the handler starts with no subscription, no call, an empty cache, and the invariant holding |
| AlpacaDataQueue.AlpacaBrokerage.Subscribe | Brokerages/Alpaca/AlpacaBrokerage.DataQueueHandler.cs:45-51 | an eligible symbol whose value is not a key gets exactly SubscribeQuote then SubscribeTrade and its entry; any other symbol changes nothing; the aggregator's enumerator for the config is returned |
| AlpacaDataQueue.AlpacaBrokerage.SubscribeSymbols | Brokerages/Alpaca/AlpacaBrokerage.DataQueueHandler.cs:57-70 | the loop leaves the map and call log as the per-element fold SubscribeBatch prescribes, and keeps the invariant |
| AlpacaDataQueue.AlpacaBrokerage.Unsubscribe | Brokerages/Alpaca/AlpacaBrokerage.DataQueueHandler.cs:76-79 | an eligible symbol whose value is a key gets exactly UnsubscribeQuote then UnsubscribeTrade, and its value's entry is removed; any other symbol changes nothing |
| AlpacaDataQueue.AlpacaBrokerage.UnsubscribeSymbols | Brokerages/Alpaca/AlpacaBrokerage.DataQueueHandler.cs:85-99 | the loop leaves the map and call log as UnsubscribeBatch prescribes, and keeps the invariant |
| AlpacaDataQueue.AlpacaBrokerage.ResolveExchangeTimeZone | Brokerages/Alpaca/AlpacaBrokerage.DataQueueHandler.cs:157-162 | gives the provider's zone for the symbol, and updates the cache and query log as Resolve prescribes |
| AlpacaDataQueue.AlpacaBrokerage.OnQuoteReceived | Brokerages/Alpaca/AlpacaBrokerage.DataQueueHandler.cs:117-143 | the cache, the aggregator's ticks and the failure flag are as OnQuote prescribes; subscriptions are untouched |
| AlpacaDataQueue.AlpacaBrokerage.OnTradeReceived | Brokerages/Alpaca/AlpacaBrokerage.DataQueueHandler.cs:149-172 | the cache, the aggregator's ticks and the failure flag are as OnTrade prescribes; subscriptions are untouched |
| FuncDataQueue.FuncDataQueueHandler.constructor | Tests/Engine/DataFeeds/FuncDataQueueHandler.cs:35 | the handler starts with an empty set |
| FuncDataQueue.FuncDataQueueHandler.Subscriptions | Tests/Engine/DataFeeds/FuncDataQueueHandler.cs:41-44 | the list holds exactly the subscribed symbols, each once, so its length is the set's size |
| FuncDataQueue.FuncDataQueueHandler.Subscribe | Tests/Engine/DataFeeds/FuncDataQueueHandler.cs:69-74 | the request's security symbol is added to the set and null is returned |
| FuncDataQueue.FuncDataQueueHandler.SubscribeSymbols | Tests/Engine/DataFeeds/FuncDataQueueHandler.cs:81-87 | the new set is the old set plus every given symbol, with no filter; a symbol already present changes nothing |
| FuncDataQueue.FuncDataQueueHandler.Unsubscribe | Tests/Engine/DataFeeds/FuncDataQueueHandler.cs:93-96 | exactly the config's symbol is removed; nothing else changes |
| FuncDataQueue.FuncDataQueueHandler.UnsubscribeSymbols | Tests/Engine/DataFeeds/FuncDataQueueHandler.cs:102-108 | the new set is the old set minus the given symbols; absent symbols change nothing |
| RegistryContrast.FilteredWithinUnfiltered | Brokerages/Alpaca/AlpacaBrokerage.DataQueueHandler.cs:57-70 | every symbol the Alpaca registry holds after a batch was held before or is in the batch, so it is in what the unfiltered set would hold |
| RegistryContrast.FilteredEqualsUnfiltered | Brokerages/Alpaca/AlpacaBrokerage.DataQueueHandler.cs:57-70 | when every symbol of the batch is eligible, new, and alone with its value, the Alpaca registry holds exactly the old symbols plus the batch, as the unfiltered set does |
| RegistryContrast.IneligibleOnlyUnfiltered | Brokerages/Alpaca/AlpacaBrokerage.DataQueueHandler.cs:61 | an ineligible symbol of the batch, new to the registry, is taken in by the unfiltered set but is never the Alpaca entry under its own value; if the registry did not already hold it under another value, no value maps to it after the batch |

## Left out

- Concurrency: the `ConcurrentDictionary` and the `lock (_lock)` of the test double are not
  modelled. Each operation is one atomic sequential step.
- The Polygon client's transport, authentication and failures are left out. Calls to it always
  succeed, so the partial application of a batch after a failed upstream call is not modelled.
- `_aggregator.Add` in `AlpacaDataQueue.AlpacaBrokerage.Subscribe` is left out. Its enumerator is
  stood for by a `DataEnumerator` handle that names the config.
- What the streaming client does with an exception thrown from a handler is not part of this
  model. `OnQuoteReceived`/`OnTradeReceived` report it as `lookupFailed`, and
  `AlpacaNormalizer.Normalize` treats such an event as lost and goes on.
- The market-hours database and NodaTime's `ConvertFromUtc` are not modelled inside. They are
  function parameters; the database gives `None` where it would throw.
- `Log.Trace` calls: diagnostics only.
- The test double's `GetNextTicks`, `IsConnected`, `Dispose`, and the function its constructor
  stores are left out. They are a delegate call, a constant and an empty body.
- Symbol identity is reduced. The model's `SecurityIdentifier` keeps only the ticker, the market
  and the security type. LEAN's identifier also carries a date (listing or expiry), the option
  properties (strike, right, style) and the underlying, and its equality compares all of them.
  Two symbols that differ only there are one symbol in the model. So where LEAN's `HashSet<Symbol>`
  in the test double and the time-zone cache `_symbolExchangeTimeZones` hold two keys, as with a
  reused ticker, the model's `set<Symbol>` and `map<Symbol, TimeZone>` hold one.
- Symbol equality in the model is structural: identifier and value. LEAN's `Symbol.Equals`
  compares only the `SecurityIdentifier`. Two `Symbol` objects can share an identifier and differ
  in `Value`, as after a ticker change. For such a pair, the source's cache hits on the identifier,
  while the model misses and asks the provider again. So `AlpacaNormalizer.AskedAtMostOnce` holds
  per (identifier, value) pair rather than per identifier.
- StringExtensions.IndexOfIgnoreCase folds ASCII letters only. The invariant culture's
  linguistic comparison is not modelled: non-ASCII case pairs and ignorable characters are left out.
- Decimal prices are `real`, only ever copied. Int64 sizes are `int`, converted exactly into the
  tick's decimal fields. The tick's other members (exchange, sale condition, suspicious flag,
  end time) are not modelled.
