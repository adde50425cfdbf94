/**
 * The event normaliser of the Alpaca data-queue handler: `OnQuoteReceived` and `OnTradeReceived`
 * drop events for values that are not subscribed, resolve the symbol's exchange time zone through
 * the get-or-compute cache `_symbolExchangeTimeZones`, and build one `Tick` per event.
 *
 * The market-hours provider is a function that gives `None` where `GetExchangeHours` throws, and
 * every question put to it is logged, so that "asked at most once per symbol" can be stated.
 */
module AlpacaNormalizer {
  import opened LeanTypes

  /** An `IStreamQuote`: decimal prices, Int64 sizes, a UTC time. */
  datatype StreamQuote = StreamQuote(symbol: string, time: DateTime, bidPrice: real, askPrice: real, bidSize: int, askSize: int)

  /** An `IStreamTrade`: decimal price, Int64 size, a UTC time. */
  datatype StreamTrade = StreamTrade(symbol: string, time: DateTime, price: real, size: int)

  /** A callback delivered by the streaming client. */
  datatype StreamEvent = QuoteReceived(quote: StreamQuote) | TradeReceived(trade: StreamTrade)

  /** `_marketHours.GetExchangeHours(market, symbol, securityType).TimeZone`; `None` where it throws. */
  type ExchangeHoursProvider = (string, Symbol, SecurityType) -> Option<TimeZone>

  /** NodaTime's `ConvertFromUtc(time, zone)`. */
  type UtcConverter = (DateTime, TimeZone) -> DateTime

  /** One question put to the market-hours provider. */
  datatype HoursQuery = HoursQuery(market: string, symbol: Symbol, securityType: SecurityType)

  /** `_symbolExchangeTimeZones`, with the questions put to the provider so far. */
  datatype ZoneCache = ZoneCache(zones: map<Symbol, TimeZone>, queries: seq<HoursQuery>)

  /** The zone the provider gives `symbol`: the handlers always ask about a USA equity. */
  function ExchangeZone(hours: ExchangeHoursProvider, symbol: Symbol): Option<TimeZone>
  {
    hours(MarketUSA, symbol, Equity)
  }

  /**
   * The cache holds only what the provider answers; every question is about a USA equity; every
   * symbol the provider resolved is cached; and a symbol the provider resolves was never asked
   * about twice.
   */
  ghost predicate CacheValid(c: ZoneCache, hours: ExchangeHoursProvider)
  {
    && (forall s :: s in c.zones ==> ExchangeZone(hours, s) == Some(c.zones[s]))
    && (forall i :: 0 <= i < |c.queries| ==> c.queries[i] == HoursQuery(MarketUSA, c.queries[i].symbol, Equity))
    && (forall i :: 0 <= i < |c.queries| && ExchangeZone(hours, c.queries[i].symbol).Some? ==>
          c.queries[i].symbol in c.zones)
    && (forall i, j :: 0 <= i < j < |c.queries| && c.queries[i].symbol == c.queries[j].symbol ==>
          ExchangeZone(hours, c.queries[i].symbol).None?)
  }

  /** A cache with a subset of the keys of `c'`, holding the same zone for each. */
  ghost predicate Grows(c: ZoneCache, c': ZoneCache)
  {
    && c.zones.Keys <= c'.zones.Keys
    && (forall s :: s in c.zones ==> c'.zones[s] == c.zones[s])
    && c.queries <= c'.queries
  }

  datatype Resolution = Resolution(zone: Option<TimeZone>, cache: ZoneCache)

  /**
   * The get-or-compute lookup of a symbol's exchange time zone. It gives what the provider would
   * give, asks the provider only on a miss, and stores a resolved zone; nothing is ever evicted.
   */
  function Resolve(c: ZoneCache, hours: ExchangeHoursProvider, symbol: Symbol): (r: Resolution)
    ensures CacheValid(c, hours) ==> r.zone == ExchangeZone(hours, symbol) && CacheValid(r.cache, hours)
    ensures Grows(c, r.cache)
    ensures r.cache.zones.Keys <= c.zones.Keys + {symbol}
    ensures symbol in c.zones ==> r.cache == c
    ensures symbol !in c.zones ==> r.cache.queries == c.queries + [HoursQuery(MarketUSA, symbol, Equity)]
  {
    if symbol in c.zones then Resolution(Some(c.zones[symbol]), c)
    else
      var queries := c.queries + [HoursQuery(MarketUSA, symbol, Equity)];
      match ExchangeZone(hours, symbol)
      case None => Resolution(None, ZoneCache(c.zones, queries))
      case Some(zone) => Resolution(Some(zone), ZoneCache(c.zones[symbol := zone], queries))
  }

  /**
   * `new Tick(time, symbol, bidPrice, bidPrice, askPrice) { TickType = Quote, BidSize, AskSize }`:
   * a quote tick whose last price is its bid, with both sides' prices and sizes and no quantity.
   */
  function QuoteTick(quote: StreamQuote, symbol: Symbol, time: DateTime): (t: Tick)
    ensures t.tickType == Quote && t.symbol == symbol && t.time == time
    ensures t.value == t.bidPrice == quote.bidPrice && t.askPrice == quote.askPrice
    ensures t.bidSize == quote.bidSize as real && t.askSize == quote.askSize as real
    ensures t.quantity == 0.0
  {
    Tick(time, symbol, Quote, quote.bidPrice, quote.bidPrice, quote.askPrice,
         quote.bidSize as real, quote.askSize as real, 0.0)
  }

  /**
   * `new Tick(time, symbol, price, price, price) { TickType = Trade, Quantity = size }`: a trade
   * tick is a single price point (last, bid and ask agree) carrying the trade size as quantity.
   */
  function TradeTick(trade: StreamTrade, symbol: Symbol, time: DateTime): (t: Tick)
    ensures t.tickType == Trade && t.symbol == symbol && t.time == time
    ensures t.value == t.bidPrice == t.askPrice == trade.price
    ensures t.quantity == trade.size as real && t.bidSize == 0.0 && t.askSize == 0.0
  {
    Tick(time, symbol, Trade, trade.price, trade.price, trade.price, 0.0, 0.0, trade.size as real)
  }

  function EventSymbol(e: StreamEvent): string
  {
    match e
    case QuoteReceived(q) => q.symbol
    case TradeReceived(t) => t.symbol
  }

  /** What became of one event: dropped as unsubscribed, lost to a provider failure, or a tick. */
  datatype Handled = Dropped | Unresolved | Emitted(tick: Tick)

  datatype Outcome = Outcome(handled: Handled, cache: ZoneCache)

  /**
   * `OnQuoteReceived`. An unsubscribed value is dropped without touching the cache; otherwise the
   * tick carries the subscribed symbol, the quote's time converted to the provider's zone for it,
   * the bid price as both last and bid, the ask price, and both sizes.
   */
  function OnQuote(subscribed: map<string, Symbol>, c: ZoneCache, hours: ExchangeHoursProvider,
                   convert: UtcConverter, quote: StreamQuote): (o: Outcome)
    ensures quote.symbol !in subscribed ==> o == Outcome(Dropped, c)
    ensures quote.symbol in subscribed && CacheValid(c, hours) ==>
      var symbol := subscribed[quote.symbol];
      var zone := ExchangeZone(hours, symbol);
      && (zone.None? ==> o.handled == Unresolved)
      && (zone.Some? ==>
            o.handled.Emitted? &&
            var t := o.handled.tick;
            (&& t.tickType == Quote && t.symbol == symbol
            && t.time == convert(quote.time, zone.value)
            && t.value == quote.bidPrice && t.bidPrice == quote.bidPrice && t.askPrice == quote.askPrice
            && t.bidSize == quote.bidSize as real && t.askSize == quote.askSize as real
            && t.quantity == 0.0))
    ensures CacheValid(c, hours) ==> CacheValid(o.cache, hours)
    ensures Grows(c, o.cache)
  {
    if quote.symbol !in subscribed then Outcome(Dropped, c)
    else
      var symbol := subscribed[quote.symbol];
      var r := Resolve(c, hours, symbol);
      match r.zone
      case None => Outcome(Unresolved, r.cache)
      case Some(zone) => Outcome(Emitted(QuoteTick(quote, symbol, convert(quote.time, zone))), r.cache)
  }

  /**
   * `OnTradeReceived`. An unsubscribed value is dropped without touching the cache; otherwise the
   * tick carries the subscribed symbol, the trade's time converted to the provider's zone for it,
   * the trade price as last, bid and ask, and the trade size as quantity.
   */
  function OnTrade(subscribed: map<string, Symbol>, c: ZoneCache, hours: ExchangeHoursProvider,
                   convert: UtcConverter, trade: StreamTrade): (o: Outcome)
    ensures trade.symbol !in subscribed ==> o == Outcome(Dropped, c)
    ensures trade.symbol in subscribed && CacheValid(c, hours) ==>
      var symbol := subscribed[trade.symbol];
      var zone := ExchangeZone(hours, symbol);
      && (zone.None? ==> o.handled == Unresolved)
      && (zone.Some? ==>
            o.handled.Emitted? &&
            var t := o.handled.tick;
            (&& t.tickType == Trade && t.symbol == symbol
            && t.time == convert(trade.time, zone.value)
            && t.value == trade.price && t.bidPrice == trade.price && t.askPrice == trade.price
            && t.quantity == trade.size as real
            && t.bidSize == 0.0 && t.askSize == 0.0))
    ensures CacheValid(c, hours) ==> CacheValid(o.cache, hours)
    ensures Grows(c, o.cache)
  {
    if trade.symbol !in subscribed then Outcome(Dropped, c)
    else
      var symbol := subscribed[trade.symbol];
      var r := Resolve(c, hours, symbol);
      match r.zone
      case None => Outcome(Unresolved, r.cache)
      case Some(zone) => Outcome(Emitted(TradeTick(trade, symbol, convert(trade.time, zone))), r.cache)
  }

  function Handle(subscribed: map<string, Symbol>, c: ZoneCache, hours: ExchangeHoursProvider,
                  convert: UtcConverter, e: StreamEvent): (o: Outcome)
    ensures EventSymbol(e) !in subscribed ==> o == Outcome(Dropped, c)
    ensures o.handled.Emitted? ==> EventSymbol(e) in subscribed && o.handled.tick.symbol == subscribed[EventSymbol(e)]
    ensures CacheValid(c, hours) ==>
      (if o.handled.Emitted? then [o.handled.tick] else []) == ExpectedEmission(subscribed, hours, convert, e)
    ensures CacheValid(c, hours) ==> CacheValid(o.cache, hours)
    ensures Grows(c, o.cache)
    ensures |o.cache.queries| <= |c.queries| + 1
  {
    match e
    case QuoteReceived(q) => OnQuote(subscribed, c, hours, convert, q)
    case TradeReceived(t) => OnTrade(subscribed, c, hours, convert, t)
  }

  // ---------------------------------------------------------------------------------------------
  // A stream of events

  datatype Normalized = Normalized(ticks: seq<Tick>, cache: ZoneCache)

  /**
   * The ticks handed to the aggregator, and the cache, after the events arrive in order: at most
   * one tick per event, each for a subscribed symbol; the cache only grows, by at most one
   * question per event.
   */
  function Normalize(subscribed: map<string, Symbol>, c: ZoneCache, hours: ExchangeHoursProvider,
                     convert: UtcConverter, events: seq<StreamEvent>): (n: Normalized)
    ensures |n.ticks| <= |events|
    ensures forall i :: 0 <= i < |n.ticks| ==> n.ticks[i].symbol in subscribed.Values
    ensures Grows(c, n.cache)
    ensures |n.cache.queries| <= |c.queries| + |events|
    decreases |events|
  {
    if events == [] then Normalized([], c)
    else
      var before := Normalize(subscribed, c, hours, convert, events[..|events| - 1]);
      var o := Handle(subscribed, before.cache, hours, convert, events[|events| - 1]);
      Normalized(before.ticks + (if o.handled.Emitted? then [o.handled.tick] else []), o.cache)
  }

  /** The tick an event should give, read off the provider directly, with no cache in between. */
  function ExpectedEmission(subscribed: map<string, Symbol>, hours: ExchangeHoursProvider,
                        convert: UtcConverter, e: StreamEvent): seq<Tick>
  {
    if EventSymbol(e) !in subscribed then []
    else
      var symbol := subscribed[EventSymbol(e)];
      match ExchangeZone(hours, symbol)
      case None => []
      case Some(zone) =>
        match e
        case QuoteReceived(q) => [QuoteTick(q, symbol, convert(q.time, zone))]
        case TradeReceived(t) => [TradeTick(t, symbol, convert(t.time, zone))]
  }

  function ExpectedTicks(subscribed: map<string, Symbol>, hours: ExchangeHoursProvider,
                         convert: UtcConverter, events: seq<StreamEvent>): seq<Tick>
  {
    if events == [] then []
    else ExpectedTicks(subscribed, hours, convert, events[..|events| - 1]) +
         ExpectedEmission(subscribed, hours, convert, events[|events| - 1])
  }

  /**
   * The cache is invisible in the output: from a consistent cache, a stream of events gives
   * exactly the ticks read off the provider directly, and leaves a consistent, larger cache.
   */
  lemma {:induction false} NormalizeIsTransparent(subscribed: map<string, Symbol>, c: ZoneCache,
                                                  hours: ExchangeHoursProvider, convert: UtcConverter,
                                                  events: seq<StreamEvent>)
    requires CacheValid(c, hours)
    ensures Normalize(subscribed, c, hours, convert, events).ticks == ExpectedTicks(subscribed, hours, convert, events)
    ensures CacheValid(Normalize(subscribed, c, hours, convert, events).cache, hours)
    ensures Grows(c, Normalize(subscribed, c, hours, convert, events).cache)
    decreases |events|
  {
    if events != [] {
      var prefix := events[..|events| - 1];
      NormalizeIsTransparent(subscribed, c, hours, convert, prefix);
      var before := Normalize(subscribed, c, hours, convert, prefix);
      var o := Handle(subscribed, before.cache, hours, convert, events[|events| - 1]);
      assert Grows(before.cache, o.cache);
    }
  }

  /** Events whose values are all unsubscribed emit no tick and leave the cache as it was. */
  lemma {:induction false} UnsubscribedEventsIgnored(subscribed: map<string, Symbol>, c: ZoneCache,
                                                     hours: ExchangeHoursProvider, convert: UtcConverter,
                                                     events: seq<StreamEvent>)
    requires forall i :: 0 <= i < |events| ==> EventSymbol(events[i]) !in subscribed
    ensures Normalize(subscribed, c, hours, convert, events) == Normalized([], c)
    decreases |events|
  {
    if events != [] {
      UnsubscribedEventsIgnored(subscribed, c, hours, convert, events[..|events| - 1]);
    }
  }

  /** How many of the questions were about `symbol`. */
  function QueriesAbout(queries: seq<HoursQuery>, symbol: Symbol): nat
  {
    if queries == [] then 0
    else (if queries[0].symbol == symbol then 1 else 0) + QueriesAbout(queries[1..], symbol)
  }

  /** A consistent cache has asked the provider about a symbol it resolves at most once. */
  lemma AskedAtMostOnce(c: ZoneCache, hours: ExchangeHoursProvider, symbol: Symbol)
    requires CacheValid(c, hours)
    requires ExchangeZone(hours, symbol).Some?
    ensures QueriesAbout(c.queries, symbol) <= 1
  {
    AtMostOnceFrom(c.queries, hours, symbol);
  }

  /** Across any stream of events, the provider is asked at most once about each symbol it resolves. */
  lemma AskedAtMostOnceAcrossEvents(subscribed: map<string, Symbol>, hours: ExchangeHoursProvider,
                                    convert: UtcConverter, events: seq<StreamEvent>, symbol: Symbol)
    requires ExchangeZone(hours, symbol).Some?
    ensures QueriesAbout(Normalize(subscribed, ZoneCache(map[], []), hours, convert, events).cache.queries, symbol) <= 1
  {
    NormalizeIsTransparent(subscribed, ZoneCache(map[], []), hours, convert, events);
    AskedAtMostOnce(Normalize(subscribed, ZoneCache(map[], []), hours, convert, events).cache, hours, symbol);
  }

  lemma {:induction false} AtMostOnceFrom(queries: seq<HoursQuery>, hours: ExchangeHoursProvider, symbol: Symbol)
    requires ExchangeZone(hours, symbol).Some?
    requires forall i, j :: 0 <= i < j < |queries| && queries[i].symbol == queries[j].symbol ==>
      ExchangeZone(hours, queries[i].symbol).None?
    ensures QueriesAbout(queries, symbol) <= 1
    decreases |queries|
  {
    if queries != [] {
      var rest := queries[1..];
      if queries[0].symbol == symbol {
        NeverAsked(rest, symbol);
      } else {
        AtMostOnceFrom(rest, hours, symbol);
      }
    }
  }

  lemma {:induction false} NeverAsked(queries: seq<HoursQuery>, symbol: Symbol)
    requires forall i :: 0 <= i < |queries| ==> queries[i].symbol != symbol
    ensures QueriesAbout(queries, symbol) == 0
    decreases |queries|
  {
    if queries != [] {
      NeverAsked(queries[1..], symbol);
    }
  }
}
