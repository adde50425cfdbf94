/**
 * `AlpacaBrokerage` as an `IDataQueueHandler`: the subscription map and the exchange time-zone
 * cache it updates in place, the calls it makes to the Polygon streaming client, and the ticks
 * it hands to the aggregator. Each method is proved against the functions of AlpacaSubscriptions
 * and AlpacaNormalizer, whose properties are proved there.
 */
module AlpacaDataQueue {
  import opened LeanTypes
  import opened AlpacaSubscriptions
  import opened AlpacaNormalizer

  class AlpacaBrokerage {
    /** `_subscribedSymbols`: symbol `Value` to `Symbol`. */
    var subscribedSymbols: map<string, Symbol>
    /** The calls made to `_polygonStreamingClient`, in order. */
    var streamCalls: seq<StreamCall>
    /** `_symbolExchangeTimeZones`. */
    var symbolExchangeTimeZones: map<Symbol, TimeZone>
    /** The questions put to `_marketHours`, in order. */
    var hoursQueries: seq<HoursQuery>
    /** The ticks handed to `_aggregator.Update`, in order. */
    var aggregatorTicks: seq<Tick>

    /** `_marketHours`, the exchange-hours provider. */
    const marketHours: ExchangeHoursProvider
    /** NodaTime's `ConvertFromUtc`. */
    const convertFromUtc: UtcConverter

    function RegistryState(): Registry
      reads this
    {
      Registry(subscribedSymbols, streamCalls)
    }

    function Zones(): ZoneCache
      reads this
    {
      ZoneCache(symbolExchangeTimeZones, hoursQueries)
    }

    ghost predicate Valid()
      reads this
    {
      RegistryValid(RegistryState()) && CacheValid(Zones(), marketHours)
    }

    constructor (marketHours: ExchangeHoursProvider, convertFromUtc: UtcConverter)
      ensures Valid()
      ensures this.marketHours == marketHours && this.convertFromUtc == convertFromUtc
      ensures subscribedSymbols == map[] && streamCalls == []
      ensures symbolExchangeTimeZones == map[] && hoursQueries == [] && aggregatorTicks == []
    {
      this.marketHours := marketHours;
      this.convertFromUtc := convertFromUtc;
      subscribedSymbols := map[];
      streamCalls := [];
      symbolExchangeTimeZones := map[];
      hoursQueries := [];
      aggregatorTicks := [];
    }

    /**
     * `Subscribe(SubscriptionDataConfig, EventHandler)`: subscribes the config's symbol, then
     * returns the aggregator's enumerator for the config.
     */
    method Subscribe(dataConfig: SubscriptionDataConfig) returns (enumerator: DataEnumerator)
      requires Valid()
      modifies this
      ensures Valid()
      ensures var s := dataConfig.symbol;
        if s.value !in old(subscribedSymbols) && CanSubscribe(s) then
          && subscribedSymbols == old(subscribedSymbols)[s.value := s]
          && streamCalls == old(streamCalls) + [SubscribeQuote(s.value), SubscribeTrade(s.value)]
        else
          subscribedSymbols == old(subscribedSymbols) && streamCalls == old(streamCalls)
      ensures Zones() == old(Zones()) && aggregatorTicks == old(aggregatorTicks)
      ensures enumerator == DataEnumerator(dataConfig)
    {
      SubscribeSymbols([dataConfig.symbol]);
      enumerator := DataEnumerator(dataConfig);
    }

    /**
     * `Subscribe(IEnumerable<Symbol>)`: each symbol whose value is not yet a key (checked when the
     * symbol's turn comes) and that is eligible gets a quote then a trade subscription, then its entry.
     */
    method SubscribeSymbols(symbols: seq<Symbol>)
      requires Valid()
      modifies this
      ensures Valid()
      ensures RegistryState() == SubscribeBatch(old(RegistryState()), symbols)
      ensures Zones() == old(Zones()) && aggregatorTicks == old(aggregatorTicks)
    {
      var i := 0;
      while i < |symbols|
        invariant 0 <= i <= |symbols|
        invariant Valid()
        invariant SubscribeBatch(RegistryState(), symbols[i..]) == SubscribeBatch(old(RegistryState()), symbols)
        invariant Zones() == old(Zones()) && aggregatorTicks == old(aggregatorTicks)
      {
        var symbol := symbols[i];
        ghost var before := RegistryState();
        if symbol.value !in subscribedSymbols && CanSubscribe(symbol) {
          streamCalls := streamCalls + [SubscribeQuote(symbol.value)];
          streamCalls := streamCalls + [SubscribeTrade(symbol.value)];
          subscribedSymbols := subscribedSymbols[symbol.value := symbol];
        }
        assert RegistryState() == SubscribeOne(before, symbol);
        SubscribeOneValid(before, symbol);
        assert symbols[i..][1..] == symbols[i + 1..];
        i := i + 1;
      }
    }

    /** `Unsubscribe(SubscriptionDataConfig)`: unsubscribes the config's symbol. */
    method Unsubscribe(dataConfig: SubscriptionDataConfig)
      requires Valid()
      modifies this
      ensures Valid()
      ensures var s := dataConfig.symbol;
        if s.value in old(subscribedSymbols) && CanSubscribe(s) then
          && subscribedSymbols == old(subscribedSymbols) - {s.value}
          && streamCalls == old(streamCalls) + [UnsubscribeQuote(s.value), UnsubscribeTrade(s.value)]
        else
          subscribedSymbols == old(subscribedSymbols) && streamCalls == old(streamCalls)
      ensures Zones() == old(Zones()) && aggregatorTicks == old(aggregatorTicks)
    {
      UnsubscribeSymbols([dataConfig.symbol]);
    }

    /**
     * `Unsubscribe(IEnumerable<Symbol>)`: each symbol whose value is a key (checked when the
     * symbol's turn comes) and that is eligible gets a quote then a trade unsubscription, then
     * its value's entry is removed.
     */
    method UnsubscribeSymbols(symbols: seq<Symbol>)
      requires Valid()
      modifies this
      ensures Valid()
      ensures RegistryState() == UnsubscribeBatch(old(RegistryState()), symbols)
      ensures Zones() == old(Zones()) && aggregatorTicks == old(aggregatorTicks)
    {
      var i := 0;
      while i < |symbols|
        invariant 0 <= i <= |symbols|
        invariant Valid()
        invariant UnsubscribeBatch(RegistryState(), symbols[i..]) == UnsubscribeBatch(old(RegistryState()), symbols)
        invariant Zones() == old(Zones()) && aggregatorTicks == old(aggregatorTicks)
      {
        var symbol := symbols[i];
        ghost var before := RegistryState();
        if symbol.value in subscribedSymbols && CanSubscribe(symbol) {
          streamCalls := streamCalls + [UnsubscribeQuote(symbol.value)];
          streamCalls := streamCalls + [UnsubscribeTrade(symbol.value)];
          subscribedSymbols := subscribedSymbols - {symbol.value};
        }
        assert RegistryState() == UnsubscribeOne(before, symbol);
        UnsubscribeOneValid(before, symbol);
        assert symbols[i..][1..] == symbols[i + 1..];
        i := i + 1;
      }
    }

    /**
     * The get-or-compute lookup both handlers run: the cached zone, or the provider's answer for
     * a USA equity, stored when there is one. `None` stands for the provider's exception.
     */
    method ResolveExchangeTimeZone(symbol: Symbol) returns (zone: Option<TimeZone>)
      requires Valid()
      modifies this
      ensures Valid()
      ensures Resolution(zone, Zones()) == Resolve(old(Zones()), marketHours, symbol)
      ensures zone == ExchangeZone(marketHours, symbol)
      ensures RegistryState() == old(RegistryState()) && aggregatorTicks == old(aggregatorTicks)
    {
      if symbol in symbolExchangeTimeZones {
        zone := Some(symbolExchangeTimeZones[symbol]);
      } else {
        hoursQueries := hoursQueries + [HoursQuery(MarketUSA, symbol, Equity)];
        zone := marketHours(MarketUSA, symbol, Equity);
        if zone.Some? {
          symbolExchangeTimeZones := symbolExchangeTimeZones[symbol := zone.value];
        }
      }
    }

    /**
     * `OnQuoteReceived`. `lookupFailed` stands for the exception the provider's lookup lets
     * escape; it is false for a dropped event and for an emitted tick.
     */
    method OnQuoteReceived(quote: StreamQuote) returns (lookupFailed: bool)
      requires Valid()
      modifies this
      ensures Valid()
      ensures var o := OnQuote(old(subscribedSymbols), old(Zones()), marketHours, convertFromUtc, quote);
        && Zones() == o.cache
        && aggregatorTicks == old(aggregatorTicks) + (if o.handled.Emitted? then [o.handled.tick] else [])
        && lookupFailed == o.handled.Unresolved?
      ensures RegistryState() == old(RegistryState())
    {
      lookupFailed := false;
      if quote.symbol !in subscribedSymbols {
        return;
      }
      var symbol := subscribedSymbols[quote.symbol];
      var time := quote.time;
      var zone := ResolveExchangeTimeZone(symbol);
      if zone.None? {
        lookupFailed := true;
        return;
      }
      time := convertFromUtc(time, zone.value);
      var bidPrice := quote.bidPrice;
      var askPrice := quote.askPrice;
      var tick := Tick(time, symbol, Quote, bidPrice, bidPrice, askPrice,
                       quote.bidSize as real, quote.askSize as real, 0.0);
      aggregatorTicks := aggregatorTicks + [tick];
    }

    /**
     * `OnTradeReceived`. `lookupFailed` stands for the exception the provider's lookup lets
     * escape; it is false for a dropped event and for an emitted tick.
     */
    method OnTradeReceived(trade: StreamTrade) returns (lookupFailed: bool)
      requires Valid()
      modifies this
      ensures Valid()
      ensures var o := OnTrade(old(subscribedSymbols), old(Zones()), marketHours, convertFromUtc, trade);
        && Zones() == o.cache
        && aggregatorTicks == old(aggregatorTicks) + (if o.handled.Emitted? then [o.handled.tick] else [])
        && lookupFailed == o.handled.Unresolved?
      ensures RegistryState() == old(RegistryState())
    {
      lookupFailed := false;
      if trade.symbol !in subscribedSymbols {
        return;
      }
      var symbol := subscribedSymbols[trade.symbol];
      var time := trade.time;
      var zone := ResolveExchangeTimeZone(symbol);
      if zone.None? {
        lookupFailed := true;
        return;
      }
      time := convertFromUtc(time, zone.value);
      var tick := Tick(time, symbol, Trade, trade.price, trade.price, trade.price,
                       0.0, 0.0, trade.size as real);
      aggregatorTicks := aggregatorTicks + [tick];
    }
  }
}
