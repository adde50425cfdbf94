/**
 * The LEAN engine records that the two data-queue handlers read or build.
 * Only the members the handlers touch are modelled.
 */
module LeanTypes {

  datatype Option<+T> = None | Some(value: T)

  /** LEAN's SecurityType enumeration. */
  datatype SecurityType = Base | Equity | Option | Commodity | Forex | Future | Cfd | Crypto

  /** LEAN's `Market.USA`. */
  const MarketUSA: string := "usa"

  /**
   * A `SecurityIdentifier`, reduced to its ticker, market and security type. LEAN's identifier also
   * packs a date, option properties and an underlying, and its equality compares them too; they are
   * not modelled, so identifiers that differ only there are one identifier here.
   */
  datatype SecurityIdentifier = SecurityIdentifier(symbol: string, market: string, securityType: SecurityType)

  /** A `Symbol`: its identifier `ID` and its display string `Value`. */
  datatype Symbol = Symbol(id: SecurityIdentifier, value: string)

  datatype Security = Security(symbol: Symbol)

  /** The part of a `SubscriptionDataConfig` the handlers read. */
  datatype SubscriptionDataConfig = SubscriptionDataConfig(symbol: Symbol)

  datatype SubscriptionRequest = SubscriptionRequest(security: Security, configuration: SubscriptionDataConfig)

  /** Stands for the `IEnumerator<BaseData>` that a subscription hands back to its caller. */
  datatype DataEnumerator = DataEnumerator(config: SubscriptionDataConfig)

  /** A `DateTime`, as its count of 100-nanosecond ticks. */
  datatype DateTime = DateTime(ticks: int)

  /** A NodaTime `DateTimeZone`, by its identifier (e.g. "America/New_York"). */
  datatype TimeZone = TimeZone(id: string)

  datatype TickType = Trade | Quote | OpenInterest

  /**
   * A LEAN `Tick`. `value` is the last price (`Tick.Value`); decimal prices and sizes are `real`
   * and every field a handler does not set keeps its default of zero.
   */
  datatype Tick = Tick(
    time: DateTime,
    symbol: Symbol,
    tickType: TickType,
    value: real,
    bidPrice: real,
    askPrice: real,
    bidSize: real,
    askSize: real,
    quantity: real)
}
