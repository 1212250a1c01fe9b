/**
 * Data shapes of the exchange client (optibook/common_types.py) that the
 * quoting engine, the instrument validator and the quote improver read,
 * plus the order intents they emit instead of calling the exchange.
 */
module CommonTypes {

  datatype Option<T> = None | Some(value: T)

  /** A price level of a book side. */
  datatype PriceVolume = PriceVolume(price: real, volume: nat)

  /** A book snapshot: bids best (highest) first, asks best (lowest) first. */
  datatype PriceBook = PriceBook(instrumentId: string, bids: seq<PriceVolume>, asks: seq<PriceVolume>)

  /**
   * A trade as the engine sees it: an own fill (Trade) or a public trade tick
   * (TradeTick). Only the fields the engine reads are kept.
   */
  datatype Fill = Fill(tradeId: int, instrumentId: string, price: real, volume: nat)

  datatype InstrumentType =
    | STOCK | STOCK_OPTION | STOCK_FUTURE | INDEX_TRACKING_ETF | INDEX_OPTION | INDEX_FUTURE

  datatype OptionKind = PUT | CALL

  /**
   * The value of `instrument_type` after parsing: an enum member, or the raw
   * name when the enum lookup failed and the string was left in place.
   * Enum members are always truthy; a raw name is truthy when non-empty.
   */
  datatype TypeTag = Known(kind: InstrumentType) | UnparsedType(name: string)

  /** The value of `option_kind`, with the same two possibilities. */
  datatype KindTag = Kind(kind: OptionKind) | UnparsedKind(name: string)

  datatype PriceChangeLimit = PriceChangeLimit(absoluteChange: real, relativeChange: real)

  /**
   * An instrument definition. Optional fields are Option; an expiry is a
   * timestamp in seconds. The untyped `parameters` dictionary is not kept.
   */
  datatype Instrument = Instrument(
    instrumentId: string,
    tickSize: real,
    instrumentType: Option<TypeTag>,
    priceChangeLimit: Option<PriceChangeLimit>,
    expiry: Option<int>,
    optionKind: Option<KindTag>,
    strike: Option<real>,
    baseInstrumentId: Option<string>,
    interestRate: Option<real>,
    indexId: Option<real>,
    indexConstituents: Option<map<string, real>>,
    indexDivisor: Option<real>,
    indexVolatility: Option<real>,
    etfCashComp: Option<real>,
    etfMultiplier: Option<real>,
    instrumentGroup: Option<string>,
    paused: bool)

  /** The exchange's order side (SIDE_BID / SIDE_ASK). */
  datatype Side = Bid | Ask

  /** A limit order the engine asks the exchange to insert. */
  datatype OrderIntent = OrderIntent(instrumentId: string, price: real, volume: int, side: Side)

  /** One call into the exchange's order interface. */
  datatype Action = DeleteOrders(instrumentId: string) | Insert(order: OrderIntent)

  /** The instrument is listed and not paused (bot.py's is_trading flag). */
  predicate IsTrading(tradable: map<string, Instrument>, instrumentId: string) {
    instrumentId in tradable && !tradable[instrumentId].paused
  }
}
