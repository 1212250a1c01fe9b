/**
 * The quote improver of example2.py (trade_cycle): each cycle it clears its
 * SMALL_CHIPS orders and, when the book leaves room, quotes one lot a tick
 * inside the best bid and the best ask.
 */
module QuoteImprover {
  import opened CommonTypes

  const INSTRUMENT_ID := "SMALL_CHIPS"
  /** How far inside the best prices the new quotes go. */
  const IMPROVEMENT: real := 0.1
  /** The improved quotes must still be more than this far apart. */
  const MIN_GAP: real := 0.01
  const QUOTE_VOLUME: int := 1

  /** The book has a best bid and a best ask. */
  predicate HasTopOfBook(book: Option<PriceBook>) {
    book.Some? && |book.value.bids| > 0 && |book.value.asks| > 0
  }

  /** The improved quotes leave more than MIN_GAP between them. */
  predicate RoomToImprove(book: PriceBook)
    requires |book.bids| > 0 && |book.asks| > 0
  {
    (book.asks[0].price - IMPROVEMENT) - (book.bids[0].price + IMPROVEMENT) > MIN_GAP
  }

  /**
   * One trade_cycle. `tradable` is what get_instruments returned and `book`
   * the last price book read after the delete; the result lists the
   * exchange calls in order. Nothing happens for a missing or paused
   * instrument; otherwise the orders are deleted, and two one-lot quotes
   * follow exactly when the book has both sides and room to improve.
   */
  function TradeCycle(tradable: map<string, Instrument>, book: Option<PriceBook>): (actions: seq<Action>)
    ensures !IsTrading(tradable, INSTRUMENT_ID) <==> actions == []
    ensures IsTrading(tradable, INSTRUMENT_ID) ==> actions[0] == DeleteOrders(INSTRUMENT_ID)
    ensures |actions| == 0 || |actions| == 1 || |actions| == 3
    ensures |actions| == 3 <==>
      IsTrading(tradable, INSTRUMENT_ID) && HasTopOfBook(book) && RoomToImprove(book.value)
    ensures |actions| == 3 ==>
      && actions[1] == Insert(OrderIntent(INSTRUMENT_ID, book.value.bids[0].price + IMPROVEMENT, QUOTE_VOLUME, Bid))
      && actions[2] == Insert(OrderIntent(INSTRUMENT_ID, book.value.asks[0].price - IMPROVEMENT, QUOTE_VOLUME, Ask))
  {
    if INSTRUMENT_ID !in tradable then []
    else if tradable[INSTRUMENT_ID].paused then []
    else
      var deletes := [DeleteOrders(INSTRUMENT_ID)];
      if book.Some? && |book.value.bids| > 0 && |book.value.asks| > 0 then
        var newBidPrice := book.value.bids[0].price + IMPROVEMENT;
        var newAskPrice := book.value.asks[0].price - IMPROVEMENT;
        if newAskPrice - newBidPrice > MIN_GAP then
          deletes + [Insert(OrderIntent(INSTRUMENT_ID, newBidPrice, QUOTE_VOLUME, Bid)),
                     Insert(OrderIntent(INSTRUMENT_ID, newAskPrice, QUOTE_VOLUME, Ask))]
        else deletes
      else deletes
  }

  /**
   * Whenever the cycle quotes, the new bid is above the best bid, the new
   * ask below the best ask, and the two never cross: the bid stays more
   * than MIN_GAP below the ask.
   */
  lemma QuotesImproveWithoutCrossing(tradable: map<string, Instrument>, book: Option<PriceBook>)
    requires |TradeCycle(tradable, book)| == 3
    ensures var actions := TradeCycle(tradable, book);
      && actions[1].Insert? && actions[2].Insert?
      && book.value.bids[0].price < actions[1].order.price
      && actions[2].order.price < book.value.asks[0].price
      && actions[1].order.price + MIN_GAP < actions[2].order.price
  {
  }

  /**
   * The quotes go in only when the best prices are more than
   * 2 * IMPROVEMENT + MIN_GAP = 0.21 apart; a crossed, locked or
   * tighter book only has its orders deleted.
   */
  lemma QuotesNeedSpreadAboveTwentyOneCents(tradable: map<string, Instrument>, book: PriceBook)
    requires IsTrading(tradable, INSTRUMENT_ID) && |book.bids| > 0 && |book.asks| > 0
    ensures |TradeCycle(tradable, Some(book))| == 3 <==> book.asks[0].price - book.bids[0].price > 0.21
    ensures book.asks[0].price - book.bids[0].price <= 0.21 ==>
      TradeCycle(tradable, Some(book)) == [DeleteOrders(INSTRUMENT_ID)]
  {
  }

  /** Best bid 90 and best ask 91: the cycle quotes 90.1 and 90.9. */
  lemma ImproveScenario(tradable: map<string, Instrument>, book: PriceBook)
    requires IsTrading(tradable, INSTRUMENT_ID)
    requires |book.bids| > 0 && |book.asks| > 0 && book.bids[0].price == 90.0 && book.asks[0].price == 91.0
    ensures TradeCycle(tradable, Some(book)) == [
      DeleteOrders(INSTRUMENT_ID),
      Insert(OrderIntent(INSTRUMENT_ID, 90.1, 1, Bid)),
      Insert(OrderIntent(INSTRUMENT_ID, 90.9, 1, Ask))]
  {
  }
}
