/**
 * The quoting engine of bot.py (class TradingAlgorithm).
 *
 * Each cycle the engine moves its fair-value estimate `theo` and the band
 * half-width `margin` with this cycle's own fills and public trades, keeps
 * running statistics of SMALL_CHIPS trade prices, and then emits a
 * four-level ladder on SMALL_CHIPS_NEW_COUNTRY and at most one
 * inventory-reducing order on SMALL_CHIPS. Exchange calls become the
 * `Action`s a method returns; what the exchange reports becomes a `Snapshot`.
 */
module Bot {
  import opened CommonTypes

  const LEVEL: real := 0.1
  const OWN_WEIGHT: real := 0.03
  const OTHER_INSIDE_WEIGHT: real := 0.001
  const OTHER_OUTSIDE_WEIGHT: real := 0.0003
  const MARGIN_FLOOR: real := 0.05
  /** The ladder starts this far outside the band before rounding. */
  const START_BUFFER: real := 0.05
  /** The price used for a missing best ask. */
  const EMPTY_ASK_EDGE: real := 10000000.0
  const MIN_SAMPLES: nat := 20
  const MAX_PARTIAL_VOLUME: int := 10

  const NEW_COUNTRY := "SMALL_CHIPS_NEW_COUNTRY"
  const SMALL_CHIPS := "SMALL_CHIPS"

  function Min(a: real, b: real): real { if a <= b then a else b }
  function Max(a: real, b: real): real { if a >= b then a else b }
  function MinInt(a: int, b: int): int { if a <= b then a else b }

  // =====================================================================
  // Estimator: the (theo, margin) band
  // =====================================================================

  datatype Band = Band(theo: real, margin: real) {
    function Left(): real { theo - margin }
    function Right(): real { theo + margin }
  }

  /**
   * compute_market_book: theo is the average of the best ask and best bid
   * prices weighted by their own volumes; margin is half the spread.
   */
  function InitialBand(ask: PriceVolume, bid: PriceVolume): (r: Band)
    requires ask.volume + bid.volume > 0
    ensures 2.0 * r.margin == ask.price - bid.price
    ensures bid.price <= ask.price ==> bid.price <= r.theo <= ask.price
    ensures bid.price < ask.price && ask.volume > 0 && bid.volume > 0 ==> bid.price < r.theo < ask.price
    ensures ask.volume == bid.volume ==> 2.0 * r.theo == ask.price + bid.price
  {
    var va, vb := ask.volume as real, bid.volume as real;
    var theo := (ask.price * va + bid.price * vb) / (vb + va);
    WeightedAverageBetween(bid.price, vb, ask.price, va, theo);
    Band(theo, (ask.price - bid.price) / 2.0)
  }

  lemma WeightedAverageBetween(lo: real, wlo: real, hi: real, whi: real, avg: real)
    requires wlo >= 0.0 && whi >= 0.0 && wlo + whi > 0.0
    requires avg == (hi * whi + lo * wlo) / (wlo + whi)
    ensures lo <= hi ==> lo <= avg <= hi
    ensures lo < hi && wlo > 0.0 && whi > 0.0 ==> lo < avg < hi
    ensures wlo == whi ==> 2.0 * avg == lo + hi
  {
    var total := wlo + whi;
    assert avg * total == hi * whi + lo * wlo;
    assert (avg - lo) * total == whi * (hi - lo);
    assert (hi - avg) * total == wlo * (hi - lo);
    SignOfProduct(hi - lo, whi);
    SignOfProduct(hi - lo, wlo);
    SignFromProduct(avg - lo, total);
    SignFromProduct(hi - avg, total);
    if lo < hi && wlo > 0.0 && whi > 0.0 {
      PositiveProduct(hi - lo, whi);
      PositiveProduct(hi - lo, wlo);
    }
  }

  lemma SignFromProduct(x: real, t: real)
    requires t > 0.0
    ensures x * t >= 0.0 ==> x >= 0.0
    ensures x * t > 0.0 ==> x > 0.0
  {
  }

  lemma PositiveProduct(x: real, t: real)
    requires x > 0.0 && t > 0.0
    ensures x * t > 0.0
  {
  }

  /** A weight times a price distance times a traded volume. */
  function Weighted(weight: real, distance: real, volume: nat): real {
    weight * distance * volume as real
  }

  /** One own fill (either instrument), as the first loop of update_internal_state applies it. */
  function OwnFillStep(b: Band, t: Fill): Band {
    var left, right := b.Left(), b.Right();
    if left < t.price then
      var update := Weighted(OWN_WEIGHT, right - t.price, t.volume);
      Band(b.theo - update / 2.0, b.margin + update / 2.0)
    else
      var update := Weighted(OWN_WEIGHT, t.price - left, t.volume);
      Band(b.theo + update / 2.0, b.margin + update / 2.0)
  }

  /**
   * An own fill above the left edge keeps the right edge, one at or below it
   * keeps the left edge; the other edge moves by OWN_WEIGHT * volume times
   * the fill price's distance from the edge that stays. So a fill inside the band widens it and
   * lowers theo, a fill above the band narrows it and raises theo, and a
   * fill at or below the left edge narrows it and lowers theo.
   */
  lemma OwnFillMovesOneEdge(b: Band, t: Fill)
    ensures t.volume == 0 ==> OwnFillStep(b, t) == b
    ensures t.price > b.Left() ==> OwnFillStep(b, t).Right() == b.Right()
    ensures t.price > b.Left() ==>
      OwnFillStep(b, t).Left() - b.Left() == OWN_WEIGHT * (t.price - b.Right()) * t.volume as real
    ensures t.price <= b.Left() ==> OwnFillStep(b, t).Left() == b.Left()
    ensures t.price <= b.Left() ==>
      OwnFillStep(b, t).Right() - b.Right() == OWN_WEIGHT * (t.price - b.Left()) * t.volume as real
    ensures b.Left() < t.price <= b.Right() ==> OwnFillStep(b, t).margin >= b.margin && OwnFillStep(b, t).theo <= b.theo
    ensures t.price > b.Left() && t.price > b.Right() ==>
      OwnFillStep(b, t).margin <= b.margin && OwnFillStep(b, t).theo >= b.theo
    ensures t.price <= b.Left() ==> OwnFillStep(b, t).margin <= b.margin && OwnFillStep(b, t).theo <= b.theo
  {
    var v := t.volume as real;
    if b.Left() < t.price {
      SignOfProduct(b.Right() - t.price, v);
      SignOfProduct(OWN_WEIGHT * (b.Right() - t.price), v);
    } else {
      SignOfProduct(t.price - b.Left(), v);
      SignOfProduct(OWN_WEIGHT * (t.price - b.Left()), v);
    }
  }

  lemma SignOfProduct(x: real, v: real)
    requires v >= 0.0
    ensures x >= 0.0 ==> x * v >= 0.0
    ensures x <= 0.0 ==> x * v <= 0.0
    ensures v == 0.0 ==> x * v == 0.0
  {
  }

  predicate OutsideBand(b: Band, price: real) {
    b.Left() > price || b.Right() < price
  }

  /** One public trade that is not one of this cycle's own fills. */
  function MarketTradeStep(b: Band, t: Fill): Band {
    var left, right := b.Left(), b.Right();
    if left > t.price || right < t.price then
      var update := Weighted(OTHER_OUTSIDE_WEIGHT, 2.0 * t.price - left - right, t.volume);
      Band(b.theo + update, b.margin)
    else
      var d1 := Weighted(OTHER_INSIDE_WEIGHT, t.price - left, t.volume);
      var d2 := Weighted(OTHER_INSIDE_WEIGHT, t.price - right, t.volume);
      Band(b.theo + (d1 + d2) / 2.0, b.margin - (d1 - d2) / 2.0)
  }

  /**
   * Outside the band a public trade pulls theo toward its price and leaves
   * margin alone; inside the band it scales margin by
   * (1 - OTHER_INSIDE_WEIGHT * volume) and also pulls theo toward the price.
   * Either way margin never grows.
   */
  lemma MarketTradeEffect(b: Band, t: Fill)
    ensures var r := MarketTradeStep(b, t);
      && (OutsideBand(b, t.price) ==> r.margin == b.margin)
      && (OutsideBand(b, t.price) ==>
          r.theo - b.theo == 2.0 * OTHER_OUTSIDE_WEIGHT * ((t.price - b.theo) * t.volume as real))
      && (OutsideBand(b, t.price) && t.price >= b.theo ==> r.theo >= b.theo)
      && (OutsideBand(b, t.price) && t.price <= b.theo ==> r.theo <= b.theo)
      && (!OutsideBand(b, t.price) ==> r.margin == b.margin * (1.0 - OTHER_INSIDE_WEIGHT * t.volume as real))
      && (!OutsideBand(b, t.price) ==>
          r.theo - b.theo == OTHER_INSIDE_WEIGHT * ((t.price - b.theo) * t.volume as real))
      && r.margin <= b.margin
  {
    var v := t.volume as real;
    if OutsideBand(b, t.price) {
      assert OTHER_OUTSIDE_WEIGHT * (2.0 * t.price - b.Left() - b.Right()) * v
        == 2.0 * OTHER_OUTSIDE_WEIGHT * ((t.price - b.theo) * v);
      SignOfProduct(t.price - b.theo, v);
    } else {
      var d1 := OTHER_INSIDE_WEIGHT * (t.price - b.Left()) * v;
      var d2 := OTHER_INSIDE_WEIGHT * (t.price - b.Right()) * v;
      assert d1 - d2 == 2.0 * OTHER_INSIDE_WEIGHT * (b.margin * v);
      assert d1 + d2 == 2.0 * OTHER_INSIDE_WEIGHT * ((t.price - b.theo) * v);
      SignOfProduct(b.margin, v);
    }
  }

  /** The own fills of a cycle, applied in order. */
  function ApplyOwnFills(b: Band, fills: seq<Fill>): Band {
    if fills == [] then b
    else OwnFillStep(ApplyOwnFills(b, fills[..|fills| - 1]), fills[|fills| - 1])
  }

  /** The public trades of a cycle, applied in order, skipping own trade ids. */
  function ApplyMarketTrades(b: Band, trades: seq<Fill>, ownIds: set<int>): Band {
    if trades == [] then b
    else
      var before := ApplyMarketTrades(b, trades[..|trades| - 1], ownIds);
      var t := trades[|trades| - 1];
      if t.tradeId in ownIds then before else MarketTradeStep(before, t)
  }

  function OwnIds(fills: seq<Fill>): set<int> {
    set t | t in fills :: t.tradeId
  }

  /**
   * The band after one update_internal_state: own fills, then public trades
   * that are not own fills, then the margin floor.
   */
  function CycleBand(b: Band, own: seq<Fill>, market: seq<Fill>): (r: Band)
    ensures r.margin >= MARGIN_FLOOR
    ensures own == [] && market == [] ==> r.theo == b.theo && r.margin == Max(b.margin, MARGIN_FLOOR)
  {
    var afterMarket := ApplyMarketTrades(ApplyOwnFills(b, own), market, OwnIds(own));
    Band(afterMarket.theo, Max(afterMarket.margin, MARGIN_FLOOR))
  }

  /** Own fills with zero volume change nothing. */
  lemma {:induction false} ZeroVolumeFillsChangeNothing(b: Band, fills: seq<Fill>)
    requires forall k :: 0 <= k < |fills| ==> fills[k].volume == 0
    ensures ApplyOwnFills(b, fills) == b
  {
    if fills != [] {
      ZeroVolumeFillsChangeNothing(b, fills[..|fills| - 1]);
    }
  }

  /** The trades whose id is not in `ids`, in their original order. */
  function WithoutIds(trades: seq<Fill>, ids: set<int>): (r: seq<Fill>)
    ensures |r| <= |trades|
    ensures forall t :: t in r ==> t in trades && t.tradeId !in ids
    ensures forall t :: t in trades && t.tradeId !in ids ==> t in r
  {
    if trades == [] then []
    else
      var t := trades[|trades| - 1];
      assert trades == trades[..|trades| - 1] + [t];
      if t.tradeId in ids then WithoutIds(trades[..|trades| - 1], ids)
      else WithoutIds(trades[..|trades| - 1], ids) + [t]
  }

  /**
   * A public trade that is also one of this cycle's own fills is not counted
   * twice: the public-trade update is the one over the other trades alone,
   * with nothing filtered.
   */
  lemma {:induction false} OwnTradeTicksAreSkipped(b: Band, trades: seq<Fill>, ownIds: set<int>)
    ensures ApplyMarketTrades(b, trades, ownIds) == ApplyMarketTrades(b, WithoutIds(trades, ownIds), {})
    ensures (forall k :: 0 <= k < |trades| ==> trades[k].tradeId in ownIds) ==> ApplyMarketTrades(b, trades, ownIds) == b
  {
    if trades != [] {
      var front, t := trades[..|trades| - 1], trades[|trades| - 1];
      OwnTradeTicksAreSkipped(b, front, ownIds);
      if t.tradeId !in ownIds {
        var kept := WithoutIds(front, ownIds) + [t];
        assert kept[..|kept| - 1] == WithoutIds(front, ownIds);
      }
    }
  }

  /** Public trades never widen the band: outside ones keep margin, inside ones shrink it. */
  lemma {:induction false} MarketTradesNeverWiden(b: Band, trades: seq<Fill>, ownIds: set<int>)
    ensures ApplyMarketTrades(b, trades, ownIds).margin <= b.margin
  {
    if trades != [] {
      MarketTradesNeverWiden(b, trades[..|trades| - 1], ownIds);
      MarketTradeEffect(ApplyMarketTrades(b, trades[..|trades| - 1], ownIds), trades[|trades| - 1]);
    }
  }

  /** A cycle without own fills ends with margin at most max(margin, 0.05). */
  lemma CycleWithoutOwnFillsNeverWidens(b: Band, market: seq<Fill>)
    ensures CycleBand(b, [], market).margin <= Max(b.margin, MARGIN_FLOOR)
  {
    MarketTradesNeverWiden(b, market, OwnIds([]));
  }

  /**
   * Best bid 99 x 10 and best ask 101 x 10 seed theo 100 and margin 1; an
   * own fill at 99.5 for 4 then moves theo to 99.91 and margin to 1.09.
   */
  lemma SeedThenOwnFillScenario()
    ensures InitialBand(PriceVolume(101.0, 10), PriceVolume(99.0, 10)) == Band(100.0, 1.0)
    ensures OwnFillStep(Band(100.0, 1.0), Fill(1, SMALL_CHIPS, 99.5, 4)) == Band(99.91, 1.09)
  {
  }

  // =====================================================================
  // Rolling statistics of SMALL_CHIPS trade prices
  // =====================================================================

  function Sum(xs: seq<real>): real {
    if xs == [] then 0.0 else Sum(xs[..|xs| - 1]) + xs[|xs| - 1]
  }

  function SumOfSquares(xs: seq<real>): real {
    if xs == [] then 0.0 else SumOfSquares(xs[..|xs| - 1]) + xs[|xs| - 1] * xs[|xs| - 1]
  }

  function Prices(trades: seq<Fill>): (r: seq<real>)
    ensures |r| == |trades|
    ensures forall k :: 0 <= k < |trades| ==> r[k] == trades[k].price
  {
    seq(|trades|, k requires 0 <= k < |trades| => trades[k].price)
  }

  lemma PricesAppend(trades: seq<Fill>, t: Fill)
    ensures Prices(trades + [t]) == Prices(trades) + [t.price]
  {
  }

  /**
   * What sample_mean holds after the ticks `xs`: the first tick alone, and
   * from the second tick on the mean of every tick except the first.
   */
  function TrailingMean(xs: seq<real>): real {
    if |xs| == 0 then 0.0
    else if |xs| == 1 then xs[0]
    else Sum(xs[1..]) / (|xs| - 1) as real
  }

  lemma {:induction false} SumFront(xs: seq<real>)
    requires xs != []
    ensures Sum(xs) == xs[0] + Sum(xs[1..])
  {
    if |xs| > 1 {
      SumFront(xs[..|xs| - 1]);
      assert xs[..|xs| - 1][1..] == xs[1..][..|xs[1..]| - 1];
    } else {
      assert xs[..0] == [] && xs[1..] == [];
    }
  }

  lemma {:induction false} SumAppend(xs: seq<real>, p: real)
    ensures Sum(xs + [p]) == Sum(xs) + p
    ensures SumOfSquares(xs + [p]) == SumOfSquares(xs) + p * p
  {
  }

  /**
   * The running-mean update of update_internal_state,
   * sample_mean := ((n - 1) * sample_mean + price) / n when n > 0 and
   * sample_mean := price otherwise, with n the count before the tick, keeps
   * sample_mean equal to TrailingMean.
   */
  lemma {:induction false} MeanUpdateKeepsTrailingMean(xs: seq<real>, p: real, count: nat, mean: real)
    requires count == |xs| && mean == TrailingMean(xs)
    ensures TrailingMean(xs + [p]) == if count > 0 then ((count - 1) as real * mean + p) / count as real else p
  {
    var ys := xs + [p];
    if count > 1 {
      assert ys[1..] == xs[1..] + [p];
      SumAppend(xs[1..], p);
      var m := (count - 1) as real;
      assert mean * m == Sum(xs[1..]);
      assert TrailingMean(ys) == (Sum(xs[1..]) + p) / count as real;
    } else if count == 1 {
      assert ys[1..] == [p];
      assert [p][..0] == [];
      assert Sum([p]) == Sum([p][..0]) + p;
    }
  }

  /**
   * With two or more ticks, sample_mean is the true mean sum / n exactly
   * when the first tick equals the mean of the later ones.
   */
  lemma {:induction false} TrailingMeanIsMeanIff(xs: seq<real>)
    requires |xs| >= 2
    ensures TrailingMean(xs) == Sum(xs) / |xs| as real <==> xs[0] == TrailingMean(xs)
  {
    SumFront(xs);
    var n := |xs| as real;
    var tm := TrailingMean(xs);
    var rest := Sum(xs[1..]);
    assert tm * (n - 1.0) == rest;
    var mean := Sum(xs) / n;
    assert mean * n == xs[0] + rest;
    assert (mean - tm) * n == xs[0] - tm by {
      assert (mean - tm) * n == mean * n - tm * n;
      assert tm * n == rest + tm;
    }
    ProductZeroIff(mean - tm, n);
  }

  lemma ProductZeroIff(x: real, n: real)
    requires n > 0.0
    ensures x * n == 0.0 <==> x == 0.0
  {
  }

  /** Ticks 1 and 3 give sample_mean 3 while their mean is 2. */
  lemma TrailingMeanDiffersFromMean()
    ensures TrailingMean([1.0, 3.0]) == 3.0
    ensures Sum([1.0, 3.0]) / 2.0 == 2.0
  {
  }

  /** The quantity under the square root of the standard deviation, n * sum of squares - sum^2. */
  function Radicand(n: nat, squareSum: real, sum: real): real {
    n as real * squareSum - sum * sum
  }

  /**
   * sample_stdev as update_internal_state computes it from the running count,
   * sum of squares and sum: 1 / n * sqrt(n * sum of squares - sum^2).
   */
  function Deviation(n: nat, squareSum: real, sum: real, sqrt: real -> real): real
    requires n > 0
  {
    1.0 / n as real * sqrt(Radicand(n, squareSum, sum))
  }

  /** One more tick keeps n * sum_of_squares - sum^2 non-negative. */
  lemma RadicandStep(n: real, q: real, s: real, p: real)
    requires n >= 0.0 && q >= 0.0 && n * q >= s * s
    requires n == 0.0 ==> s == 0.0
    ensures (n + 1.0) * (q + p * p) >= (s + p) * (s + p)
  {
    assert (n + 1.0) * (q + p * p) - (s + p) * (s + p) == (n * q - s * s) + (q - 2.0 * s * p + n * p * p);
    if n > 0.0 {
      assert n * (q - 2.0 * s * p + n * p * p) == (n * q - s * s) + (s - n * p) * (s - n * p);
      assert (s - n * p) * (s - n * p) >= 0.0;
      assert n * (q - 2.0 * s * p + n * p * p) >= 0.0;
    }
  }

  /**
   * Cauchy-Schwarz for the tick prices: the radicand under sqrt in
   * update_internal_state is never negative.
   */
  lemma {:induction false} RadicandNonNegative(xs: seq<real>)
    ensures SumOfSquares(xs) >= 0.0
    ensures Radicand(|xs|, SumOfSquares(xs), Sum(xs)) >= 0.0
  {
    if xs != [] {
      var init := xs[..|xs| - 1];
      RadicandNonNegative(init);
      assert init + [xs[|xs| - 1]] == xs;
      SumAppend(init, xs[|xs| - 1]);
      RadicandStep(|init| as real, SumOfSquares(init), Sum(init), xs[|xs| - 1]);
    }
  }

  // =====================================================================
  // Quote ladder
  // =====================================================================

  /**
   * Python's round(x, 1) on exact reals: the nearest multiple of 0.1, ties
   * to the even multiple.
   */
  function RoundToTenth(x: real): (r: real)
    ensures -0.05 <= r - x <= 0.05
    ensures (r * 10.0).Floor as real == r * 10.0
    ensures r - x == 0.05 || x - r == 0.05 ==> (r * 10.0).Floor % 2 == 0
  {
    var scaled := x * 10.0;
    var m := NearestEven(scaled);
    var r := m as real / 10.0;
    assert r - x == (m as real - scaled) / 10.0;
    assert r * 10.0 == m as real;
    r
  }

  /** The integer nearest to `y`, ties to the even one. */
  function NearestEven(y: real): (m: int)
    ensures -0.5 <= m as real - y <= 0.5
    ensures m as real - y == 0.5 || y - m as real == 0.5 ==> m % 2 == 0
  {
    var k := y.Floor;
    var frac := y - k as real;
    if frac < 0.5 then k
    else if frac > 0.5 then k + 1
    else if k % 2 == 0 then k
    else k + 1
  }

  /** The best bid price, or 0 when there is no bid. */
  function EdgeBid(book: PriceBook): real {
    if |book.bids| > 0 then book.bids[0].price else 0.0
  }

  /** The best ask price, or 1e7 when there is no ask. */
  function EdgeAsk(book: PriceBook): real {
    if |book.asks| > 0 then book.asks[0].price else EMPTY_ASK_EDGE
  }

  /**
   * The top bid of the ladder: one tick above the best bid, unless the band
   * (theo - margin - 0.05, rounded) is lower.
   */
  function StartBid(b: Band, edgeBid: real): (r: real)
    ensures r <= edgeBid + LEVEL
    ensures r <= b.Left()
    ensures r >= Min(edgeBid + LEVEL, b.Left() - 2.0 * START_BUFFER)
    ensures r <= RoundToTenth(b.Left() - START_BUFFER)
    ensures r == edgeBid + LEVEL || r == RoundToTenth(b.Left() - START_BUFFER)
  {
    Min(edgeBid + LEVEL, RoundToTenth(b.theo - b.margin - START_BUFFER))
  }

  /**
   * The bottom ask of the ladder: one tick below the best ask, unless the
   * band (theo + margin + 0.05, rounded) is higher.
   */
  function StartAsk(b: Band, edgeAsk: real): (r: real)
    ensures r >= edgeAsk - LEVEL
    ensures r >= b.Right()
    ensures r <= Max(edgeAsk - LEVEL, b.Right() + 2.0 * START_BUFFER)
    ensures r >= RoundToTenth(b.Right() + START_BUFFER)
    ensures r == edgeAsk - LEVEL || r == RoundToTenth(b.Right() + START_BUFFER)
  {
    Max(edgeAsk - LEVEL, RoundToTenth(b.theo + b.margin + START_BUFFER))
  }

  /** place_order: "bid" goes to the exchange as a bid, any other side string as an ask. */
  function PlaceOrder(instrumentId: string, price: real, volume: int, side: string): (r: OrderIntent)
    ensures r.side == Bid <==> side == "bid"
    ensures r.instrumentId == instrumentId && r.price == price && r.volume == volume
  {
    OrderIntent(instrumentId, price, volume, if side == "bid" then Bid else Ask)
  }

  /** The price of ladder level `steps`: up from the start for "ask", down otherwise. */
  function LevelPrice(initialLevel: real, steps: nat, side: string): real {
    initialLevel + LEVEL * steps as real * (if side == "ask" then 1.0 else -1.0)
  }

  /** The orders place_quotes_levels inserts, one per volume-curve entry. */
  function Ladder(instrumentId: string, initialLevel: real, side: string, curve: seq<nat>): (r: seq<OrderIntent>)
    ensures |r| == |curve|
    ensures forall k :: 0 <= k < |r| ==>
      r[k].instrumentId == instrumentId && r[k].volume == curve[k] && (r[k].side == Bid <==> side == "bid")
    ensures side == "ask" ==> forall k :: 0 <= k < |r| ==> r[k].price == initialLevel + LEVEL * k as real
    ensures side != "ask" ==> forall k :: 0 <= k < |r| ==> r[k].price == initialLevel - LEVEL * k as real
    ensures side == "ask" ==> forall j, k :: 0 <= j < k < |r| ==> r[j].price < r[k].price
    ensures side != "ask" ==> forall j, k :: 0 <= j < k < |r| ==> r[k].price < r[j].price
  {
    seq(|curve|, k requires 0 <= k < |curve| => PlaceOrder(instrumentId, LevelPrice(initialLevel, k, side), curve[k], side))
  }

  /** A bid ladder from 99.8 over [2, 8, 16, 32] quotes 99.8, 99.7, 99.6 and 99.5. */
  lemma BidLadderScenario()
    ensures Ladder(NEW_COUNTRY, 99.8, "bid", [2, 8, 16, 32]) == [
      OrderIntent(NEW_COUNTRY, 99.8, 2, Bid), OrderIntent(NEW_COUNTRY, 99.7, 8, Bid),
      OrderIntent(NEW_COUNTRY, 99.6, 16, Bid), OrderIntent(NEW_COUNTRY, 99.5, 32, Bid)]
  {
  }

  /**
   * Every order of the passive ladder sits outside the band: bids at or
   * below theo - margin and at most one tick above the best bid, asks at or
   * above theo + margin and at least one tick below the best ask.
   */
  lemma LadderStaysOutsideBand(b: Band, book: PriceBook, curve: seq<nat>)
    ensures forall o :: o in Ladder(NEW_COUNTRY, StartBid(b, EdgeBid(book)), "bid", curve) ==>
      o.side == Bid && o.price <= b.Left() && o.price <= EdgeBid(book) + LEVEL
    ensures forall o :: o in Ladder(NEW_COUNTRY, StartAsk(b, EdgeAsk(book)), "ask", curve) ==>
      o.side == Ask && o.price >= b.Right() && o.price >= EdgeAsk(book) - LEVEL
  {
  }

  // =====================================================================
  // Opportunist: one inventory-reducing order on SMALL_CHIPS
  // =====================================================================

  /**
   * The z-score tests of send_orders, gated on SMALL_CHIPS trading, at
   * least 20 ticks and a non-zero deviation. When short and the best ask
   * sits more than 2 (or 1.5) deviations below the mean, buy the whole
   * short (or at most 10). When long and the best bid sits more than 2 (or
   * 1.5) deviations below the mean, sell the whole long (or at most 10).
   * Both sell branches price at mean + 2 sigma.
   */
  function Opportunist(tradingSmall: bool, n: nat, mean: real, stdev: real, deltas: int, book: PriceBook)
    : (r: Option<OrderIntent>)
    ensures r.Some? <==>
      && tradingSmall && n >= MIN_SAMPLES && stdev != 0.0
      && ((deltas < 0 && -(EdgeAsk(book) - mean) / stdev > 1.5) || (deltas > 0 && (mean - EdgeBid(book)) / stdev > 1.5))
    ensures r.Some? ==> r.value.instrumentId == SMALL_CHIPS
    ensures r.Some? && r.value.side == Bid ==> deltas < 0 && 1 <= r.value.volume <= -deltas
    ensures r.Some? && r.value.side == Ask ==> deltas > 0 && 1 <= r.value.volume <= deltas
    ensures r.Some? && r.value.side == Ask ==> r.value.price == mean + 2.0 * stdev
    ensures r.Some? && r.value.side == Bid ==>
      if -(EdgeAsk(book) - mean) / stdev > 2.0
      then r.value.price == mean - 2.0 * stdev && r.value.volume == -deltas
      else r.value.price == mean - 1.5 * stdev && r.value.volume == MinInt(MAX_PARTIAL_VOLUME, -deltas)
    ensures r.Some? && r.value.side == Ask ==>
      if (mean - EdgeBid(book)) / stdev > 2.0
      then r.value.volume == deltas
      else r.value.volume == MinInt(MAX_PARTIAL_VOLUME, deltas)
  {
    if tradingSmall && n >= MIN_SAMPLES && stdev != 0.0 then
      var edgeBid, edgeAsk := EdgeBid(book), EdgeAsk(book);
      if -(edgeAsk - mean) / stdev > 2.0 && deltas < 0 then
        Some(PlaceOrder(SMALL_CHIPS, mean - 2.0 * stdev, -deltas, "bid"))
      else if -(edgeAsk - mean) / stdev > 1.5 && deltas < 0 then
        Some(PlaceOrder(SMALL_CHIPS, mean - 1.5 * stdev, MinInt(MAX_PARTIAL_VOLUME, -deltas), "bid"))
      else if (mean - edgeBid) / stdev > 2.0 && deltas > 0 then
        Some(PlaceOrder(SMALL_CHIPS, mean + 2.0 * stdev, deltas, "sell"))
      else if (mean - edgeBid) / stdev > 1.5 && deltas > 0 then
        Some(PlaceOrder(SMALL_CHIPS, mean + 2.0 * stdev, MinInt(MAX_PARTIAL_VOLUME, deltas), "sell"))
      else None
    else None
  }

  /**
   * Short 12 with mean 50, sigma 1 and best ask 47.5 (2.5 sigma below the
   * mean): buy 12 at 48.
   */
  lemma OpportunistLiftScenario(book: PriceBook)
    requires |book.asks| > 0 && book.asks[0].price == 47.5
    ensures Opportunist(true, 20, 50.0, 1.0, -12, book) == Some(OrderIntent(SMALL_CHIPS, 48.0, 12, Bid))
  {
  }

  /**
   * Long 30 with the best bid between 1.5 and 2 sigma below the mean: the
   * partial sell is for 10, priced at mean + 2 sigma rather than 1.5 sigma.
   */
  lemma OpportunistPartialSellPricedAtTwoSigma(n: nat, mean: real, stdev: real, book: PriceBook)
    requires n >= MIN_SAMPLES && stdev > 0.0
    requires 1.5 * stdev < mean - EdgeBid(book) <= 2.0 * stdev
    ensures Opportunist(true, n, mean, stdev, 30, book) == Some(OrderIntent(SMALL_CHIPS, mean + 2.0 * stdev, 10, Ask))
  {
    QuotientBounds(mean - EdgeBid(book), stdev, 1.5, 2.0);
  }

  /** lo < d / s <= hi when lo * s < d <= hi * s and s is positive. */
  lemma QuotientBounds(d: real, s: real, lo: real, hi: real)
    requires s > 0.0 && lo * s < d <= hi * s
    ensures lo < d / s <= hi
  {
  }

  // =====================================================================
  // The engine
  // =====================================================================

  /**
   * What update_market_state fetches for one cycle: instrument list, books,
   * own fills and public trade ticks per instrument, and positions.
   */
  datatype Snapshot = Snapshot(
    tradable: map<string, Instrument>,
    bookNew: PriceBook,
    bookSmall: PriceBook,
    ownSmall: seq<Fill>,
    ownNew: seq<Fill>,
    marketSmall: seq<Fill>,
    marketNew: seq<Fill>,
    positionSmall: int,
    positionNew: int)

  class TradingAlgorithm {
    var theo: real
    var margin: real
    var deltas: int
    var n: nat
    var sampleMean: real
    var sampleStdev: real
    var squareSum: real
    var sum: real
    const volumeCurve: seq<nat> := [2, 8, 16, 32]
    /** Every SMALL_CHIPS trade price seen so far, oldest first. */
    ghost var ticks: seq<real>

    /** The running statistics describe exactly the ticks seen. */
    ghost predicate Valid()
      reads this
    {
      && n == |ticks|
      && sum == Sum(ticks)
      && squareSum == SumOfSquares(ticks)
      && sampleMean == TrailingMean(ticks)
    }

    /** In a valid state the value passed to sqrt is never negative. */
    lemma ValidRadicandNonNegative()
      requires Valid()
      ensures Radicand(n, squareSum, sum) >= 0.0
    {
      RadicandNonNegative(ticks);
    }

    function CurrentBand(): Band
      reads this
    {
      Band(theo, margin)
    }

    /**
     * __init__ once the SMALL_CHIPS book has both sides: seed the band from
     * the best levels; all statistics start at zero.
     */
    constructor (smallChipsBook: PriceBook)
      requires |smallChipsBook.asks| > 0 && |smallChipsBook.bids| > 0
      requires smallChipsBook.asks[0].volume + smallChipsBook.bids[0].volume > 0
      ensures Valid() && ticks == []
      ensures CurrentBand() == InitialBand(smallChipsBook.asks[0], smallChipsBook.bids[0])
      ensures deltas == 0 && sampleStdev == 0.0
    {
      var seed := InitialBand(smallChipsBook.asks[0], smallChipsBook.bids[0]);
      theo, margin := seed.theo, seed.margin;
      deltas := 0;
      n, sampleMean, sampleStdev, squareSum, sum := 0, 0.0, 0.0, 0.0, 0.0;
      ticks := [];
    }

    /**
     * update_internal_state. `sqrt` stands for math.sqrt; the radicand it is
     * given is never negative.
     */
    method UpdateInternalState(s: Snapshot, sqrt: real -> real)
      requires Valid()
      modifies this
      ensures Valid()
      ensures CurrentBand() == CycleBand(old(CurrentBand()), s.ownSmall + s.ownNew, s.marketSmall + s.marketNew)
      ensures margin >= MARGIN_FLOOR
      ensures deltas == s.positionSmall + s.positionNew
      ensures ticks == old(ticks) + Prices(s.marketSmall)
      ensures s.marketSmall == [] ==> sampleStdev == old(sampleStdev)
      ensures s.marketSmall != [] ==> sampleStdev == Deviation(n, squareSum, sum, sqrt)
    {
      var ownTrades := s.ownSmall + s.ownNew;
      var ownIds := OwnIds(ownTrades);
      ApplyOwnTrades(ownTrades);
      ApplyOtherTrades(s.marketSmall + s.marketNew, ownIds);
      margin := Max(margin, MARGIN_FLOOR);
      deltas := s.positionSmall + s.positionNew;
      RecordTicks(s.marketSmall, sqrt);
    }

    /** The own-fill loop of update_internal_state. */
    method ApplyOwnTrades(ownTrades: seq<Fill>)
      modifies this`theo, this`margin
      ensures CurrentBand() == ApplyOwnFills(old(CurrentBand()), ownTrades)
    {
      ghost var start := CurrentBand();
      var i := 0;
      while i < |ownTrades|
        invariant 0 <= i <= |ownTrades|
        invariant CurrentBand() == ApplyOwnFills(start, ownTrades[..i])
      {
        var trade := ownTrades[i];
        ghost var after := OwnFillStep(CurrentBand(), trade);
        var left, right := theo - margin, theo + margin;
        var update: real;
        if left < trade.price {
          update := Weighted(OWN_WEIGHT, right - trade.price, trade.volume);
          theo := theo - update / 2.0;
        } else {
          update := Weighted(OWN_WEIGHT, trade.price - left, trade.volume);
          theo := theo + update / 2.0;
        }
        margin := margin + update / 2.0;
        assert CurrentBand() == after;
        assert ownTrades[..i + 1][..i] == ownTrades[..i];
        i := i + 1;
      }
      assert ownTrades[..i] == ownTrades;
    }

    /** The public-trade loop of update_internal_state, own trade ids filtered out. */
    method ApplyOtherTrades(marketTrades: seq<Fill>, ownIds: set<int>)
      modifies this`theo, this`margin
      ensures CurrentBand() == ApplyMarketTrades(old(CurrentBand()), marketTrades, ownIds)
    {
      ghost var start := CurrentBand();
      var j := 0;
      while j < |marketTrades|
        invariant 0 <= j <= |marketTrades|
        invariant CurrentBand() == ApplyMarketTrades(start, marketTrades[..j], ownIds)
      {
        var trade := marketTrades[j];
        if trade.tradeId !in ownIds {
          var left, right := theo - margin, theo + margin;
          if left > trade.price || right < trade.price {
            var update := Weighted(OTHER_OUTSIDE_WEIGHT, 2.0 * trade.price - left - right, trade.volume);
            theo := theo + update;
          } else {
            var d1 := Weighted(OTHER_INSIDE_WEIGHT, trade.price - left, trade.volume);
            var d2 := Weighted(OTHER_INSIDE_WEIGHT, trade.price - right, trade.volume);
            margin := margin - (d1 - d2) / 2.0;
            theo := theo + (d1 + d2) / 2.0;
          }
        }
        assert marketTrades[..j + 1][..j] == marketTrades[..j];
        j := j + 1;
      }
      assert marketTrades[..j] == marketTrades;
    }

    /** The statistics loop of update_internal_state over SMALL_CHIPS ticks. */
    method RecordTicks(smallTicks: seq<Fill>, sqrt: real -> real)
      requires Valid()
      modifies this`n, this`sampleMean, this`sampleStdev, this`squareSum, this`sum, this`ticks
      ensures Valid()
      ensures ticks == old(ticks) + Prices(smallTicks)
      ensures smallTicks == [] ==> sampleStdev == old(sampleStdev)
      ensures smallTicks != [] ==> sampleStdev == Deviation(n, squareSum, sum, sqrt)
    {
      var k := 0;
      while k < |smallTicks|
        invariant 0 <= k <= |smallTicks|
        invariant Valid()
        invariant ticks == old(ticks) + Prices(smallTicks[..k])
        invariant k == 0 ==> sampleStdev == old(sampleStdev)
        invariant k > 0 ==> sampleStdev == Deviation(n, squareSum, sum, sqrt)
      {
        RecordTick(smallTicks[k].price, sqrt);
        assert smallTicks[..k + 1] == smallTicks[..k] + [smallTicks[k]];
        PricesAppend(smallTicks[..k], smallTicks[k]);
        k := k + 1;
      }
      assert smallTicks[..k] == smallTicks;
    }

    /** One pass of the statistics loop: fold one price into the running statistics. */
    method RecordTick(price: real, sqrt: real -> real)
      requires Valid()
      modifies this`n, this`sampleMean, this`sampleStdev, this`squareSum, this`sum, this`ticks
      ensures Valid()
      ensures ticks == old(ticks) + [price]
      ensures sampleStdev == Deviation(n, squareSum, sum, sqrt)
    {
      SumAppend(ticks, price);
      MeanUpdateKeepsTrailingMean(ticks, price, n, sampleMean);
      sampleMean := if n > 0 then ((n - 1) as real * sampleMean + price) / n as real else price;
      n := n + 1;
      squareSum := squareSum + price * price;
      sum := sum + price;
      ticks := ticks + [price];
      sampleStdev := Deviation(n, squareSum, sum, sqrt);
    }

    /**
     * propagate_trade (not called by the engine): theo moves by
     * theo_update_rate * volume * (price - theo), margin by
     * margin_update_rate times the absolute size of that move's base.
     */
    method PropagateTrade(trade: Fill, theoUpdateRate: real, marginUpdateRate: real)
      modifies this`theo, this`margin
      ensures var update := trade.volume as real * (trade.price - old(theo));
        theo == old(theo) + theoUpdateRate * update
        && margin == old(margin) + marginUpdateRate * (if update < 0.0 then -update else update)
      ensures marginUpdateRate >= 0.0 ==> margin >= old(margin)
    {
      var update := trade.volume as real * (trade.price - theo);
      theo := theo + theoUpdateRate * update;
      var magnitude := if update < 0.0 then -update else update;
      SignOfProduct(marginUpdateRate, magnitude);
      margin := margin + marginUpdateRate * magnitude;
    }

    /** place_quotes_levels: one order per volume-curve entry, 0.1 apart. */
    method PlaceQuotesLevels(instrumentId: string, initialLevel: real, side: string) returns (orders: seq<OrderIntent>)
      ensures orders == Ladder(instrumentId, initialLevel, side, volumeCurve)
    {
      orders := [];
      var steps := 0;
      while steps < |volumeCurve|
        invariant 0 <= steps <= |volumeCurve|
        invariant orders == Ladder(instrumentId, initialLevel, side, volumeCurve[..steps])
      {
        var levelVolume := volumeCurve[steps];
        var price := initialLevel + LEVEL * steps as real * (if side == "ask" then 1.0 else -1.0);
        orders := orders + [PlaceOrder(instrumentId, price, levelVolume, side)];
        steps := steps + 1;
      }
      assert volumeCurve[..steps] == volumeCurve;
    }

    /**
     * send_orders: delete resting orders on both instruments, quote the
     * ladder on SMALL_CHIPS_NEW_COUNTRY when it is trading, then place the
     * opportunist's order if there is one.
     */
    method SendOrders(s: Snapshot) returns (actions: seq<Action>)
      ensures actions == CycleOrders(s, CurrentBand(), n, sampleMean, sampleStdev, deltas, volumeCurve)
    {
      actions := [DeleteOrders(NEW_COUNTRY), DeleteOrders(SMALL_CHIPS)];
      if IsTrading(s.tradable, NEW_COUNTRY) {
        var startBid := StartBid(CurrentBand(), EdgeBid(s.bookNew));
        var startAsk := StartAsk(CurrentBand(), EdgeAsk(s.bookNew));
        var bids := PlaceQuotesLevels(NEW_COUNTRY, startBid, "bid");
        var asks := PlaceQuotesLevels(NEW_COUNTRY, startAsk, "ask");
        actions := actions + Inserts(bids) + Inserts(asks);
      }
      var opportunity := Opportunist(IsTrading(s.tradable, SMALL_CHIPS), n, sampleMean, sampleStdev, deltas, s.bookSmall);
      actions := actions + OptionalInsert(opportunity);
    }

    /**
     * run: skip the cycle when disconnected, otherwise update the state and
     * send the orders that the new state calls for.
     */
    method Run(connected: bool, s: Snapshot, sqrt: real -> real) returns (actions: seq<Action>)
      requires Valid()
      modifies this
      ensures Valid()
      ensures !connected ==> actions == [] && unchanged(this)
      ensures connected ==>
        && CurrentBand() == CycleBand(old(CurrentBand()), s.ownSmall + s.ownNew, s.marketSmall + s.marketNew)
        && deltas == s.positionSmall + s.positionNew
        && ticks == old(ticks) + Prices(s.marketSmall)
        && (s.marketSmall == [] ==> sampleStdev == old(sampleStdev))
        && (s.marketSmall != [] ==> sampleStdev == Deviation(n, squareSum, sum, sqrt))
        && actions == CycleOrders(s, CurrentBand(), n, sampleMean, sampleStdev, deltas, volumeCurve)
      ensures connected ==>
        && margin >= MARGIN_FLOOR
        && actions[..2] == [DeleteOrders(NEW_COUNTRY), DeleteOrders(SMALL_CHIPS)]
    {
      if !connected {
        return [];
      }
      UpdateInternalState(s, sqrt);
      actions := SendOrders(s);
    }
  }

  /**
   * The exchange calls of send_orders from a given state: delete on both
   * instruments, both ladders over `curve` on SMALL_CHIPS_NEW_COUNTRY when it
   * is trading, then the opportunist's order if any.
   */
  function CycleOrders(s: Snapshot, b: Band, n: nat, mean: real, stdev: real, deltas: int, curve: seq<nat>)
    : (r: seq<Action>)
    ensures |r| == 2 + (if IsTrading(s.tradable, NEW_COUNTRY) then 2 * |curve| else 0)
      + (if Opportunist(IsTrading(s.tradable, SMALL_CHIPS), n, mean, stdev, deltas, s.bookSmall).Some? then 1 else 0)
    ensures r[..2] == [DeleteOrders(NEW_COUNTRY), DeleteOrders(SMALL_CHIPS)]
    ensures !IsTrading(s.tradable, NEW_COUNTRY) ==>
      forall a :: a in r && a.Insert? ==> a.order.instrumentId == SMALL_CHIPS
    ensures IsTrading(s.tradable, NEW_COUNTRY) ==> r[2..2 + 2 * |curve|] == Quotes(b, s.bookNew, curve)
    ensures IsTrading(s.tradable, NEW_COUNTRY) ==>
      forall k :: 2 <= k < 2 + 2 * |curve| ==> r[k].Insert? && r[k].order.instrumentId == NEW_COUNTRY
    ensures Opportunist(IsTrading(s.tradable, SMALL_CHIPS), n, mean, stdev, deltas, s.bookSmall).Some? ==>
      r[|r| - 1] == Insert(Opportunist(IsTrading(s.tradable, SMALL_CHIPS), n, mean, stdev, deltas, s.bookSmall).value)
  {
    var quotes := if IsTrading(s.tradable, NEW_COUNTRY) then Quotes(b, s.bookNew, curve) else [];
    var r := [DeleteOrders(NEW_COUNTRY), DeleteOrders(SMALL_CHIPS)] + quotes
      + OptionalInsert(Opportunist(IsTrading(s.tradable, SMALL_CHIPS), n, mean, stdev, deltas, s.bookSmall));
    assert r[2..2 + |quotes|] == quotes;
    r
  }

  /**
   * Both ladders of send_orders as inserts, bids first: slot k < |curve| is
   * bid level k, slot |curve| + k is ask level k, all outside the band.
   */
  function Quotes(b: Band, book: PriceBook, curve: seq<nat>): (r: seq<Action>)
    ensures |r| == 2 * |curve|
    ensures forall k :: 0 <= k < |curve| ==>
      && r[k].Insert? && r[k].order.instrumentId == NEW_COUNTRY
      && r[k].order.side == Bid && r[k].order.volume == curve[k]
      && r[k].order.price == StartBid(b, EdgeBid(book)) - LEVEL * k as real
      && r[k].order.price <= b.Left() && r[k].order.price <= EdgeBid(book) + LEVEL
    ensures forall k :: |curve| <= k < 2 * |curve| ==>
      && r[k].Insert? && r[k].order.instrumentId == NEW_COUNTRY
      && r[k].order.side == Ask && r[k].order.volume == curve[k - |curve|]
      && r[k].order.price == StartAsk(b, EdgeAsk(book)) + LEVEL * (k - |curve|) as real
      && r[k].order.price >= b.Right() && r[k].order.price >= EdgeAsk(book) - LEVEL
  {
    var bidStart, askStart := StartBid(b, EdgeBid(book)), StartAsk(b, EdgeAsk(book));
    var bids := Ladder(NEW_COUNTRY, bidStart, "bid", curve);
    var asks := Ladder(NEW_COUNTRY, askStart, "ask", curve);
    var r := Inserts(bids) + Inserts(asks);
    assert forall k :: 0 <= k < |curve| ==> r[k] == Insert(bids[k]);
    assert forall k :: |curve| <= k < 2 * |curve| ==> r[k] == Insert(asks[k - |curve|]);
    assert forall k :: 0 <= k < |curve| ==> bids[k].price <= bidStart;
    assert forall k :: 0 <= k < |curve| ==> asks[k].price >= askStart;
    r
  }

  function Inserts(orders: seq<OrderIntent>): (r: seq<Action>)
    ensures |r| == |orders|
    ensures forall k :: 0 <= k < |orders| ==> r[k] == Insert(orders[k])
  {
    seq(|orders|, k requires 0 <= k < |orders| => Insert(orders[k]))
  }

  function OptionalInsert(o: Option<OrderIntent>): (r: seq<Action>)
    ensures |r| == if o.Some? then 1 else 0
    ensures o.Some? ==> r == [Insert(o.value)]
  {
    match o
    case Some(order) => [Insert(order)]
    case None => []
  }
}
