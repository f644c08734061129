/**
 * The computations of `OBIStrategy` (strategies/order_book_imbalance.py)
 * that do not change the strategy: market prices, the proximity-weighted
 * order-book imbalance, the volatility threshold, the repricing decision,
 * the product split and the terminal-order test.
 *
 * Prices and sizes are exact reals.
 */
module ObiSignal {
  import opened Basics
  import opened Exchange
  import opened StrategyBase
  import opened Retry

  datatype Signal = BuySignal | SellSignal

  /** Number of recent imbalances the threshold is computed over. */
  const PERIOD: nat := 30
  /** Seconds an order is held before it may be cancelled. */
  const MINIMUM_HOLD_TIME: real := 20.0
  /** Amount the repricing check pads the market price by. */
  const LIMIT_PADDING: real := 0.01
  /** Weights `size / (DELTA * |price - best| / best + BETA)`. */
  const DELTA: real := 2.0
  const BETA: real := 1.0

  function Abs(x: real): real {
    if x < 0.0 then -x else x
  }

  /** The highest price of a non-empty book side (`.max()` of the price column). */
  function MaxPrice(levels: seq<Level>): (r: real)
    requires |levels| > 0
    ensures exists i :: 0 <= i < |levels| && levels[i].price == r
    ensures forall i :: 0 <= i < |levels| ==> levels[i].price <= r
  {
    if |levels| == 1 then levels[0].price
    else
      var rest := MaxPrice(levels[1..]);
      assert forall i :: 1 <= i < |levels| ==> levels[i] == levels[1..][i - 1];
      if levels[0].price >= rest then levels[0].price else rest
  }

  /** The lowest price of a non-empty book side (`.min()` of the price column). */
  function MinPrice(levels: seq<Level>): (r: real)
    requires |levels| > 0
    ensures exists i :: 0 <= i < |levels| && levels[i].price == r
    ensures forall i :: 0 <= i < |levels| ==> r <= levels[i].price
  {
    if |levels| == 1 then levels[0].price
    else
      var rest := MinPrice(levels[1..]);
      assert forall i :: 1 <= i < |levels| ==> levels[i] == levels[1..][i - 1];
      if levels[0].price <= rest then levels[0].price else rest
  }

  /**
   * `_get_market_price(signal)` (order_book_imbalance.py:160-181): the best
   * bid for a buy, the best ask for a sell, otherwise the tracked order's
   * price. A missing book side raises TypeError; an empty one gives
   * `Decimal('NaN')` in Python, written `None` here.
   */
  function MarketPrice(signal: Option<Signal>, order: Option<Order>,
                       bids: Option<seq<Level>>, asks: Option<seq<Level>>): (r: Result<Option<real>>)
    ensures r.Raised? <==>
      (signal == Some(BuySignal) && bids.None?) || (signal == Some(SellSignal) && asks.None?)
    ensures r.Raised? ==> r.error == TypeError
    ensures signal == Some(BuySignal) && r.Ok? ==>
      (r.value.Some? <==> |bids.value| > 0) &&
      (r.value.Some? ==> (exists i :: 0 <= i < |bids.value| && bids.value[i].price == r.value.value)
                         && forall i :: 0 <= i < |bids.value| ==> bids.value[i].price <= r.value.value)
    ensures signal == Some(SellSignal) && r.Ok? ==>
      (r.value.Some? <==> |asks.value| > 0) &&
      (r.value.Some? ==> (exists i :: 0 <= i < |asks.value| && asks.value[i].price == r.value.value)
                         && forall i :: 0 <= i < |asks.value| ==> r.value.value <= asks.value[i].price)
    ensures signal.None? ==> r == Ok(if order.Some? then order.value.price else None)
  {
    var own := if order.Some? then order.value.price else None;
    match signal
    case None => Ok(own)
    case Some(BuySignal) =>
      if bids.None? then Raised(TypeError)
      else if |bids.value| == 0 then Ok(None)
      else Ok(Some(MaxPrice(bids.value)))
    case Some(SellSignal) =>
      if asks.None? then Raised(TypeError)
      else if |asks.value| == 0 then Ok(None)
      else Ok(Some(MinPrice(asks.value)))
  }

  /**
   * The weight of one level against the side's best price `best`
   * (order_book_imbalance.py:127-129, 133-135); `None` when a division by
   * zero raises.
   */
  function Weight(l: Level, best: real): (r: Option<real>)
    ensures best > 0.0 ==> r.Some?
    ensures best == 0.0 ==> r.None?
    ensures r.Some? && l.price == best ==> r.value == l.size
    ensures best > 0.0 && l.size >= 0.0 ==> 0.0 <= r.value <= l.size
  {
    if best == 0.0 then None
    else
      var d := DELTA * (Abs(l.price - best) / best) + BETA;
      if d == 0.0 then None else Some(l.size / d)
  }

  /**
   * The accumulated weight of the levels in order, `None` if some weight
   * raised: an empty side weighs nothing, a positive best price never raises
   * and a zero one raises at the first level.
   */
  function Volume(levels: seq<Level>, best: real): (r: Option<real>)
    ensures |levels| == 0 ==> r == Some(0.0)
    ensures best > 0.0 ==> r.Some?
    ensures best == 0.0 && |levels| > 0 ==> r.None?
    decreases |levels|
  {
    if |levels| == 0 then Some(0.0)
    else match Volume(levels[..|levels| - 1], best)
      case None => None
      case Some(v) =>
        match Weight(levels[|levels| - 1], best)
        case None => None
        case Some(w) => Some(v + w)
  }

  /** Once a weight raises, the whole side raises: the loop never recovers. */
  lemma {:induction false} VolumeFailurePersists(levels: seq<Level>, best: real, i: nat)
    requires i <= |levels| && Volume(levels[..i], best).None?
    ensures Volume(levels, best).None?
    decreases |levels| - i
  {
    if i == |levels| {
      assert levels[..i] == levels;
    } else {
      assert levels[..i + 1][..i] == levels[..i];
      VolumeFailurePersists(levels, best, i + 1);
    }
  }

  /**
   * On a side with a positive best price and non-negative sizes the volume is
   * defined, non-negative, and zero exactly when every size is zero.
   */
  lemma {:induction false} VolumeNonNegative(levels: seq<Level>, best: real)
    requires best > 0.0
    requires forall i :: 0 <= i < |levels| ==> levels[i].size >= 0.0
    ensures Volume(levels, best).Some? && Volume(levels, best).value >= 0.0
    ensures Volume(levels, best).value == 0.0 <==> forall i :: 0 <= i < |levels| ==> levels[i].size == 0.0
    decreases |levels|
  {
    if |levels| > 0 {
      var init := levels[..|levels| - 1];
      var last := levels[|levels| - 1];
      assert forall i :: 0 <= i < |init| ==> init[i] == levels[i];
      VolumeNonNegative(init, best);
      var d := DELTA * (Abs(last.price - best) / best) + BETA;
      assert d > 0.0;
      assert Weight(last, best).value == 0.0 <==> last.size == 0.0 by {
        if last.size > 0.0 { assert last.size / d > 0.0; }
      }
    }
  }

  /** The accumulated weight of the bid side against its best bid; zero for an empty side. */
  function BidVolume(bids: seq<Level>): Option<real> {
    if |bids| == 0 then Some(0.0) else Volume(bids, MaxPrice(bids))
  }

  /** The accumulated weight of the ask side against its best ask; zero for an empty side. */
  function AskVolume(asks: seq<Level>): Option<real> {
    if |asks| == 0 then Some(0.0) else Volume(asks, MinPrice(asks))
  }

  /** `(bid_qty - ask_qty) / (bid_qty + ask_qty)`; a weight that raised or a zero total raises ZeroDivisionError. */
  function Ratio(b: Option<real>, a: Option<real>): Result<real> {
    if b.None? || a.None? || b.value + a.value == 0.0 then Raised(ZeroDivisionError)
    else Ok((b.value - a.value) / (b.value + a.value))
  }

  /**
   * The order-book imbalance of order_book_imbalance.py:122-137. A missing
   * side raises TypeError in `_get_market_price`; a division by zero (a zero
   * best price, or a zero total weight) raises ZeroDivisionError: the source
   * does not guard against it.
   */
  function Imbalance(bids: Option<seq<Level>>, asks: Option<seq<Level>>): (r: Result<real>)
    ensures r == Raised(TypeError) <==> bids.None? || asks.None?
    ensures r.Raised? ==> r.error == TypeError || r.error == ZeroDivisionError
    ensures r.Ok? ==> r.value > 0.0 ==> |bids.value| > 0
    ensures r.Ok? ==> r.value < 0.0 ==> |asks.value| > 0
  {
    if bids.None? || asks.None? then Raised(TypeError)
    else Ratio(BidVolume(bids.value), AskVolume(asks.value))
  }

  /** A book side every level of which has a positive price and a non-negative size. */
  predicate WellFormed(levels: seq<Level>) {
    forall i :: 0 <= i < |levels| ==> levels[i].price > 0.0 && levels[i].size >= 0.0
  }

  /** A ratio of non-negative volumes lies in [-1, 1], strictly inside when both are positive. */
  lemma RatioBounds(b: real, a: real)
    requires b >= 0.0 && a >= 0.0 && b + a > 0.0
    ensures -1.0 <= (b - a) / (b + a) <= 1.0
    ensures b > 0.0 && a > 0.0 ==> -1.0 < (b - a) / (b + a) < 1.0
  {
    var s := b + a;
    var x := (b - a) / s;
    assert x * s == b - a;
  }

  /** A side's volume is defined and non-negative, and zero exactly when its every size is zero. */
  lemma SideVolumes(bids: seq<Level>, asks: seq<Level>)
    requires WellFormed(bids) && WellFormed(asks)
    ensures BidVolume(bids).Some? && BidVolume(bids).value >= 0.0
    ensures BidVolume(bids).value == 0.0 <==> forall i :: 0 <= i < |bids| ==> bids[i].size == 0.0
    ensures AskVolume(asks).Some? && AskVolume(asks).value >= 0.0
    ensures AskVolume(asks).value == 0.0 <==> forall i :: 0 <= i < |asks| ==> asks[i].size == 0.0
  {
    if |bids| > 0 {
      VolumeNonNegative(bids, MaxPrice(bids));
    }
    if |asks| > 0 {
      VolumeNonNegative(asks, MinPrice(asks));
    }
  }

  /**
   * On a well-formed book the imbalance raises only when every size is zero,
   * and otherwise lies in [-1, 1], strictly inside when both sides carry
   * weight.
   */
  lemma ImbalanceBounded(bids: seq<Level>, asks: seq<Level>)
    requires WellFormed(bids) && WellFormed(asks)
    ensures Imbalance(Some(bids), Some(asks)).Raised? <==>
      (forall i :: 0 <= i < |bids| ==> bids[i].size == 0.0) && (forall i :: 0 <= i < |asks| ==> asks[i].size == 0.0)
    ensures Imbalance(Some(bids), Some(asks)).Ok? ==>
      -1.0 <= Imbalance(Some(bids), Some(asks)).value <= 1.0
    ensures (Imbalance(Some(bids), Some(asks)).Ok? &&
      (exists i :: 0 <= i < |bids| && bids[i].size > 0.0) && (exists i :: 0 <= i < |asks| && asks[i].size > 0.0)) ==>
      -1.0 < Imbalance(Some(bids), Some(asks)).value < 1.0
  {
    SideVolumes(bids, asks);
    var b, a := BidVolume(bids).value, AskVolume(asks).value;
    if b + a != 0.0 {
      RatioBounds(b, a);
    }
  }

  /** On non-negative numbers squaring keeps the order. */
  lemma SquaresOrdered(y: real, t: real)
    requires y >= 0.0 && t >= 0.0
    ensures y > t <==> y * y > t * t
  {
    assert y * y - t * t == (y - t) * (y + t);
    var e, f := y - t, y + t;
    if y > t {
      assert e > 0.0 && f > 0.0;
      assert e * f > 0.0;
    } else {
      assert -e >= 0.0 && f >= 0.0;
      assert (-e) * f >= 0.0;
    }
  }

  function Sum(s: seq<real>): real {
    if |s| == 0 then 0.0 else Sum(s[..|s| - 1]) + s[|s| - 1]
  }

  /** The sum of squared deviations of `s` from `m`. */
  function SquaredDeviations(s: seq<real>, m: real): (r: real)
    ensures r >= 0.0
  {
    if |s| == 0 then 0.0
    else
      var d := s[|s| - 1] - m;
      assert d * d >= 0.0;
      SquaredDeviations(s[..|s| - 1], m) + d * d
  }

  /** The sample variance (pandas' `std()` divides by n - 1), the square of the threshold's σ. */
  function SampleVariance(s: seq<real>): (r: real)
    requires |s| >= 2
    ensures r >= 0.0
  {
    SquaredDeviations(s, Sum(s) / |s| as real) / (|s| - 1) as real
  }

  /**
   * The signal for imbalance `x` against variance `v` = σ², comparing squares
   * so that no square root is needed: x > 2σ becomes x > 0 and x² > 4σ².
   */
  function SignalAt(x: real, v: real): Option<Signal> {
    if x > 0.0 && x * x > 4.0 * v then Some(BuySignal)
    else if x < 0.0 && x * x > 4.0 * v then Some(SellSignal)
    else None
  }

  /**
   * SignalAt is the threshold rule of order_book_imbalance.py:145-154 for
   * every σ >= 0 with σ² = v: buy above 2σ, sell below -2σ, otherwise nothing.
   */
  lemma SignalAtIsThreshold(x: real, v: real, sigma: real)
    requires sigma >= 0.0 && sigma * sigma == v
    ensures SignalAt(x, v) == if x > 2.0 * sigma then Some(BuySignal) else if x < -2.0 * sigma then Some(SellSignal) else None
  {
    var t := 2.0 * sigma;
    assert 4.0 * v == t * t;
    if x >= 0.0 {
      SquaresOrdered(x, t);
    } else {
      SquaresOrdered(-x, t);
      assert (-x) * (-x) == x * x;
    }
  }

  /**
   * The signal after the newest imbalance was appended to `history`
   * (order_book_imbalance.py:141-154, with the threshold computed): none
   * until more than PERIOD imbalances exist, then the threshold over the
   * last PERIOD of them, the newest included.
   */
  function SignalFor(history: seq<real>): (r: Option<Signal>)
    requires |history| > 0
    ensures |history| <= PERIOD ==> r.None?
    ensures r == Some(BuySignal) ==> history[|history| - 1] > 0.0
    ensures r == Some(SellSignal) ==> history[|history| - 1] < 0.0
  {
    if |history| > PERIOD
    then SignalAt(history[|history| - 1], SampleVariance(history[|history| - PERIOD..]))
    else None
  }

  /**
   * The same step as written: `pd` is not imported in
   * order_book_imbalance.py, so computing the threshold raises NameError.
   */
  function SignalAsWritten(history: seq<real>): (r: Result<Option<Signal>>)
    requires |history| > 0
    ensures r.Raised? <==> |history| > PERIOD
    ensures r.Raised? ==> r.error == NameError
    ensures r.Ok? ==> r.value.None?
  {
    if |history| > PERIOD then Raised(NameError) else Ok(None)
  }

  lemma {:induction false} ConstantSum(s: seq<real>, c: real)
    requires forall i :: 0 <= i < |s| ==> s[i] == c
    ensures Sum(s) == |s| as real * c
    ensures SquaredDeviations(s, c) == 0.0
    decreases |s|
  {
    if |s| > 0 {
      ConstantSum(s[..|s| - 1], c);
    }
  }

  /**
   * As written, the strategy never produces a directional signal: the step
   * raises as soon as a threshold is needed. With the threshold computed, a
   * steady positive imbalance over PERIOD + 1 ticks gives a buy signal.
   */
  lemma SignalAsWrittenNeverSignals(history: seq<real>, c: real)
    requires |history| > 0
    requires |history| > PERIOD && c > 0.0 && forall i :: 0 <= i < |history| ==> history[i] == c
    ensures SignalAsWritten(history) == Raised(NameError)
    ensures SignalFor(history) == Some(BuySignal)
  {
    var w := history[|history| - PERIOD..];
    ConstantSum(w, c);
    assert Sum(w) / |w| as real == c;
    assert SampleVariance(w) == 0.0;
  }

  /**
   * The cancel decision of `_update_pending_order` (order_book_imbalance.py:
   * 230-240) with the sell branch computing its own price change: cancel when
   * the signal is gone, or when the order is old enough and its price is no
   * longer the padded market price (market + padding for a buy, market -
   * padding for a sell). A missing market price (NaN in Python) never equals
   * the order price.
   */
  function ShouldCancel(signal: Option<Signal>, price: real, market: Option<real>, canBeCancelled: bool): (r: bool)
    ensures signal.None? ==> r
    ensures !canBeCancelled ==> (r <==> signal.None?)
    ensures signal.Some? && market.None? ==> (r <==> canBeCancelled)
  {
    match signal
    case None => true
    case Some(BuySignal) => canBeCancelled && (market.None? || price != market.value + LIMIT_PADDING)
    case Some(SellSignal) => canBeCancelled && (market.None? || price != market.value - LIMIT_PADDING)
  }

  /**
   * The same decision as written: the second branch tests BUY_SIGNAL again
   * (order_book_imbalance.py:235), so a sell signal leaves `price_changed`
   * unassigned and reading it raises UnboundLocalError once the order is old
   * enough to be cancelled.
   */
  function CancelAsWritten(signal: Option<Signal>, price: real, market: Option<real>, canBeCancelled: bool): (r: Result<bool>)
    ensures r.Raised? <==> signal == Some(SellSignal) && canBeCancelled
    ensures r.Raised? ==> r.error == UnboundLocalError
    ensures r.Ok? && signal == Some(SellSignal) ==> !r.value
  {
    match signal
    case None => Ok(true)
    case Some(BuySignal) => Ok(canBeCancelled && (market.None? || price != market.value + LIMIT_PADDING))
    case Some(SellSignal) => if canBeCancelled then Raised(UnboundLocalError) else Ok(false)
  }

  /**
   * The two decisions agree except on a sell signal: as written a sell order
   * is never repriced, and an old one ends the process, where the corrected
   * decision cancels an old sell order whose price has drifted.
   */
  lemma SellRepricingAsWritten(signal: Option<Signal>, price: real, market: Option<real>, canBeCancelled: bool)
    ensures signal != Some(SellSignal) ==>
      CancelAsWritten(signal, price, market, canBeCancelled) == Ok(ShouldCancel(signal, price, market, canBeCancelled))
    ensures signal == Some(SellSignal) ==>
      CancelAsWritten(signal, price, market, canBeCancelled) != Ok(true)
    ensures signal == Some(SellSignal) && canBeCancelled && market == Some(price) ==>
      CancelAsWritten(signal, price, market, canBeCancelled) == Raised(UnboundLocalError) &&
      ShouldCancel(signal, price, market, canBeCancelled)
  {
  }

  /**
   * The corrected decision is symmetric: for either direction an order is
   * kept exactly when it is too young to cancel or sits at the padded price.
   */
  lemma ShouldCancelKeepsPaddedOrders(s: Signal, price: real, m: real, canBeCancelled: bool)
    ensures !ShouldCancel(Some(s), price, Some(m), canBeCancelled) <==>
      !canBeCancelled || price == (if s == BuySignal then m + LIMIT_PADDING else m - LIMIT_PADDING)
  {
  }

  /**
   * Orders are placed at the unpadded market price while the check compares
   * with the padded one, so a buy order placed at an unchanged best bid is
   * cancelled as soon as it is old enough.
   */
  lemma UnpaddedBuyIsRepriced(bid: real)
    ensures ShouldCancel(Some(BuySignal), bid, Some(bid), true)
    ensures !ShouldCancel(Some(BuySignal), bid, Some(bid), false)
  {
  }

  /**
   * A response that ends the tracked order (order_book_imbalance.py:72-99):
   * an error `message`, `done_reason == 'cancelled'`, `status == 'rejected'`,
   * or `status == 'done'` with `settled == True`.
   */
  function Terminal(o: Order): (r: bool)
    ensures o.message.Some? ==> r
    ensures o.status == Some("done") && o.settled != Some(true) ==>
      (r <==> o.message.Some? || o.doneReason == Some("cancelled"))
    ensures o.status == Some("open") && o.message.None? && o.doneReason != Some("cancelled") ==> !r
  {
    || o.message.Some?
    || o.doneReason == Some("cancelled")
    || o.status == Some("rejected")
    || (o.status == Some("done") && o.settled == Some(true))
  }

  /**
   * A directional signal does not meet an empty book side of its own
   * direction, where Python would price the order at `Decimal('NaN')`.
   */
  predicate Priced(signal: Option<Signal>, bids: Option<seq<Level>>, asks: Option<seq<Level>>) {
    match signal
    case None => true
    case Some(BuySignal) => bids.Some? ==> |bids.value| > 0
    case Some(SellSignal) => asks.Some? ==> |asks.value| > 0
  }

  /** Every signal the strategy computes is priced: the imbalance's sign picks a non-empty side. */
  lemma SignalIsPriced(bids: Option<seq<Level>>, asks: Option<seq<Level>>, history: seq<real>)
    requires Imbalance(bids, asks).Ok?
    requires |history| > 0 && history[|history| - 1] == Imbalance(bids, asks).value
    ensures Priced(SignalFor(history), bids, asks)
  {
  }

  /**
   * An exception that the strategy's `except (ConnectionError,
   * JSONDecodeError)` turns into `False`; any other propagates. The name is
   * the builtin ConnectionError, so a requests ConnectionError re-raised by
   * the retry wrapper propagates.
   */
  function Swallow(e: Error): (r: Result<bool>)
    ensures r.Ok? <==> StrategyCatches(e)
    ensures r.Ok? ==> r == Ok(false)
    ensures r.Raised? ==> r.error == e
  {
    if StrategyCatches(e) then Ok(false) else Raised(e)
  }

  /** What `_cancel_order` returns for the reply of `cancel_order` (order_book_imbalance.py:195-201). */
  function Acknowledge(reply: Result<Order>): (r: Result<bool>)
    ensures r == Ok(true) <==> reply.Ok?
    ensures r == Ok(false) <==> reply.Raised? && StrategyCatches(reply.error)
    ensures r.Raised? ==> reply == Raised(r.error)
  {
    if reply.Ok? then Ok(true) else Swallow(reply.error)
  }

  /**
   * When every wrapped attempt fails transiently, the strategy sees the last
   * failure: a JSONDecodeError is swallowed, but the requests
   * ConnectionError the wrapper re-raises is not the builtin one the
   * strategy catches, so it propagates out of `_cancel_order` (and, through
   * Swallow, out of `_track_order` and `_place_order`).
   */
  lemma ExhaustedRetriesReachStrategy(attempts: nat -> Attempt<Order>)
    requires TransientBetween(attempts, 0, MAX_RETRIES)
    ensures Answer(MAX_RETRIES, attempts) == Raised(attempts(MAX_RETRIES - 1).error)
    ensures Acknowledge(Answer(MAX_RETRIES, attempts)) == Ok(false) <==>
      attempts(MAX_RETRIES - 1).error == JSONDecodeError
    ensures Acknowledge(Answer(MAX_RETRIES, attempts)).Raised? <==>
      attempts(MAX_RETRIES - 1).error == RequestsConnectionError
  {
    ExhaustedRaisesLast(MAX_RETRIES, attempts);
  }

  /**
   * The order `_place_order` sends for a directional signal at market price
   * `market`: its price and its size before quantisation, or the exception
   * raised before anything is sent (order_book_imbalance.py:292-326). A buy
   * spends the whole quote balance, a sell offers the whole base balance. A
   * missing quote balance fails in the division (TypeError); a missing base
   * balance fails in `sell`'s `quantize` (AttributeError) before the client
   * is reached.
   */
  function Intent(s: Signal, market: real, accounts: seq<Account>, product: string): (r: Result<(real, real)>)
    ensures r.Ok? ==> r.value.0 == market
    ensures s == BuySignal ==>
      (r.Ok? <==> BalanceOf(accounts, ProductQuote(product)).Some? && market != 0.0) &&
      (r.Ok? ==> r.value.1 * market == BalanceOf(accounts, ProductQuote(product)).value)
    ensures s == SellSignal ==>
      (r.Ok? <==> BalanceOf(accounts, Some(ProductBase(product))).Some?) &&
      (r.Ok? ==> r.value.1 == BalanceOf(accounts, Some(ProductBase(product))).value)
  {
    match s
    case BuySignal =>
      var balance := BalanceOf(accounts, ProductQuote(product));
      if balance.None? then Raised(TypeError)
      else if market == 0.0 then Raised(ZeroDivisionError)
      else Ok((market, balance.value / market))
    case SellSignal =>
      var balance := BalanceOf(accounts, Some(ProductBase(product)));
      if balance.None? then Raised(AttributeError)
      else Ok((market, balance.value))
  }

  /** The request `buy`/`sell` sends: the size floored to 8 decimals. */
  function OrderRequest(s: Signal, price: real, size: real, product: string): Request {
    match s
    case BuySignal => Request.Buy(price, Quantize(size), product)
    case SellSignal => Request.Sell(price, Quantize(size), product)
  }

  /**
   * An order never commits more than the balance it was sized from: a buy
   * at a positive price costs at most the quote balance, a sell offers at
   * most the base balance.
   */
  lemma OrderWithinBalance(s: Signal, market: real, accounts: seq<Account>, product: string)
    requires market > 0.0
    requires Intent(s, market, accounts, product).Ok?
    ensures var (price, size) := Intent(s, market, accounts, product).value;
      match OrderRequest(s, price, size, product)
      case Buy(p, q, _) => p * q <= BalanceOf(accounts, ProductQuote(product)).value
      case Sell(_, q, _) => q <= BalanceOf(accounts, Some(ProductBase(product))).value
      case _ => false
  {
  }

  /** `str.split(sep)`: the pieces between occurrences of `sep`, in order. */
  function Split(s: string, sep: char): (parts: seq<string>)
    ensures |parts| >= 1
    decreases |s|
  {
    if |s| == 0 then [""]
    else
      var rest := Split(s[1..], sep);
      if s[0] == sep then [""] + rest else [[s[0]] + rest[0]] + rest[1..]
  }

  /** `sep.join(parts)`. */
  function Join(parts: seq<string>, sep: char): string
    requires |parts| >= 1
    decreases |parts|
  {
    if |parts| == 1 then parts[0] else parts[0] + [sep] + Join(parts[1..], sep)
  }

  /** Split and join are inverse, no piece contains the separator, and there is one piece more than separators. */
  lemma {:induction false} SplitJoin(s: string, sep: char)
    ensures Join(Split(s, sep), sep) == s
    ensures forall i :: 0 <= i < |Split(s, sep)| ==> sep !in Split(s, sep)[i]
    ensures |Split(s, sep)| == 1 <==> sep !in s
    decreases |s|
  {
    if |s| > 0 {
      SplitJoin(s[1..], sep);
      var rest := Split(s[1..], sep);
      assert s == [s[0]] + s[1..];
      if s[0] == sep {
        assert Split(s, sep)[1..] == rest;
      } else {
        var parts := Split(s, sep);
        assert parts[0] == [s[0]] + rest[0];
        if |rest| > 1 {
          assert parts[1..] == rest[1..];
          assert Join(rest, sep) == rest[0] + [sep] + Join(rest[1..], sep);
        }
        forall i | 0 <= i < |parts| ensures sep !in parts[i] {
          if i > 0 { assert parts[i] == rest[i]; }
        }
        assert sep in s <==> sep in s[1..];
      }
    }
  }

  /**
   * The first piece is the prefix before the first separator, and the
   * remaining pieces are the split of what follows it.
   */
  lemma {:induction false} SplitHead(s: string, sep: char)
    ensures Split(s, sep)[0] <= s
    ensures sep !in Split(s, sep)[0]
    ensures |Split(s, sep)[0]| < |s| ==>
      s[|Split(s, sep)[0]|] == sep && Split(s, sep)[1..] == Split(s[|Split(s, sep)[0]| + 1..], sep)
    ensures |Split(s, sep)[0]| == |s| ==> |Split(s, sep)| == 1
    decreases |s|
  {
    if |s| > 0 && s[0] != sep {
      SplitHead(s[1..], sep);
      var rest := Split(s[1..], sep);
      var head := Split(s, sep)[0];
      assert head == [s[0]] + rest[0];
      assert s == [s[0]] + s[1..];
      if |head| < |s| {
        assert s[|head| + 1..] == s[1..][|rest[0]| + 1..];
      }
    }
  }

  /**
   * `get_product_base` (order_book_imbalance.py:246-260): the part of the
   * product before the first '-', or all of it. `split` never returns an
   * empty list, so the IndexError branch of the source is never taken.
   */
  function ProductBase(product: string): (base: string)
    ensures base <= product && '-' !in base
    ensures |base| == |product| || product[|base|] == '-'
  {
    SplitHead(product, '-');
    Split(product, '-')[0]
  }

  /**
   * `get_product_quote` (order_book_imbalance.py:262-276): the part between
   * the first and the second '-', or `None` when the product has no '-'.
   */
  function ProductQuote(product: string): (quote: Option<string>)
    ensures quote.Some? <==> '-' in product
    ensures quote.Some? ==>
      quote.value == ProductBase(product[|ProductBase(product)| + 1..])
  {
    SplitJoin(product, '-');
    SplitHead(product, '-');
    var parts := Split(product, '-');
    if |parts| >= 2 then
      SplitHead(product[|parts[0]| + 1..], '-');
      Some(parts[1])
    else None
  }

  /** "BTC-USD" is traded in BTC against USD. */
  lemma ProductOfBtcUsd()
    ensures ProductBase("BTC-USD") == "BTC" && ProductQuote("BTC-USD") == Some("USD")
  {
    var p := "BTC-USD";
    var b := ProductBase(p);
    assert |b| == 3;
    assert b == p[..3] == "BTC";
    var rest := p[|b| + 1..];
    assert rest == "USD";
    var q := ProductBase(rest);
    assert |q| == 3;
    assert q == rest;
  }
}
