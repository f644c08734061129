/**
 * `OBIStrategy` (strategies/order_book_imbalance.py): one tick of the
 * order-book-imbalance strategy. The strategy holds at most one order at a
 * time; every tick it computes a signal, polls the tracked order, and then
 * either reprices or cancels the order, or places a new one.
 *
 * The `Strategy` base class is reached through `base`. Exceptions the source
 * does not catch end the tick as `Raised`.
 */
module ObiStrategy {
  import opened Basics
  import opened Exchange
  import opened StrategyBase
  import opened ObiSignal

  /** The order can be polled or cancelled: there is one and it carries an `id`. */
  predicate HasId(o: Option<Order>) {
    o.Some? && o.value.id.Some?
  }

  /** The order carries the `price` and `created_at` that repricing reads. */
  predicate Dated(o: Option<Order>) {
    o.Some? && o.value.price.Some? && o.value.createdAt.Some?
  }

  /**
   * Summing the weights of one side, as the loops of
   * order_book_imbalance.py:125-135 do; `None` when a weight divides by zero.
   */
  method SideQuantity(levels: seq<Level>, best: real) returns (r: Option<real>)
    ensures r == Volume(levels, best)
  {
    var qty := 0.0;
    var i := 0;
    while i < |levels|
      invariant 0 <= i <= |levels|
      invariant Volume(levels[..i], best) == Some(qty)
    {
      assert levels[..i + 1][..i] == levels[..i];
      var w := Weight(levels[i], best);
      if w.None? {
        VolumeFailurePersists(levels, best, i + 1);
        return None;
      }
      qty := qty + w.value;
      i := i + 1;
    }
    assert levels[..i] == levels;
    return Some(qty);
  }

  class OBIStrategy {
    const base: Strategy
    /** The open order, as last returned by the exchange. */
    var order: Option<Order>
    /** `order_book_imbalance`: one imbalance per tick, oldest first. */
    var history: seq<real>
    /** How many times `next` has run on this strategy. */
    ghost var steps: nat

    /**
     * A tracked order is never an error response: a stated invariant, which
     * the constructor establishes and every method that sets the order keeps.
     */
    predicate Valid()
      reads this
    {
      order.Some? ==> order.value.message.None?
    }

    /** `Strategy.__init__` (strategy.py:20-26), which ends by running `set_up` once. */
    constructor ()
      ensures fresh(base)
      ensures base.trader == null && base.accounts == [] && base.bidOrders == None && base.askOrders == None
      ensures order == None && history == [] && steps == 0
      ensures Valid()
    {
      base := new Strategy();
      steps := 0;
      new;
      SetUp();
    }

    /** `set_up` (order_book_imbalance.py:30-32): no order and no imbalance history. */
    method SetUp()
      modifies this`order, this`history
      ensures order == None && history == []
    {
      order := None;
      history := [];
    }

    /**
     * `_get_trade_signal` (order_book_imbalance.py:107-158): append the
     * imbalance of the current snapshot to the history and return the signal
     * it gives, with the threshold computed (ObiSignal.SignalFor) where line
     * 144 raises NameError. When the imbalance raises, nothing is appended.
     */
    method GetTradeSignal() returns (r: Result<Option<Signal>>)
      modifies this`history
      ensures Imbalance(base.bidOrders, base.askOrders).Raised? ==>
        r == Raised(Imbalance(base.bidOrders, base.askOrders).error) && history == old(history)
      ensures Imbalance(base.bidOrders, base.askOrders).Ok? ==>
        history == old(history) + [Imbalance(base.bidOrders, base.askOrders).value] &&
        r == Ok(SignalFor(history))
    {
      var bestBid := MarketPrice(Some(BuySignal), order, base.bidOrders, base.askOrders);
      if bestBid.Raised? {
        return Raised(bestBid.error);
      }
      var bestAsk := MarketPrice(Some(SellSignal), order, base.bidOrders, base.askOrders);
      if bestAsk.Raised? {
        return Raised(bestAsk.error);
      }
      var bidQty := Some(0.0);
      if bestBid.value.Some? {
        bidQty := SideQuantity(base.bidOrders.value, bestBid.value.value);
      }
      if bidQty.None? {
        return Raised(ZeroDivisionError);
      }
      var askQty := Some(0.0);
      if bestAsk.value.Some? {
        askQty := SideQuantity(base.askOrders.value, bestAsk.value.value);
      }
      if askQty.None? || bidQty.value + askQty.value == 0.0 {
        return Raised(ZeroDivisionError);
      }
      var imbalance := (bidQty.value - askQty.value) / (bidQty.value + askQty.value);
      history := history + [imbalance];
      r := Ok(SignalFor(history));
    }

    /**
     * `_track_order` (order_book_imbalance.py:51-105): poll the tracked order
     * once; clear it on a terminal response, replace it with any other
     * response, keep it when the poll raises an exception the strategy
     * catches (see ObiSignal.Swallow).
     */
    method TrackOrder() returns (r: Result<bool>)
      requires base.trader != null
      modifies this`order, base.trader
      ensures !HasId(old(order)) ==> r == Ok(false) && order == old(order) && unchanged(base.trader)
      ensures HasId(old(order)) ==>
        base.trader.Made(Request.GetOrder(old(order).value.id.value), base.trader.orderAttempts(old(|base.trader.log|)))
      ensures HasId(old(order)) && old(base.trader.NextOrderReply()).Raised? ==>
        order == old(order) && r == Swallow(old(base.trader.NextOrderReply()).error)
      ensures HasId(old(order)) && old(base.trader.NextOrderReply()).Ok? ==>
        var o := old(base.trader.NextOrderReply()).value;
        if Terminal(o) then order == None && r == Ok(false) else order == Some(o) && r == Ok(true)
      ensures r == Ok(true) ==> order.Some? && !Terminal(order.value)
      ensures Valid() <== old(Valid())
    {
      if !HasId(order) {
        return Ok(false);
      }
      var reply := base.trader.GetOrder(order.value.id.value);
      match reply {
        case Raised(e) =>
          return Swallow(e);
        case Ok(o) =>
          if Terminal(o) {
            order := None;
            return Ok(false);
          }
          order := Some(o);
          return Ok(true);
      }
    }

    /**
     * `_cancel_order` (order_book_imbalance.py:183-201): ask the exchange to
     * cancel the tracked order. The tracked order itself is left for the next
     * poll to clear.
     */
    method CancelOrder() returns (r: Result<bool>)
      requires base.trader != null
      modifies base.trader
      ensures !HasId(order) ==> r == Ok(false) && unchanged(base.trader)
      ensures HasId(order) ==>
        base.trader.Made(Request.CancelOrder(order.value.id.value), base.trader.orderAttempts(old(|base.trader.log|))) &&
        r == Acknowledge(old(base.trader.NextOrderReply()))
    {
      if !HasId(order) {
        return Ok(false);
      }
      var reply := base.trader.CancelOrder(order.value.id.value);
      r := Acknowledge(reply);
    }

    /**
     * The outcome of the repricing decision on the current state at time
     * `now` (seconds): `Ok(None)` when the order lacks a price or a creation
     * time, the exception when the market price raises, and otherwise
     * whether to cancel.
     */
    function Decision(signal: Option<Signal>, now: real): Result<Option<bool>>
      reads this, base
    {
      if !Dated(order) then Ok(None)
      else
        var market := MarketPrice(signal, order, base.bidOrders, base.askOrders);
        if market.Raised? then Raised(market.error)
        else
          var o := order.value;
          Ok(Some(ShouldCancel(signal, o.price.value, market.value, now - o.createdAt.value > MINIMUM_HOLD_TIME)))
    }

    /**
     * `_update_pending_order` (order_book_imbalance.py:203-244), with the
     * sell branch comparing against market - padding: cancel the order when
     * the signal is gone, or when it has been held longer than
     * MINIMUM_HOLD_TIME and its price is no longer the padded market price.
     */
    method UpdatePendingOrder(signal: Option<Signal>, now: real) returns (r: Result<bool>)
      requires base.trader != null
      modifies base.trader
      ensures Decision(signal, now) == Ok(None) ==> r == Ok(false) && unchanged(base.trader)
      ensures Decision(signal, now).Raised? ==> r == Raised(Decision(signal, now).error) && unchanged(base.trader)
      ensures Decision(signal, now) == Ok(Some(false)) ==> r == Ok(true) && unchanged(base.trader)
      ensures Decision(signal, now) == Ok(Some(true)) && !HasId(order) ==> r == Ok(true) && unchanged(base.trader)
      ensures Decision(signal, now) == Ok(Some(true)) && HasId(order) ==>
        base.trader.Made(Request.CancelOrder(order.value.id.value), base.trader.orderAttempts(old(|base.trader.log|))) &&
        var ack := Acknowledge(old(base.trader.NextOrderReply()));
        r == if ack.Raised? then ack else Ok(true)
    {
      if !Dated(order) {
        return Ok(false);
      }
      var price := order.value.price.value;
      var createdAt := order.value.createdAt.value;
      var market := MarketPrice(signal, order, base.bidOrders, base.askOrders);
      if market.Raised? {
        return Raised(market.error);
      }
      var canBeCancelled := now - createdAt > MINIMUM_HOLD_TIME;
      if ShouldCancel(signal, price, market.value, canBeCancelled) {
        var cancelled := CancelOrder();
        if cancelled.Raised? {
          return cancelled;
        }
      }
      return Ok(true);
    }

    /**
     * `_place_order` (order_book_imbalance.py:278-330): with no tracked order
     * and a directional signal, send one post-only order at the unpadded
     * market price, sized from the balances, and track the reply unless it
     * is an error message.
     */
    method PlaceOrder(signal: Option<Signal>) returns (r: Result<bool>)
      requires base.trader != null
      requires Priced(signal, base.bidOrders, base.askOrders)
      modifies this`order, base.trader
      ensures old(order).Some? || signal.None? ==> r == Ok(false) && order == old(order) && unchanged(base.trader)
      ensures old(order).None? && signal.Some? && MarketPrice(signal, None, base.bidOrders, base.askOrders).Raised? ==>
        r == Raised(TypeError) && order == None && unchanged(base.trader)
      ensures old(order).None? && signal.Some? && MarketPrice(signal, None, base.bidOrders, base.askOrders).Ok? ==>
        var market := MarketPrice(signal, None, base.bidOrders, base.askOrders).value;
        market.Some? &&
        var intent := Intent(signal.value, market.value, base.accounts, base.trader.product);
        (intent.Raised? ==> r == Raised(intent.error) && order == None && unchanged(base.trader)) &&
        (intent.Ok? ==>
          base.trader.Made(OrderRequest(signal.value, intent.value.0, intent.value.1, base.trader.product),
                           base.trader.orderAttempts(old(|base.trader.log|))) &&
          var reply := old(base.trader.NextOrderReply());
          (reply.Raised? ==> order == None && r == Swallow(reply.error)) &&
          (reply.Ok? ==> r == Ok(true) && order == if reply.value.message.None? then Some(reply.value) else None))
      ensures Valid() <== old(Valid())
    {
      if order.Some? {
        return Ok(false);
      }
      var market := MarketPrice(signal, order, base.bidOrders, base.askOrders);
      if market.Raised? {
        return Raised(market.error);
      }
      if signal.None? {
        return Ok(false);
      }
      var price := market.value.value;
      var trader := base.trader;
      var reply: Result<Order>;
      if signal.value == BuySignal {
        var balance := base.GetCurrencyBalance(ProductQuote(trader.product));
        if balance.None? {
          return Raised(TypeError);
        }
        if price == 0.0 {
          return Raised(ZeroDivisionError);
        }
        reply := trader.Buy(price, balance.value / price, trader.product);
      } else {
        var balance := base.GetCurrencyBalance(Some(ProductBase(trader.product)));
        if balance.None? {
          return Raised(AttributeError);
        }
        reply := trader.Sell(price, balance.value, trader.product);
      }
      match reply {
        case Raised(e) =>
          return Swallow(e);
        case Ok(o) =>
          if o.message.None? {
            order := Some(o);
          }
          return Ok(true);
      }
    }

    /**
     * `next` (order_book_imbalance.py:34-49): compute the signal, poll the
     * tracked order, then reprice it if it is still open or else place a new
     * one. A tick appends the snapshot's imbalance when it is defined and
     * makes at most two wrapped calls; when the imbalance raises, the tick
     * raises the same error, makes no call and leaves the order untouched.
     */
    method Next(now: real) returns (r: Result<()>)
      requires base.trader != null
      modifies this`order, this`history, this`steps, base.trader
      ensures steps == old(steps) + 1
      ensures old(history) <= history && |history| <= |old(history)| + 1
      ensures r.Ok? ==> |history| == |old(history)| + 1
      ensures Imbalance(base.bidOrders, base.askOrders).Ok? ==>
        history == old(history) + [Imbalance(base.bidOrders, base.askOrders).value]
      ensures Imbalance(base.bidOrders, base.askOrders).Raised? ==>
        && r == Raised(Imbalance(base.bidOrders, base.askOrders).error)
        && history == old(history) && order == old(order) && unchanged(base.trader)
      ensures old(base.trader.log) <= base.trader.log && |base.trader.log| <= |old(base.trader.log)| + 2
      ensures Valid() <== old(Valid())
    {
      steps := steps + 1;
      var signal := GetTradeSignal();
      if signal.Raised? {
        return Raised(signal.error);
      }
      var tracked := TrackOrder();
      if tracked.Raised? {
        return Raised(tracked.error);
      }
      if tracked.value {
        var updated := UpdatePendingOrder(signal.value, now);
        if updated.Raised? {
          return Raised(updated.error);
        }
        return Ok(());
      }
      SignalIsPriced(base.bidOrders, base.askOrders, history);
      var placed := PlaceOrder(signal.value);
      if placed.Raised? {
        return Raised(placed.error);
      }
      return Ok(());
    }
  }
}
