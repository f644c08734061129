/**
 * The scheduler half of `GDAXTrader` (gdax_trader.py): the registered
 * strategies, one iteration of the trading loop, the conversion of the
 * raw order book into book sides, and the sleep that keeps iterations on
 * a fixed grid. The exchange-facing half is `Exchange.Gateway`.
 */
module GdaxTrader {
  import opened Basics
  import opened Exchange
  import opened StrategyBase
  import opened ObiSignal
  import opened ObiStrategy
  import opened Retry

  /** Seconds between order-book scrapes (gdax_trader.py:38). */
  const FREQUENCY: real := 60.0

  /** Python's `x % FREQUENCY` on floats: the remainder takes the divisor's sign. */
  function FloorMod(x: real): (m: real)
    ensures 0.0 <= m < FREQUENCY
  {
    x - (x / FREQUENCY).Floor as real * FREQUENCY
  }

  /**
   * The pause after an iteration that ended at `now`, for a loop started at
   * `start` (gdax_trader.py:75-76).
   */
  function SleepTime(start: real, now: real): (r: real)
    ensures 0.0 < r <= FREQUENCY
  {
    FREQUENCY - FloorMod(now - start)
  }

  /**
   * The loop wakes on the first multiple of FREQUENCY after `start` that is
   * strictly later than `now`, so a slow iteration does not shift the grid.
   */
  lemma WakesOnGrid(start: real, now: real)
    ensures var k := ((now - start) / FREQUENCY).Floor + 1;
      now + SleepTime(start, now) == start + k as real * FREQUENCY &&
      start + (k - 1) as real * FREQUENCY <= now < start + k as real * FREQUENCY
  {
  }

  /**
   * One side of `_order_book_to_df` (gdax_trader.py:152-164): a missing key
   * gives `None` (the KeyError is caught); otherwise the first row is the
   * header and the others are the side. `pop(0)` on an empty list raises
   * IndexError, which is not caught.
   */
  function StripHeader(raw: RawBook, key: string): (r: Result<Option<seq<Level>>>)
    ensures r == Ok(None) <==> key !in raw
    ensures r.Raised? <==> key in raw && raw[key] == []
    ensures r.Raised? ==> r.error == IndexError
    ensures r.Ok? && r.value.Some? ==> key in raw && [raw[key][0]] + r.value.value == raw[key]
  {
    if key !in raw then Ok(None)
    else if raw[key] == [] then Raised(IndexError)
    else Ok(Some(raw[key][1..]))
  }

  /** Both sides, the bid side first; the first exception wins. */
  function SidesFrom(raw: RawBook, bidKey: string, askKey: string): Result<(Option<seq<Level>>, Option<seq<Level>>)> {
    match StripHeader(raw, bidKey)
    case Raised(e) => Raised(e)
    case Ok(bids) =>
      match StripHeader(raw, askKey)
      case Raised(e) => Raised(e)
      case Ok(asks) => Ok((bids, asks))
  }

  /** `_order_book_to_df` reading the asks from the key the exchange uses, "asks". */
  function SplitBook(raw: RawBook): (r: Result<(Option<seq<Level>>, Option<seq<Level>>)>)
    ensures r.Raised? <==> ("bids" in raw && raw["bids"] == []) || ("asks" in raw && raw["asks"] == [])
    ensures r.Raised? ==> r.error == IndexError
    ensures r.Ok? ==> (r.value.0.Some? <==> "bids" in raw) && (r.value.1.Some? <==> "asks" in raw)
  {
    SidesFrom(raw, "bids", "asks")
  }

  /** `_order_book_to_df` as written: the ask side is read from key "ask" (gdax_trader.py:160). */
  function SplitBookAsWritten(raw: RawBook): (r: Result<(Option<seq<Level>>, Option<seq<Level>>)>)
    ensures r.Raised? <==> ("bids" in raw && raw["bids"] == []) || ("ask" in raw && raw["ask"] == [])
    ensures r.Ok? ==> (r.value.0.Some? <==> "bids" in raw) && (r.value.1.Some? <==> "ask" in raw)
  {
    SidesFrom(raw, "bids", "ask")
  }

  /**
   * A book is split into its bid and ask rows without their header rows,
   * and each side is `None` exactly when its key is missing.
   */
  lemma SplitBookKeepsRows(raw: RawBook)
    requires "bids" in raw ==> raw["bids"] != []
    requires "asks" in raw ==> raw["asks"] != []
    ensures SplitBook(raw).Ok?
    ensures SplitBook(raw).value.0.Some? <==> "bids" in raw
    ensures SplitBook(raw).value.1.Some? <==> "asks" in raw
    ensures "bids" in raw ==> [raw["bids"][0]] + SplitBook(raw).value.0.value == raw["bids"]
    ensures "asks" in raw ==> [raw["asks"][0]] + SplitBook(raw).value.1.value == raw["asks"]
  {
  }

  /**
   * On a book with keys "bids" and "asks", as the exchange sends it, the
   * as-written conversion loses the ask side, and the imbalance of such a
   * snapshot raises TypeError: every strategy fails on every iteration
   * that reaches it. Reading "asks" keeps the ask rows.
   */
  lemma AskKeyLosesAsks(bids: seq<Level>, asks: seq<Level>)
    requires |bids| > 0 && |asks| > 0
    ensures var raw := map["bids" := bids, "asks" := asks];
      && SplitBookAsWritten(raw) == Ok((Some(bids[1..]), None))
      && Imbalance(Some(bids[1..]), None) == Raised(TypeError)
      && SplitBook(raw) == Ok((Some(bids[1..]), Some(asks[1..])))
  {
  }

  /**
   * One strategy call made by an iteration, in the order they happen:
   * `next_data`, then `next` that returned or raised `error`.
   */
  datatype Dispatch = Fed(s: OBIStrategy) | Stepped(s: OBIStrategy) | Failed(s: OBIStrategy, error: Error)

  /** The calls of one full iteration: `next_data` then `next` for each strategy in turn. */
  ghost function Round(ss: seq<OBIStrategy>): seq<Dispatch> {
    if |ss| == 0 then [] else Round(ss[..|ss| - 1]) + [Fed(ss[|ss| - 1]), Stepped(ss[|ss| - 1])]
  }

  /** How many times the `next` of `s` ran in `d`, whether it returned or raised. */
  ghost function Runs(d: seq<Dispatch>, s: OBIStrategy): nat {
    if |d| == 0 then 0
    else Runs(d[..|d| - 1], s) + (if !d[|d| - 1].Fed? && d[|d| - 1].s == s then 1 else 0)
  }

  /** The calls recorded one after the other ran the `next` of `s` as often as both did. */
  lemma {:induction false} RunsAppend(a: seq<Dispatch>, b: seq<Dispatch>, s: OBIStrategy)
    ensures Runs(a + b, s) == Runs(a, s) + Runs(b, s)
    decreases |b|
  {
    if |b| > 0 {
      assert (a + b)[..|a + b| - 1] == a + b[..|b| - 1];
      RunsAppend(a, b[..|b| - 1], s);
    } else {
      assert a + b == a;
    }
  }

  /** Feeding `s` and then running its `next` once ran the `next` of `s`, and of no other, once more. */
  lemma RunsStep(d: seq<Dispatch>, s: OBIStrategy, last: Dispatch, t: OBIStrategy)
    requires !last.Fed? && last.s == s
    ensures Runs(d + [Fed(s), last], t) == Runs(d, t) + (if t == s then 1 else 0)
  {
    RunsAppend(d, [Fed(s), last], t);
    assert [Fed(s), last][..1] == [Fed(s)];
    assert [Fed(s)][..0] == [];
    assert Runs([Fed(s)], t) == 0;
  }

  /** A full iteration over `ss` ran the `next` of each strategy once per registration. */
  lemma {:induction false} RunsRound(ss: seq<OBIStrategy>, s: OBIStrategy)
    ensures Runs(Round(ss), s) == multiset(ss)[s]
  {
    if |ss| > 0 {
      var last := ss[|ss| - 1];
      RunsRound(ss[..|ss| - 1], s);
      RunsStep(Round(ss[..|ss| - 1]), last, Stepped(last), s);
      assert ss == ss[..|ss| - 1] + [last];
    }
  }

  /**
   * An iteration over `ss` that the `next` of the `k`-th strategy cut
   * short ran the `next` of each of the first `k + 1` strategies once per
   * registration among them.
   */
  lemma RunsCutShort(ss: seq<OBIStrategy>, k: nat, e: Error, s: OBIStrategy)
    requires k < |ss|
    ensures Runs(Round(ss[..k]) + [Fed(ss[k]), Failed(ss[k], e)], s) == multiset(ss[..k + 1])[s]
  {
    RunsRound(ss[..k], s);
    RunsStep(Round(ss[..k]), ss[k], Failed(ss[k], e), s);
    assert ss[..k + 1] == ss[..k] + [ss[k]];
  }

  /** Strategy `s` holds the snapshot `accounts`, `bids`, `asks`. */
  ghost predicate Holds(s: OBIStrategy, accounts: seq<Account>, bids: Option<seq<Level>>, asks: Option<seq<Level>>)
    reads s.base
  {
    s.base.accounts == accounts && s.base.bidOrders == bids && s.base.askOrders == asks
  }

  /**
   * What `except (ConnectionError, JSONDecodeError): return False` in
   * `_run_iteration` makes of an exception from a fetch: the name is the
   * requests one there (gdax_trader.py:8), the one the retry wrapper
   * re-raises.
   */
  function SkipIteration(e: Error): (r: Result<bool>)
    ensures r.Ok? <==> IsTransient(e)
    ensures r.Ok? ==> r == Ok(false)
    ensures r.Raised? ==> r.error == e
  {
    if IsTransient(e) then Ok(false) else Raised(e)
  }

  class GDAXTrader {
    const gateway: Gateway
    /** The registered strategies, in registration order. */
    var strategies: seq<OBIStrategy>
    /** Every strategy call made so far. */
    ghost var trace: seq<Dispatch>
    /**
     * For each registered strategy, its step counter less the runs of its
     * `next` recorded, as they stood when it was first registered.
     */
    ghost var registered: map<OBIStrategy, int>

    /** Every registered strategy points back at this trader, and its runs of `next` are all on record. */
    ghost predicate Valid()
      reads this, set s | s in strategies :: s, set s | s in strategies :: s.base
    {
      && (forall s :: s in strategies ==> s.base.trader == gateway)
      && Accounted()
    }

    /**
     * Each registered strategy's `next` has run, since its registration,
     * exactly as often as the calls recorded since then say.
     */
    ghost predicate Accounted()
      reads this`strategies, this`trace, this`registered, (set s | s in strategies :: s)`steps
    {
      forall s :: s in strategies ==> s in registered && s.steps == registered[s] + Runs(trace, s)
    }

    /** gdax_trader.py:43-46, with the product and the client already bound in `gateway`. */
    constructor (gateway: Gateway)
      ensures this.gateway == gateway && strategies == [] && trace == []
      ensures Valid()
    {
      this.gateway := gateway;
      strategies := [];
      trace := [];
      registered := map[];
    }

    /** `add_strategy` (gdax_trader.py:51-53): set the back-reference and append the strategy. */
    method AddStrategy(s: OBIStrategy)
      requires Valid()
      modifies this`strategies, this`registered, s.base`trader
      ensures strategies == old(strategies) + [s]
      ensures s.base.trader == gateway
      ensures Valid()
    {
      s.base.AddTrader(gateway);
      if s !in strategies {
        registered := registered[s := s.steps - Runs(trace, s)];
      }
      strategies := strategies + [s];
    }

    /**
     * The strategies are the same and the step counter of each rose by the
     * number of runs of its `next` that `calls` record: `next` ran that
     * often on it, and on no other.
     */
    twostate predicate StepsBy(new calls: seq<Dispatch>)
      reads this, set s | s in strategies :: s
    {
      && strategies == old(strategies)
      && forall s :: s in strategies ==> s.steps == old(s.steps) + Runs(calls, s)
    }

    /**
     * The strategies were fed `accounts`, `bids` and `asks` and stepped in
     * registration order: all of them with `r == Ok(true)`, or those before
     * the k-th and the k-th, whose step raised `r.error`, which ends the
     * iteration.
     */
    twostate predicate SteppedAll(accounts: seq<Account>, bids: Option<seq<Level>>, asks: Option<seq<Level>>, new r: Result<bool>)
      reads this, set s | s in strategies :: s, set s | s in strategies :: s.base
    {
      && old(trace) <= trace
      && StepsBy(trace[|old(trace)|..])
      && (|| (&& r == Ok(true)
          && trace == old(trace) + Round(strategies)
          && forall j :: 0 <= j < |strategies| ==> Holds(strategies[j], accounts, bids, asks))
      || (&& r.Raised?
          && exists k :: 0 <= k < |strategies| &&
               trace == old(trace) + Round(strategies[..k]) + [Fed(strategies[k]), Failed(strategies[k], r.error)] &&
               forall j :: 0 <= j <= k ==> Holds(strategies[j], accounts, bids, asks)))
    }

    /**
     * The outcome of `_run_iteration` started in the old state: the accounts
     * and then the book are fetched, each through the retry wrapper; a
     * transient failure of either, or a book that is not indexable, skips
     * the iteration with `Ok(false)` and calls no strategy; an empty reply or
     * a side without its header row raises IndexError; otherwise every
     * strategy is fed the snapshot and stepped.
     */
    twostate predicate Iterated(new r: Result<bool>)
      reads this, gateway, set s | s in strategies :: s, set s | s in strategies :: s.base
    {
      var n := |old(gateway.log)|;
      var accounts := old(gateway.NextAccountsReply());
      var fetched := old(gateway.log) + [Request.GetAccounts, Request.GetOrderBook(gateway.product, 2)];
      if accounts.Raised? then
        r == SkipIteration(accounts.error) && gateway.log == old(gateway.log) + [Request.GetAccounts] && trace == old(trace)
      else
        var book := Answer(MAX_RETRIES, gateway.bookAttempts(n + 1));
        if book.Raised? then
          r == SkipIteration(book.error) && gateway.log == fetched && trace == old(trace)
        else if book.value.NotIndexable? then
          r == Ok(false) && gateway.log == fetched && trace == old(trace)
        else if |book.value.items| == 0 then
          r == Raised(IndexError) && gateway.log == fetched && trace == old(trace)
        else match SplitBook(book.value.items[0])
          case Raised(e) =>
            r == Raised(e) && gateway.log == fetched && trace == old(trace)
          case Ok(sides) =>
            && |gateway.log| >= n + 2 && gateway.log[..n + 2] == fetched
            && SteppedAll(accounts.value, sides.0, sides.1, r)
    }

    /**
     * `_run_iteration` (gdax_trader.py:82-116): fetch the accounts and the
     * order book, skipping the iteration (`Ok(false)`) when either fetch
     * fails transiently or the book is not indexable; otherwise hand the same
     * snapshot to every strategy and step each one, in registration order.
     */
    method RunIteration(now: real) returns (r: Result<bool>)
      requires Valid()
      modifies gateway, this`trace
      modifies set s | s in strategies :: s, set s | s in strategies :: s.base
      ensures Valid()
      ensures Iterated(r)
    {
      var accounts := gateway.GetAccounts();
      if accounts.Raised? {
        return SkipIteration(accounts.error);
      }
      var book := gateway.GetOrderBook();
      if book.Raised? {
        return SkipIteration(book.error);
      }
      if book.value.NotIndexable? {
        return Ok(false);
      }
      if |book.value.items| == 0 {
        return Raised(IndexError);
      }
      var sides := SplitBook(book.value.items[0]);
      if sides.Raised? {
        return Raised(sides.error);
      }
      var (bids, asks) := sides.value;
      r := StepAll(accounts.value, bids, asks, now);
    }

    /** The loop of gdax_trader.py:110-116: feed every strategy the snapshot, then step it; an exception stops the loop. */
    method StepAll(accounts: seq<Account>, bids: Option<seq<Level>>, asks: Option<seq<Level>>, now: real)
      returns (r: Result<bool>)
      requires Valid()
      modifies gateway, this`trace
      modifies set s | s in strategies :: s, set s | s in strategies :: s.base
      ensures Valid()
      ensures old(gateway.log) <= gateway.log
      ensures SteppedAll(accounts, bids, asks, r)
    {
      var k;
      r, k := StepUntilRaise(accounts, bids, asks, now);
      if r.Ok? {
        assert strategies[..k] == strategies;
      }
      assert old(trace) + trace[|old(trace)|..] == trace;
      forall t | t in strategies
        ensures Runs(trace, t) == Runs(old(trace), t) + Runs(trace[|old(trace)|..], t)
      {
        RunsAppend(old(trace), trace[|old(trace)|..], t);
      }
    }

    /**
     * Step the strategies in registration order until one raises: `k` of
     * them returned, and the next one, if any, raised `r.error`. A snapshot
     * whose imbalance raises stops the loop at the first strategy, with
     * that error.
     */
    method StepUntilRaise(accounts: seq<Account>, bids: Option<seq<Level>>, asks: Option<seq<Level>>, now: real)
      returns (r: Result<bool>, k: nat)
      requires Valid()
      modifies gateway, this`trace
      modifies set s | s in strategies :: s, set s | s in strategies :: s.base
      ensures Valid()
      ensures old(gateway.log) <= gateway.log
      ensures r.Ok? ==> r == Ok(true) && k == |strategies| && trace == old(trace) + Round(strategies)
      ensures r.Raised? ==> k < |strategies| && trace == old(trace) + Round(strategies[..k]) + [Fed(strategies[k]), Failed(strategies[k], r.error)]
      ensures forall j :: 0 <= j < |strategies| && (j < k || (j == k && r.Raised?)) ==> Holds(strategies[j], accounts, bids, asks)
      ensures Imbalance(bids, asks).Raised? && |strategies| > 0 ==> r == Raised(Imbalance(bids, asks).error) && k == 0
    {
      var ss := strategies;
      k := 0;
      while k < |ss|
        invariant 0 <= k <= |ss| && strategies == ss
        invariant Valid()
        invariant old(gateway.log) <= gateway.log
        invariant trace == old(trace) + Round(ss[..k])
        invariant forall j :: 0 <= j < k ==> Holds(ss[j], accounts, bids, asks)
        invariant Imbalance(bids, asks).Raised? ==> k == 0
      {
        assert ss[k] in strategies;
        var stepped := FeedAndStep(ss[k], k, accounts, bids, asks, now, old(trace));
        if stepped.Raised? {
          return Raised(stepped.error), k;
        }
        k := k + 1;
      }
      assert ss[..k] == ss;
      r := Ok(true);
    }

    /**
     * Feed registered strategy `s` the snapshot, then run its `next`,
     * recording both calls: the step appends the imbalance of the snapshot
     * to the history of `s` when it is defined, and otherwise raises its
     * error and leaves the history as it was.
     */
    method FeedAndStep(s: OBIStrategy, k: nat, accounts: seq<Account>, bids: Option<seq<Level>>, asks: Option<seq<Level>>, now: real,
                       ghost trace0: seq<Dispatch>)
      returns (stepped: Result<()>)
      requires Valid() && k < |strategies| && s == strategies[k]
      requires trace == trace0 + Round(strategies[..k])
      requires forall j :: 0 <= j < k ==> Holds(strategies[j], accounts, bids, asks)
      modifies gateway, this`trace, s`order, s`history, s`steps, s.base`accounts, s.base`bidOrders, s.base`askOrders
      ensures Valid()
      ensures old(gateway.log) <= gateway.log
      ensures s.steps == old(s.steps) + 1
      ensures stepped.Ok? ==> |s.history| == |old(s.history)| + 1
      ensures Imbalance(bids, asks).Ok? ==> s.history == old(s.history) + [Imbalance(bids, asks).value]
      ensures Imbalance(bids, asks).Raised? ==> stepped == Raised(Imbalance(bids, asks).error) && s.history == old(s.history)
      ensures stepped.Ok? ==> trace == trace0 + Round(strategies[..k + 1])
      ensures stepped.Raised? ==> trace == trace0 + Round(strategies[..k]) + [Fed(s), Failed(s, stepped.error)]
      ensures forall j :: 0 <= j <= k ==> Holds(strategies[j], accounts, bids, asks)
    {
      assert s in strategies;
      assert strategies[..k + 1][..k] == strategies[..k];
      s.base.NextData(accounts, bids, asks);
      stepped := s.Next(now);
      var last := if stepped.Raised? then Failed(s, stepped.error) else Stepped(s);
      forall t | t in strategies
        ensures Runs(trace + [Fed(s), last], t) == Runs(trace, t) + (if t == s then 1 else 0)
      {
        RunsStep(trace, s, last, t);
      }
      trace := trace + [Fed(s), last];
      forall j | 0 <= j <= k
        ensures Holds(strategies[j], accounts, bids, asks)
      {
        if strategies[j].base != s.base {
          assert old(Holds(strategies[j], accounts, bids, asks));
        }
      }
    }

    /**
     * One pass of `run` (gdax_trader.py:66-80) for a loop started at
     * `start`: an iteration at time `now`, whatever its outcome, then the
     * pause computed at `later`, when the iteration has finished. Only an
     * exception out of the iteration ends the loop, with no pause.
     */
    method Tick(start: real, now: real, later: real) returns (success: Result<bool>, sleep: Option<real>)
      requires Valid()
      modifies gateway, this`trace
      modifies set s | s in strategies :: s, set s | s in strategies :: s.base
      ensures Valid()
      ensures Iterated(success)
      ensures sleep.None? <==> success.Raised?
      ensures sleep.Some? ==> sleep.value == SleepTime(start, later) && 0.0 < sleep.value <= FREQUENCY
    {
      success := RunIteration(now);
      if success.Raised? {
        return success, None;
      }
      return success, Some(SleepTime(start, later));
    }
  }
}
