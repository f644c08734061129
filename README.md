# GDAX order-book-imbalance trader, modelled in Dafny

This project models the core of a small GDAX trading bot: the
order-book-imbalance strategy (`OBIStrategy`), its `Strategy` base class, the
`connection_retry` decorator that wraps every exchange call, and the
scheduling half of `GDAXTrader`.

Every minute the trader fetches the accounts and the level-2 order book. It
skips the iteration when either fetch fails transiently (a requests
`ConnectionError` or a `JSONDecodeError` that survived the retries), and otherwise hands
the same snapshot to every registered strategy and steps it. The strategy
works as follows:

- It weights each book level by its proximity to the best price, as
  `size / (2·|price − best| / best + 1)`.
- It computes the imbalance `(bid − ask) / (bid + ask)` and appends it to a
  history that only grows.
- Once more than 30 imbalances exist, it signals BUY above twice the sample
  standard deviation of the last 30 and SELL below minus twice that.
- It holds at most one order at a time. Every tick it polls that order: a
  terminal response clears it, any other response replaces it, and a
  failure the strategy catches leaves it alone.
- With an open order it reprices (cancels) the order. Otherwise it places a
  post-only limit order at the market price, sized from the account balances
  and floored to 8 decimal places.

Modules, one per source file (plus shared types):

| module | file | source |
|---|---|---|
| `Basics` | basics.dfy | `Option`, the Python exceptions that matter, `Result` (a value or the exception raised instead) |
| `Retry` | retry.dfy | utils.py, `connection_retry` |
| `Exchange` | exchange.dfy | gdax_trader.py: payloads, size quantisation, the wrapped client calls (`Gateway`) |
| `StrategyBase` | strategy.dfy | strategy.py |
| `ObiSignal` | obi_signal.dfy | the pure computations of strategies/order_book_imbalance.py |
| `ObiStrategy` | obi_strategy.dfy | the `OBIStrategy` class: signal, polling, repricing, placing |
| `GdaxTrader` | gdax_trader.dfy | gdax_trader.py: strategies, one iteration, the book conversion, the sleep |

Modelling choices:

- **Split trader class.** `GDAXTrader` is split in two classes.
  `Exchange.Gateway` is the part a strategy reaches through its `trader`
  back-reference: the product and the wrapped calls. `GdaxTrader.GDAXTrader`
  holds the strategy list and runs the iterations. The split lets the
  strategy and the trader modules import each other in one direction only.
- **Scripted exchange.** The exchange is a script: `attempts(n)(i)` is what
  the client does on attempt `i` of the `n`-th wrapped call. `Gateway.log`
  records every request with its arguments, and `invocations`/`pauses` count
  client calls and rate-limit sleeps.
- **Inheritance as composition.** `OBIStrategy` inherits from `Strategy`. In
  the model it holds its `Strategy` part as `base`.
- **Exceptions.** An exception that the source does not catch ends the
  process. In the model it becomes `Raised(error)`, and every caller passes
  it on unchanged.
- **Exact arithmetic.** Prices, sizes and times are exact `real`s. The
  threshold `x > 2σ` is stated on squares (`x > 0 ∧ x² > 4σ²`), so no square
  root is needed. `SignalAtIsThreshold` proves this equal to the comparison
  with σ.
- **Corrected defects.** The rest of the model uses the corrected
  definitions of the four defects listed under Findings. Each defect is also
  modelled as written, and a lemma exhibits it.
- **Two ConnectionErrors.** utils.py:5 and gdax_trader.py:8 import
  `requests.exceptions.ConnectionError`, so the retry wrapper and
  `_run_iteration` catch that class (`Basics.IsTransient`).
  strategies/order_book_imbalance.py imports no ConnectionError, so its four
  `except (ConnectionError, JSONDecodeError)` clauses catch Python's builtin
  class (`Basics.StrategyCatches`). Neither class derives from the other. The
  model keeps the two apart: a requests ConnectionError that the wrapper
  re-raises after its last retry is not caught by the strategy. It propagates
  out of `next`, and out of `_run_iteration` and `run`
  (`ObiSignal.ExhaustedRetriesReachStrategy`). A builtin ConnectionError from
  the client escapes the wrapper at once and is swallowed by the strategy.
- **Recorded calls.** The trader keeps a ghost `trace` of every
  `next_data` and `next` call it makes, with `next`'s outcome. Each strategy
  has a ghost `steps` counter that only `next` increments. The trader's
  invariant `Valid` ties the two: since a strategy was registered, its
  counter has risen by exactly the runs of its `next` that the trace
  records. Both are ghost bookkeeping that `FeedAndStep` keeps next to its
  calls, so they count runs of `next` without proving by themselves that
  `next` was called. What ties a step to `next` itself is the effect only
  `next` has: the imbalance it appends to the strategy's history, and the
  error it raises when that imbalance is undefined (see Left out for the
  rest).
- **Order prices.** `_place_order` sends the unpadded market price, while
  `_update_pending_order` compares the order with the padded price. A fresh
  buy order at an unchanged best bid is therefore cancelled once it is older
  than 20 s (`ObiSignal.UnpaddedBuyIsRepriced`). The model keeps this as
  written.

## Model

| member | source | states |
|---|---|---|
| Retry.Wrapper | utils.py:23-48 | The wrapper's result, number of calls and number of sleeps are those of the counted loop over the attempt script, followed by the check as written. |
| Retry.Loop | utils.py:29-42 | The counter never decreases and stays within the budget. The loop ends with data exactly when an attempt returned, and the data is that attempt's value. When no attempt returned, the whole budget was used. An exception escapes only from an attempt within the budget whose error the wrapper does not catch. |
| Retry.AsWritten | utils.py:44-48 | As written, a returned value is the loop's data. A raised error is the escaping one or the last transient one, and a transient one is raised only once the counter reached `max_retries`. |
| Retry.Intended | utils.py:18 | As documented, a returned value is the loop's data. A raised error is the escaping one or the last transient one, and a transient one is raised only when no attempt returned. |
| Retry.FirstAttemptSucceeds | utils.py:29-33 | When the first attempt returns, its value is returned after exactly one call and one pause. |
| Retry.SucceedsAfterRetries | utils.py:29-42 | After k transient failures, a success before the last allowed attempt is returned after k + 1 calls and k + 1 pauses. |
| Retry.ExhaustedRaisesLast | utils.py:36-46 | When every one of the `max` attempts fails transiently, the function is called `max` times, pauses `max` times and re-raises the last error. |
| Retry.OtherErrorEscapes | utils.py:31-38 | A non-transient exception at attempt k propagates at once: k + 1 calls and only k pauses. |
| Retry.NoBudgetNoCall | utils.py:24-29 | With `max_retries <= 0` the function is never called and `None` is returned. |
| Retry.CallsWithinBudget | utils.py:29-42 | The calls never exceed the budget, and the pauses equal the calls, less one when an exception escaped. |
| Retry.LoopStopsAt | utils.py:29-33 | The loop stops at the first attempt that does not fail transiently. |
| Retry.LoopExhausts | utils.py:29-42 | Transient failures up to the budget end the loop with the counter at `max` and the last error kept. |
| Retry.LastSuccessStillRaises | utils.py:45-46 | As written, a success on the last allowed attempt after a transient failure still raises that earlier failure, although the documented behaviour returns the value. |
| Retry.FifthAttemptSuccessRaises | utils.py:45-46 | For the trader's budget of 5: four requests ConnectionErrors and then a value raise that ConnectionError as written, and return the value as documented. |
| Retry.IntendedRaisesOnlyWhenAllFail | utils.py:18 | The documented behaviour raises a transient error if and only if every attempt failed transiently. |
| Retry.IntendedHasData | utils.py:29-48 | With a positive budget, the documented behaviour never returns `None` in place of a value. |
| Retry.AnswerComesFromAnAttempt | utils.py:32-33 | A returned value is the value of one of the attempts within the budget. |
| Retry.Answer | utils.py:23-48 | The corrected outcome of a wrapped call returns only a value that some attempt within the budget returned. |
| Exchange.Quantize | gdax_trader.py:226-227 | The size sent is a multiple of 10^-8, at most the size and less than 10^-8 below it. |
| Exchange.QuantizeIsGreatest | gdax_trader.py:226-227 | The quantised size is the greatest multiple of 10^-8 that does not exceed the size (ROUND_FLOOR). |
| Exchange.QuantizeIdempotent | gdax_trader.py:254-255 | Quantising an already quantised size leaves it unchanged. |
| Exchange.Gateway.constructor | gdax_trader.py:43-49 | The trader starts with its product and client bound, and no call has been made yet. |
| Exchange.Gateway.Call | gdax_trader.py:168-277 | One call wrapped with `connection_retry(MAX_RETRIES, RATE_LIMIT)`: the request is logged, the client invocations and pauses grow by those of the retry loop, and the outcome is the documented one. It keeps the pacing invariant `Paced`: at most MAX_RETRIES invocations per call, and a pause after every invocation except one whose exception escaped. |
| Exchange.Gateway.GetAccounts | gdax_trader.py:179-187 | One wrapped `get_accounts` call is logged, with its invocations and pauses. Its outcome is that of the script. |
| Exchange.Gateway.GetOrderBook | gdax_trader.py:168-177 | One wrapped level-2 book request for the trader's product is logged. Its outcome is that of the script. |
| Exchange.Gateway.GetOrder | gdax_trader.py:189-198 | One wrapped `get_order(id)` is logged. |
| Exchange.Gateway.Buy | gdax_trader.py:211-237 | One wrapped buy is logged, at the given price and with the size floored to 8 decimals, for the given product. |
| Exchange.Gateway.Sell | gdax_trader.py:239-265 | One wrapped sell is logged, at the given price and with the size floored to 8 decimals. |
| Exchange.Gateway.CancelOrder | gdax_trader.py:267-277 | One wrapped `cancel_order(id)` is logged. |
| StrategyBase.BalanceOf | strategy.py:81-88 | A balance found belongs to an account of the requested currency. A usable first account gives its balance, and a currency of `None` finds nothing. |
| StrategyBase.BalanceOfIsFirstUsable | strategy.py:81-88 | The lookup finds a balance if and only if some account is usable, and then it is the balance of the first usable account; every earlier entry names another currency or is malformed. |
| StrategyBase.Strategy.constructor | strategy.py:20-26 | A strategy starts with no trader, no accounts and no book sides. |
| StrategyBase.Strategy.AddTrader | strategy.py:35-36 | Only the trader back-reference changes. |
| StrategyBase.Strategy.NextData | strategy.py:58-69 | Exactly the accounts and the two book sides are overwritten; the trader is not changed. |
| StrategyBase.Strategy.GetCurrencyBalance | strategy.py:71-88 | The loop returns the balance of the first account of the currency whose balance is present, skips malformed entries, and returns `None` if and only if no account is usable. |
| ObiSignal.MaxPrice | strategies/order_book_imbalance.py:176 | The best bid is a price on the side and no level is priced higher. |
| ObiSignal.MinPrice | strategies/order_book_imbalance.py:179 | The best ask is a price on the side and no level is priced lower. |
| ObiSignal.MarketPrice | strategies/order_book_imbalance.py:160-181 | For BUY the result is the highest bid, for SELL the lowest ask, and otherwise the tracked order's price or `None`. A missing side raises TypeError, and an empty side has no price. |
| ObiSignal.Weight | strategies/order_book_imbalance.py:127-129 | A positive best price never raises and a zero one always does. A level at the best price weighs its size, and against a positive best price a level of non-negative size weighs between 0 and its size. |
| ObiSignal.Volume | strategies/order_book_imbalance.py:125-135 | An empty side weighs 0. Against a positive best price the sum never raises, and against a zero one a non-empty side raises. |
| ObiSignal.VolumeFailurePersists | strategies/order_book_imbalance.py:125-135 | Once one weight divides by zero, the whole side raises. |
| ObiSignal.VolumeNonNegative | strategies/order_book_imbalance.py:125-135 | On a side with a positive best price and non-negative sizes, the summed weight is defined and non-negative, and it is zero if and only if every size is zero. |
| ObiSignal.RatioBounds | strategies/order_book_imbalance.py:137 | `(b − a)/(b + a)` of non-negative volumes lies in [−1, 1], strictly inside when both are positive. |
| ObiSignal.SideVolumes | strategies/order_book_imbalance.py:122-135 | On a well-formed book, each side's volume against its best price is defined and non-negative, and is zero exactly when all its sizes are zero. |
| ObiSignal.Imbalance | strategies/order_book_imbalance.py:122-137 | A missing side raises TypeError, and only a missing side does. The only other exception is ZeroDivisionError. A positive imbalance needs a non-empty bid side, and a negative one a non-empty ask side. |
| ObiSignal.ImbalanceBounded | strategies/order_book_imbalance.py:122-137 | On a well-formed book, the imbalance raises if and only if every size is zero (the unguarded division). Otherwise it lies in [−1, 1], strictly inside when both sides carry weight. |
| ObiSignal.SquaredDeviations | strategies/order_book_imbalance.py:144 | A sum of squared deviations is never negative. |
| ObiSignal.SampleVariance | strategies/order_book_imbalance.py:144 | The sample variance (divisor n − 1), the square of the threshold, is never negative. |
| ObiSignal.SquaresOrdered | strategies/order_book_imbalance.py:151-153 | On non-negative numbers, comparing squares is the same as comparing the numbers. |
| ObiSignal.SignalAtIsThreshold | strategies/order_book_imbalance.py:145-154 | For σ ≥ 0 with σ² the variance, the signal is BUY if and only if the imbalance exceeds 2σ, SELL if and only if it is below −2σ, and otherwise none. |
| ObiSignal.SignalFor | strategies/order_book_imbalance.py:141-154 | With the threshold computed: no signal while there are at most PERIOD imbalances. BUY needs a positive newest imbalance and SELL a negative one. |
| ObiSignal.SignalAsWritten | strategies/order_book_imbalance.py:141-154 | As written, the step raises NameError if and only if there are more than PERIOD imbalances, and otherwise gives no signal: never a directional one. |
| ObiSignal.ConstantSum | strategies/order_book_imbalance.py:144 | A window of equal values has that value as its mean and no deviation. |
| ObiSignal.SignalAsWrittenNeverSignals | strategies/order_book_imbalance.py:141-154 | For a steady positive imbalance over more than PERIOD ticks, the code as written raises NameError, while the computed threshold gives BUY. |
| ObiSignal.ShouldCancel | strategies/order_book_imbalance.py:230-240 | With the sell branch corrected: no signal always cancels. An order too young to cancel is kept while a signal lasts. Without a market price, an old order is cancelled. |
| ObiSignal.CancelAsWritten | strategies/order_book_imbalance.py:230-240 | As written, the decision raises UnboundLocalError if and only if the signal is SELL and the order is old enough to cancel, and on SELL it never cancels. |
| ObiSignal.SellRepricingAsWritten | strategies/order_book_imbalance.py:232-240 | The decision as written agrees with the corrected one except on SELL. There it never cancels, and for an old sell order whose price moved it raises UnboundLocalError where the corrected decision cancels. |
| ObiSignal.ShouldCancelKeepsPaddedOrders | strategies/order_book_imbalance.py:230-240 | With the corrected sell branch, an order is kept if and only if it is too young to cancel or sits exactly at the padded market price of its direction. |
| ObiSignal.UnpaddedBuyIsRepriced | strategies/order_book_imbalance.py:233 | A buy order priced at an unchanged best bid is cancelled once it is older than the hold time, and kept before. |
| ObiSignal.Terminal | strategies/order_book_imbalance.py:72-101 | A response with a `message` ends the order. An order reported done but not settled ends only with a message or as cancelled. An open order with no message that was not cancelled is kept. |
| ObiSignal.SignalIsPriced | strategies/order_book_imbalance.py:122-154 | Every computed signal meets a non-empty book side of its own direction. |
| ObiSignal.Swallow | strategies/order_book_imbalance.py:68-70 | The builtin ConnectionError and JSONDecodeError become `False`; any other exception propagates unchanged, including the requests ConnectionError. |
| ObiSignal.Acknowledge | strategies/order_book_imbalance.py:195-201 | A reply gives True. A failure gives False if and only if the strategy catches it; any other failure propagates unchanged. |
| ObiSignal.ExhaustedRetriesReachStrategy | strategies/order_book_imbalance.py:195-201 | When every attempt of a wrapped order call fails transiently, the call raises the last failure. The strategy swallows it if and only if it is a JSONDecodeError, and lets it propagate if and only if it is the requests ConnectionError. |
| ObiSignal.Intent | strategies/order_book_imbalance.py:292-326 | A buy is priced at the market price with size quote balance / price, and raises when the balance is missing or the price is zero. A sell offers the whole base balance and raises AttributeError when it is missing. |
| ObiSignal.OrderWithinBalance | strategies/order_book_imbalance.py:295-318 | At a positive price, a buy never costs more than the quote balance, and a sell never offers more than the base balance. |
| ObiSignal.Split | strategies/order_book_imbalance.py:253 | `split` never returns an empty list. |
| ObiSignal.SplitJoin | strategies/order_book_imbalance.py:253 | Joining the pieces gives back the string. No piece contains the separator, and there is one piece if and only if the separator does not occur. |
| ObiSignal.SplitHead | strategies/order_book_imbalance.py:253-256 | The first piece is the prefix before the first separator, and the other pieces are the split of what follows it. |
| ObiSignal.ProductBase | strategies/order_book_imbalance.py:246-260 | The base currency is the prefix of the product before its first '-', or the whole product; the IndexError branch is never taken. |
| ObiSignal.ProductQuote | strategies/order_book_imbalance.py:262-276 | The quote currency exists if and only if the product contains '-', and is the part between the first '-' and the next. |
| ObiSignal.ProductOfBtcUsd | strategies/order_book_imbalance.py:246-276 | "BTC-USD" has base "BTC" and quote "USD". |
| ObiStrategy.SideQuantity | strategies/order_book_imbalance.py:125-135 | The accumulation loop computes the side's summed weight, or fails when a weight divides by zero. |
| ObiStrategy.OBIStrategy.constructor | strategies/order_book_imbalance.py:30-32 | A new strategy has the base-class initial state, no order and an empty history, with `set_up` run once. |
| ObiStrategy.OBIStrategy.SetUp | strategies/order_book_imbalance.py:30-32 | There is no order and the imbalance history is empty. |
| ObiStrategy.OBIStrategy.GetTradeSignal | strategies/order_book_imbalance.py:107-158 | Exactly one imbalance is appended, and the signal is the threshold decision on the new history. When the imbalance raises, nothing is appended and the exception propagates. |
| ObiStrategy.OBIStrategy.TrackOrder | strategies/order_book_imbalance.py:51-105 | With no order or no id: False, no call, order unchanged. A poll failure the strategy catches (builtin ConnectionError, JSONDecodeError) gives False with the order unchanged; any other, including the requests ConnectionError, propagates. A terminal response clears the order and gives False. Any other response replaces the order and gives True. |
| ObiStrategy.OBIStrategy.CancelOrder | strategies/order_book_imbalance.py:183-201 | Without an id nothing is sent and the result is False. Otherwise one cancel is sent; the result is that of `Acknowledge` on its outcome. The tracked order is left unchanged. |
| ObiStrategy.OBIStrategy.UpdatePendingOrder | strategies/order_book_imbalance.py:203-244 | Without price or creation time: False and no call. Otherwise it cancels when the signal is gone, or when the order is older than 20 s and away from the padded market price, and returns True. |
| ObiStrategy.OBIStrategy.PlaceOrder | strategies/order_book_imbalance.py:278-330 | With a tracked order or no signal: False and no call. Otherwise it sends one buy or sell at the unpadded market price, sized from the balance, and tracks the reply only if it has no `message`. |
| ObiStrategy.OBIStrategy.Next | strategies/order_book_imbalance.py:34-49 | One tick counts one more run of `next` (the ghost `steps`) and makes at most two wrapped calls. When the imbalance of the held snapshot is defined, exactly that value is appended to the history. When it raises, the tick raises the same error, sends nothing, and leaves the history and the tracked order as they were. A tracked order is never an error response. |
| GdaxTrader.FloorMod | gdax_trader.py:75 | Python's float `%` by FREQUENCY lies in [0, FREQUENCY). |
| GdaxTrader.SleepTime | gdax_trader.py:75-76 | The sleep always lies in (0, FREQUENCY]. |
| GdaxTrader.WakesOnGrid | gdax_trader.py:66-80 | The loop wakes on the first multiple of FREQUENCY after the start that is strictly later than now. |
| GdaxTrader.StripHeader | gdax_trader.py:152-164 | A missing key gives no side, an empty list raises IndexError, and otherwise the header row followed by the side is the original list. |
| GdaxTrader.SplitBook | gdax_trader.py:152-166 | With the ask key corrected: the conversion raises IndexError if and only if a present side is an empty list. Otherwise each side is present if and only if its key is. |
| GdaxTrader.SplitBookAsWritten | gdax_trader.py:152-166 | As written: the same, with the ask side read from key "ask". |
| GdaxTrader.SkipIteration | gdax_trader.py:88-100 | A fetch failure that `_run_iteration` catches (requests ConnectionError, JSONDecodeError) skips the iteration with False; any other propagates unchanged. |
| GdaxTrader.SplitBookKeepsRows | gdax_trader.py:152-166 | Reading "bids" and "asks", each side is present if and only if its key is, and holds the key's rows less the header. |
| GdaxTrader.AskKeyLosesAsks | gdax_trader.py:159-164 | On a book keyed "bids"/"asks", the conversion as written yields no ask side, and the imbalance of that snapshot raises TypeError. The corrected conversion keeps the asks. |
| GdaxTrader.RunsAppend | gdax_trader.py:110-116 | The runs of a strategy's `next` recorded by two stretches of calls add up. |
| GdaxTrader.RunsStep | gdax_trader.py:111-114 | Feeding a strategy and running its `next` records one more run of that strategy's `next` and none of any other's. |
| GdaxTrader.RunsRound | gdax_trader.py:110-116 | A full iteration records one run of each strategy's `next` per registration of it. |
| GdaxTrader.RunsCutShort | gdax_trader.py:110-116 | An iteration cut short by the k-th strategy's `next` records one run per registration among the first k + 1 strategies, and none of the rest. |
| GdaxTrader.GDAXTrader.constructor | gdax_trader.py:43-46 | A new trader has no strategies and no recorded calls. |
| GdaxTrader.GDAXTrader.AddStrategy | gdax_trader.py:51-53 | The strategy's back-reference is set to this trader and the strategy is appended at the end. The invariant `Valid` is kept: every strategy's step counter has risen, since its registration, by exactly the runs of `next` that the recorded calls count. |
| GdaxTrader.GDAXTrader.RunIteration | gdax_trader.py:82-116 | The outcome is fixed by the two fetches (`Iterated`). An accounts failure is skipped or propagated by `SkipIteration` after one request, with no book fetch and no strategy call. Otherwise a book fetch for the trader's product follows. Its failure is handled by `SkipIteration`, and a non-indexable book gives False; in both cases no strategy is called (the recorded calls are unchanged, so by `Valid` no step counter moved). An empty reply, or a side that is an empty list, raises IndexError. Otherwise the result is that of StepAll on the accounts and the two sides. |
| GdaxTrader.GDAXTrader.StepAll | gdax_trader.py:110-116 | Either every strategy got `next_data` then `next`, in registration order, all hold the same accounts and book sides, and the result is True. Or strategies 0..k did so, and strategy k's step is recorded as raising the exception that is the result. Every strategy's step counter rose by exactly the runs of its `next` that the new calls record (`StepsBy`); with `RunsRound` and `RunsCutShort`, that is once per registration for each strategy stepped. |
| GdaxTrader.GDAXTrader.StepUntilRaise | gdax_trader.py:110-116 | The loop itself: k strategies returned and the trace holds their calls in order. If the result is not True, strategy k's step raised it (as FeedAndStep reports) and ended the loop. When the imbalance of the snapshot raises and some strategy is registered, the loop stops at the first strategy with exactly that error. `Valid` is kept. |
| GdaxTrader.GDAXTrader.FeedAndStep | gdax_trader.py:111-114 | One strategy gets the snapshot and then its step, which counts one run of `next`. When the imbalance of the snapshot is defined, exactly that value is appended to the strategy's history. When it raises, the step raises the same error and the history is unchanged. A step that returns extends the trace by one more full round entry; one that raises records its error. `Valid` is kept. |
| GdaxTrader.GDAXTrader.Tick | gdax_trader.py:66-80 | One pass of the loop: an iteration with exactly the outcome `Iterated` describes. A False result still sleeps. The pass sleeps, for a time in (0, FREQUENCY], if and only if the iteration did not raise. |

## Left out

- `GDAXTrader._get_client` (environment variables and credentials), `get_fills` (unused by the core), cli.py and every logging call: none of them affects the modelled behaviour.
- The gdax client: it is a script of outcomes per wrapped call and attempt. A payload the core does not read is not modelled.
- Real time: `time.time()`, `time.sleep`, `datetime.now` and `strptime` become `real` parameters (seconds). A `created_at` that `strptime` cannot parse (a ValueError the source does not catch) is not modelled. `Order.createdAt` holds the parsed time.
- The endless `while running` loop of `run`: `Tick` models one pass. Only its exceptions end it.
- pandas: a DataFrame is a sequence of `Level(price, size)`. The header row popped from each side is taken to name those columns. The in-place `pop(0)` is modelled as taking the tail, because the payload is not read again.
- Floating point and Decimal precision, and the Decimal-versus-float and str TypeErrors of mixed arithmetic: the arithmetic is exact over `real`.
- `Decimal('NaN')` as the best price of an empty side is written `None`. In repricing, a missing market price counts as changed, which matches NaN comparing unequal.
- A book reply that is a mapping would raise KeyError at `order_book[0]`. It is not distinguished from an indexable reply.
- `set_product` and a product of `None`: the product is fixed when the gateway is built.
- ObiStrategy.OBIStrategy.PlaceOrder: requires that a directional signal does not meet an empty side of its own direction. Python would then send an order priced at NaN. `Next` never passes such a signal (`ObiSignal.SignalIsPriced`).
- ObiStrategy.OBIStrategy.PlaceOrder: a `sell` with a missing balance raises AttributeError inside the wrapped call. The one invocation it costs is not counted in `Gateway.invocations`.
- ObiStrategy.OBIStrategy.Next: states a bound on the requests, not the full sequence of requests; the sub-operations it calls state theirs exactly.
- Exchange.Gateway: the wrapped calls use the documented retry behaviour (`Retry.Answer`), not the as-written check (see Findings).
- ObiStrategy.OBIStrategy.GetTradeSignal: its result is the signal with the threshold computed (`ObiSignal.SignalFor`). As written, line 144 raises NameError once the history holds more than PERIOD imbalances (`ObiSignal.SignalAsWritten`, see Findings).
- ObiStrategy.OBIStrategy.UpdatePendingOrder: it decides with the corrected sell branch (`ObiSignal.ShouldCancel`). As written, a SELL signal with an order older than the hold time raises UnboundLocalError (line 235; `ObiSignal.CancelAsWritten`, see Findings).
- GdaxTrader.GDAXTrader.RunIteration: it converts the book with key "asks" (`GdaxTrader.SplitBook`). As written, it reads "ask" (gdax_trader.py:160), so the strategies get no ask side (`GdaxTrader.SplitBookAsWritten`, see Findings).
- Prices and sizes are numbers. The payload holds them as strings, and `.max()`/`.min()` of a string column compare lexicographically. Parsing them, and choosing the best price as strings compare, are not modelled.
- GdaxTrader.GDAXTrader.FeedAndStep: when the imbalance of the snapshot is defined, whether the step raised, and which error it raised, are not tied to `next`'s own result. The ghost counter and trace could be written without calling `next`; only the appended history comes from `next` itself.
- GdaxTrader.GDAXTrader.StepUntilRaise: like StepAll, it does not restate the imbalance each stepped strategy appended; FeedAndStep states it one step at a time.
- GdaxTrader.GDAXTrader.StepAll: it states the trace, the counters and the held snapshot for every strategy stepped. It does not restate, per strategy, the imbalance each one appended (FeedAndStep states that one step at a time), nor that a raising imbalance stops the loop at the first strategy (StepUntilRaise states that). Whether a step with a defined imbalance raised, and which error, is not tied to `next`'s own result.
- Concurrency: there is none in the source.

## Findings

| source | as written | input that shows it | evidently intended | confidence | as-written member | corrected member |
|---|---|---|---|---|---|---|
| utils.py:45-46 | After the loop, the wrapper raises the last transient error whenever `retry == max_retries` and some attempt failed, even if the final attempt succeeded. | `max_retries = 5`: four ConnectionErrors, then a value on the fifth attempt. ConnectionError is raised and the value is lost. | Raise only when every attempt failed ("Error raised if every retry attempt fails"). | not executed | Retry.LastSuccessStillRaises | Retry.IntendedRaisesOnlyWhenAllFail |
| strategies/order_book_imbalance.py:235 | The sell branch of the price-change check tests `BUY_SIGNAL` again, so `price_changed` is never assigned on a SELL signal. | A SELL signal with an order older than 20 s. Reading `price_changed` raises UnboundLocalError. | The branch tests `SELL_SIGNAL` and compares with market price − padding. | not executed | ObiSignal.SellRepricingAsWritten | ObiSignal.ShouldCancelKeepsPaddedOrders |
| strategies/order_book_imbalance.py:144 | `pd` is used but never imported, so the threshold cannot be computed. | The 31st tick of any strategy. NameError is raised and no signal is ever produced. | Import pandas and compute the sample standard deviation of the last 30 imbalances. | not executed | ObiSignal.SignalAsWrittenNeverSignals | ObiSignal.SignalAtIsThreshold |
| gdax_trader.py:160 | The ask side is read from key `'ask'`; the exchange's key is `'asks'`. | A book `{"bids": [...], "asks": [...]}`. The ask side becomes `None`, and every strategy then raises TypeError computing the imbalance. | Read key `'asks'`. | not executed | GdaxTrader.AskKeyLosesAsks | GdaxTrader.SplitBookKeepsRows |
