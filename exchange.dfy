/**
 * What the trader exchanges with GDAX: the payloads the core reads, the
 * requests it sends, and `Gateway`, the part of `GDAXTrader` (gdax_trader.py)
 * that a strategy talks to through its `trader` back-reference: the product
 * and the calls wrapped with `connection_retry(MAX_RETRIES, RATE_LIMIT)`.
 *
 * The exchange itself is a scripted oracle: `attempts(n)(i)` is what the
 * client does on the i-th attempt of the n-th wrapped call.
 */
module Exchange {
  import opened Basics
  import opened Retry

  /** Maximum number of attempts per wrapped call (gdax_trader.py:41). */
  const MAX_RETRIES: int := 5

  /** Pause after every attempt, in seconds: 1/3 + 0.5 (gdax_trader.py:35). */
  const RATE_LIMIT: real := 1.0 / 3.0 + 0.5

  /** Units of the smallest size step: sizes are sent with 8 decimal places. */
  const SIZE_STEPS: real := 100000000.0

  /**
   * One entry of the accounts payload. `None` stands for a missing key; a
   * balance that `Decimal` cannot parse is also `None`.
   */
  datatype Account = Account(currency: Option<string>, balance: Option<real>)

  /** One price level of a book side after the header row is removed. */
  datatype Level = Level(price: real, size: real)

  /**
   * An order payload, as returned by `get_order`, `buy` and `sell`. A field
   * is `None` when its key is missing (or, for `price`, cannot be parsed);
   * `createdAt` is the parsed `created_at` timestamp in seconds.
   */
  datatype Order = Order(
    id: Option<string>,
    price: Option<real>,
    createdAt: Option<real>,
    status: Option<string>,
    doneReason: Option<string>,
    settled: Option<bool>,
    message: Option<string>)

  /** The raw level-2 book: each key maps to its rows, header row first. */
  type RawBook = map<string, seq<Level>>

  /** The order-book reply: an indexable payload (the book is its element 0) or something that is not. */
  datatype BookReply = Indexable(items: seq<RawBook>) | NotIndexable

  /** The wrapped calls of the trader, with the arguments the client receives. */
  datatype Request =
    | GetAccounts
    | GetOrderBook(product: string, level: nat)
    | GetOrder(id: string)
    | Buy(price: real, size: real, product: string)
    | Sell(price: real, size: real, product: string)
    | CancelOrder(id: string)

  /**
   * `size.quantize(Decimal('1.00000000'), rounding=ROUND_FLOOR)`: the largest
   * multiple of 10^-8 not above `size`.
   */
  function Quantize(size: real): (q: real)
    ensures q <= size < q + 1.0 / SIZE_STEPS
    ensures (q * SIZE_STEPS).Floor as real == q * SIZE_STEPS
  {
    var n := (size * SIZE_STEPS).Floor;
    n as real / SIZE_STEPS
  }

  /** The quantised size is the greatest 8-decimal amount not above the size. */
  lemma QuantizeIsGreatest(size: real, n: int)
    requires n as real / SIZE_STEPS <= size
    ensures n as real / SIZE_STEPS <= Quantize(size)
  {
  }

  /** Quantising an already quantised size changes nothing. */
  lemma QuantizeIdempotent(size: real)
    ensures Quantize(Quantize(size)) == Quantize(size)
  {
  }

  class Gateway {
    /** The GDAX product, such as "BTC-USD". */
    const product: string
    const accountAttempts: nat -> nat -> Attempt<seq<Account>>
    const bookAttempts: nat -> nat -> Attempt<BookReply>
    const orderAttempts: nat -> nat -> Attempt<Order>

    /** Every wrapped call made so far, in order. */
    var log: seq<Request>
    /** Invocations of the client across all calls. */
    var invocations: nat
    /** Pauses of RATE_LIMIT seconds taken across all calls. */
    var pauses: nat

    constructor (product: string,
                 accountAttempts: nat -> nat -> Attempt<seq<Account>>,
                 bookAttempts: nat -> nat -> Attempt<BookReply>,
                 orderAttempts: nat -> nat -> Attempt<Order>)
      ensures this.product == product
      ensures this.accountAttempts == accountAttempts
      ensures this.bookAttempts == bookAttempts
      ensures this.orderAttempts == orderAttempts
      ensures log == [] && invocations == 0 && pauses == 0
      ensures Paced()
    {
      this.product := product;
      this.accountAttempts := accountAttempts;
      this.bookAttempts := bookAttempts;
      this.orderAttempts := orderAttempts;
      log, invocations, pauses := [], 0, 0;
    }

    /**
     * The pacing invariant of the wrapped client: every call invokes the
     * client at most MAX_RETRIES times, and every invocation is followed by
     * a pause except one whose exception escaped the retry loop.
     */
    ghost predicate Paced()
      reads this
    {
      invocations <= MAX_RETRIES * |log| && invocations - |log| <= pauses <= invocations
    }

    /** The outcome of the next call of `get_order`, `buy`, `sell` or `cancel_order`. */
    function NextOrderReply(): Result<Order>
      reads this
    {
      Answer(MAX_RETRIES, orderAttempts(|log|))
    }

    /** The outcome of the next call of `_get_accounts`. */
    function NextAccountsReply(): Result<seq<Account>>
      reads this
    {
      Answer(MAX_RETRIES, accountAttempts(|log|))
    }

    /** The outcome of the next call of `_get_order_book`. */
    function NextBookReply(): Result<BookReply>
      reads this
    {
      Answer(MAX_RETRIES, bookAttempts(|log|))
    }

    /** One more wrapped call `req` was made, with the attempts and pauses of its retry loop. */
    twostate predicate Made<T>(req: Request, attempts: nat -> Attempt<T>)
      reads this
    {
      && log == old(log) + [req]
      && invocations == old(invocations) + Invocations(Loop(MAX_RETRIES, attempts, 0, None))
      && pauses == old(pauses) + Pauses(Loop(MAX_RETRIES, attempts, 0, None))
    }

    method Call<T>(req: Request, attempts: nat -> Attempt<T>) returns (r: Result<T>)
      modifies this
      ensures r == Answer(MAX_RETRIES, attempts)
      ensures Made(req, attempts)
      ensures old(Paced()) ==> Paced()
    {
      var end := Loop(MAX_RETRIES, attempts, 0, None);
      CallsWithinBudget(MAX_RETRIES, attempts, 0, None);
      r := Answer(MAX_RETRIES, attempts);
      log := log + [req];
      invocations := invocations + Invocations(end);
      pauses := pauses + Pauses(end);
    }

    /** `_get_accounts` (gdax_trader.py:179-187). */
    method GetAccounts() returns (r: Result<seq<Account>>)
      modifies this
      ensures r == old(NextAccountsReply())
      ensures Made(Request.GetAccounts, accountAttempts(old(|log|)))
      ensures old(Paced()) ==> Paced()
    {
      r := Call(Request.GetAccounts, accountAttempts(|log|));
    }

    /** `_get_order_book(product)`, level 2 (gdax_trader.py:168-177). */
    method GetOrderBook() returns (r: Result<BookReply>)
      modifies this
      ensures r == old(NextBookReply())
      ensures Made(Request.GetOrderBook(product, 2), bookAttempts(old(|log|)))
      ensures old(Paced()) ==> Paced()
    {
      r := Call(Request.GetOrderBook(product, 2), bookAttempts(|log|));
    }

    /** `get_order(order_id)` (gdax_trader.py:189-198). */
    method GetOrder(id: string) returns (r: Result<Order>)
      modifies this
      ensures r == old(NextOrderReply())
      ensures Made(Request.GetOrder(id), orderAttempts(old(|log|)))
      ensures old(Paced()) ==> Paced()
    {
      r := Call(Request.GetOrder(id), orderAttempts(|log|));
    }

    /** `buy(price, size, product)`: a post-only limit buy of the size floored to 8 decimals (gdax_trader.py:211-237). */
    method Buy(price: real, size: real, product: string) returns (r: Result<Order>)
      modifies this
      ensures r == old(NextOrderReply())
      ensures Made(Request.Buy(price, Quantize(size), product), orderAttempts(old(|log|)))
      ensures old(Paced()) ==> Paced()
    {
      r := Call(Request.Buy(price, Quantize(size), product), orderAttempts(|log|));
    }

    /** `sell(price, size, product)`: a post-only limit sell of the size floored to 8 decimals (gdax_trader.py:239-265). */
    method Sell(price: real, size: real, product: string) returns (r: Result<Order>)
      modifies this
      ensures r == old(NextOrderReply())
      ensures Made(Request.Sell(price, Quantize(size), product), orderAttempts(old(|log|)))
      ensures old(Paced()) ==> Paced()
    {
      r := Call(Request.Sell(price, Quantize(size), product), orderAttempts(|log|));
    }

    /** `cancel_order(order_id)` (gdax_trader.py:267-277). */
    method CancelOrder(id: string) returns (r: Result<Order>)
      modifies this
      ensures r == old(NextOrderReply())
      ensures Made(Request.CancelOrder(id), orderAttempts(old(|log|)))
      ensures old(Paced()) ==> Paced()
    {
      r := Call(Request.CancelOrder(id), orderAttempts(|log|));
    }
  }
}
