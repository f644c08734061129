/** Small value types shared by every module of the trader model. */
module Basics {

  /** Python's `None` or a value. */
  datatype Option<+T> = None | Some(value: T)

  /**
   * The Python exceptions that matter to the core. Two unrelated classes share
   * the name ConnectionError: `RequestsConnectionError` is
   * `requests.exceptions.ConnectionError`, which utils.py:5 and
   * gdax_trader.py:8 import, and `ConnectionError` is Python's builtin, which
   * strategies/order_book_imbalance.py catches because it imports neither.
   * Neither class derives from the other, so an `except` naming one does not
   * catch the other. `ClientError` stands for any other exception raised by
   * the exchange client.
   */
  datatype Error =
    | RequestsConnectionError
    | ConnectionError
    | JSONDecodeError
    | TypeError
    | AttributeError
    | IndexError
    | ZeroDivisionError
    | NameError
    | UnboundLocalError
    | ClientError(name: string)

  /**
   * The exceptions caught by `except (ConnectionError, JSONDecodeError)` in
   * utils.py:36 and gdax_trader.py:88-100, where the name is the requests one.
   */
  predicate IsTransient(e: Error) {
    e.RequestsConnectionError? || e.JSONDecodeError?
  }

  /**
   * The exceptions caught by `except (ConnectionError, JSONDecodeError)` in
   * strategies/order_book_imbalance.py, where the name is the builtin one.
   */
  predicate StrategyCatches(e: Error) {
    e.ConnectionError? || e.JSONDecodeError?
  }

  /** A value, or the exception a Python call raised instead of returning. */
  datatype Result<+T> = Ok(value: T) | Raised(error: Error)
}
