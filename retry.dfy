/**
 * The `connection_retry` decorator of utils.py: a call is attempted up to
 * `max` times, every attempt that returns or fails transiently is followed by
 * one pause of the rate limit, and any other exception escapes at once.
 *
 * The wrapped function is an oracle: `attempts(i)` is what its i-th
 * invocation (counted from 0) does.
 */
module Retry {
  import opened Basics

  /** What one invocation of the wrapped function does. */
  datatype Attempt<T> = Returns(value: T) | Throws(error: Error)

  /**
   * How the `while` loop of the wrapper ends: either the loop condition
   * becomes false, with the values of `retry`, `connect_success`, `data` and
   * the last transient error (`connect_error`), or a non-transient exception
   * escapes from attempt number `retry` before the counter and the pause.
   */
  datatype LoopEnd<T> =
    | Finished(retry: nat, success: bool, data: Option<T>, lastError: Option<Error>)
    | Escaped(retry: nat, error: Error)

  predicate IsTransientFailure<T>(a: Attempt<T>) {
    a.Throws? && IsTransient(a.error)
  }

  /** Attempts `lo` up to (not including) `hi` all fail transiently. */
  ghost predicate TransientBetween<T>(attempts: nat -> Attempt<T>, lo: nat, hi: nat) {
    forall j: nat :: lo <= j < hi ==> IsTransientFailure(attempts(j))
  }

  /**
   * The loop of the wrapper, entered with `retry == i` and `connect_error ==
   * last`. The counter only grows and stays within the budget; the loop
   * ends with data exactly when an attempt returned, uses the whole budget
   * when none did, and an exception escapes only from an attempt within the
   * budget that raised it and is not transient.
   */
  function Loop<T>(max: int, attempts: nat -> Attempt<T>, i: nat, last: Option<Error>): (end: LoopEnd<T>)
    ensures end.retry >= i
    ensures i < max ==> end.retry <= max
    ensures end.Finished? ==> (end.success <==> end.data.Some?)
    ensures end.Finished? && end.success ==> end.retry > i && attempts(end.retry - 1) == Returns(end.data.value)
    ensures end.Finished? && !end.success ==> end.retry == (if i < max then max else i)
    ensures end.Escaped? ==> end.retry < max && attempts(end.retry) == Throws(end.error) && !IsTransient(end.error)
    decreases if i < max then max - i else 0
  {
    if i >= max then Finished(i, false, None, last)
    else match attempts(i)
      case Returns(v) => Finished(i + 1, true, Some(v), last)
      case Throws(e) =>
        if IsTransient(e) then Loop(max, attempts, i + 1, Some(e)) else Escaped(i, e)
  }

  /** How many times the wrapped function was invoked. */
  function Invocations<T>(end: LoopEnd<T>): nat {
    match end
    case Finished(retry, _, _, _) => retry
    case Escaped(retry, _) => retry + 1
  }

  /** How many `sleep(rate_limit)` pauses were taken. */
  function Pauses<T>(end: LoopEnd<T>): nat {
    end.retry
  }

  /**
   * The check after the loop as written: raise the last transient error
   * when the counter reached `max` and some attempt failed transiently, even
   * if the last attempt succeeded.
   */
  function AsWritten<T>(max: int, end: LoopEnd<T>): (r: Result<Option<T>>)
    ensures r.Ok? ==> end.Finished? && r.value == end.data
    ensures r.Raised? ==> end.Escaped? || end.lastError == Some(r.error)
    ensures r.Raised? && end.Finished? ==> end.retry == max
  {
    match end
    case Escaped(_, e) => Raised(e)
    case Finished(retry, _, data, last) =>
      if retry == max && last.Some? then Raised(last.value) else Ok(data)
  }

  /**
   * The check as documented ("Error raised if every retry attempt fails"):
   * raise only when no attempt succeeded.
   */
  function Intended<T>(end: LoopEnd<T>): (r: Result<Option<T>>)
    ensures r.Ok? ==> end.Finished? && r.value == end.data
    ensures r.Raised? ==> end.Escaped? || end.lastError == Some(r.error)
    ensures r.Raised? && end.Finished? ==> !end.success
  {
    match end
    case Escaped(_, e) => Raised(e)
    case Finished(_, success, data, last) =>
      if !success && last.Some? then Raised(last.value) else Ok(data)
  }

  /**
   * The wrapper as written. `calls` counts invocations of the wrapped
   * function and `sleeps` the pauses, as the tests count them with mocks.
   */
  method Wrapper<T>(max: int, attempts: nat -> Attempt<T>) returns (r: Result<Option<T>>, calls: nat, sleeps: nat)
    ensures r == AsWritten(max, Loop(max, attempts, 0, None))
    ensures calls == Invocations(Loop(max, attempts, 0, None))
    ensures sleeps == Pauses(Loop(max, attempts, 0, None))
  {
    var data: Option<T> := None;
    var retry: nat := 0;
    var connectSuccess := false;
    var connectError: Option<Error> := None;
    calls, sleeps := 0, 0;
    while !connectSuccess && retry < max
      invariant calls == retry && sleeps == retry
      invariant !connectSuccess ==> data == None
      invariant !connectSuccess ==> Loop(max, attempts, retry, connectError) == Loop(max, attempts, 0, None)
      invariant connectSuccess ==> Loop(max, attempts, 0, None) == Finished(retry, true, data, connectError)
      decreases if retry < max then max - retry else 0, if connectSuccess then 0 else 1
    {
      calls := calls + 1;
      match attempts(retry) {
        case Returns(v) =>
          data := Some(v);
          connectSuccess := true;
        case Throws(e) =>
          if IsTransient(e) {
            connectError := Some(e);
          } else {
            r := Raised(e);
            return;
          }
      }
      retry := retry + 1;
      sleeps := sleeps + 1;
    }
    if retry == max && connectError.Some? {
      r := Raised(connectError.value);
    } else {
      r := Ok(data);
    }
  }

  /**
   * From attempt `i` on, the loop runs through transient failures up to the
   * first attempt `k` that does not fail transiently and ends there.
   */
  lemma {:induction false} LoopStopsAt<T>(max: int, attempts: nat -> Attempt<T>, i: nat, last: Option<Error>, k: nat)
    requires i <= k < max
    requires TransientBetween(attempts, i, k)
    requires !IsTransientFailure(attempts(k))
    ensures Loop(max, attempts, i, last) ==
      match attempts(k)
      case Returns(v) => Finished(k + 1, true, Some(v), if k == i then last else Some(attempts(k - 1).error))
      case Throws(e) => Escaped(k, e)
    decreases k - i
  {
    if i < k {
      LoopStopsAt(max, attempts, i + 1, Some(attempts(i).error), k);
    }
  }

  /** From attempt `i` on, if every attempt up to `max` fails transiently the loop exhausts the budget. */
  lemma {:induction false} LoopExhausts<T>(max: nat, attempts: nat -> Attempt<T>, i: nat, last: Option<Error>)
    requires i <= max
    requires TransientBetween(attempts, i, max)
    ensures Loop(max, attempts, i, last) ==
      Finished(max, false, None, if i == max then last else Some(attempts(max - 1).error))
    decreases max - i
  {
    if i < max {
      LoopExhausts(max, attempts, i + 1, Some(attempts(i).error));
    }
  }

  /** utils.py:29-33: a first attempt that succeeds is made once, paced once, and its value returned. */
  lemma FirstAttemptSucceeds<T>(max: int, attempts: nat -> Attempt<T>)
    requires max >= 1 && attempts(0).Returns?
    ensures AsWritten(max, Loop(max, attempts, 0, None)) == Ok(Some(attempts(0).value))
    ensures Invocations(Loop(max, attempts, 0, None)) == 1
    ensures Pauses(Loop(max, attempts, 0, None)) == 1
  {
  }

  /**
   * A success at attempt `k` after `k` transient failures is returned after
   * exactly `k + 1` invocations and pauses, unless it is the last allowed
   * attempt of a call that already failed (see LastSuccessStillRaises).
   */
  lemma SucceedsAfterRetries<T>(max: int, attempts: nat -> Attempt<T>, k: nat)
    requires k < max && (k == 0 || k + 1 < max)
    requires TransientBetween(attempts, 0, k) && attempts(k).Returns?
    ensures AsWritten(max, Loop(max, attempts, 0, None)) == Ok(Some(attempts(k).value))
    ensures Invocations(Loop(max, attempts, 0, None)) == k + 1
    ensures Pauses(Loop(max, attempts, 0, None)) == k + 1
  {
    LoopStopsAt(max, attempts, 0, None, k);
  }

  /**
   * utils.py:45-46 as written: when the last allowed attempt succeeds after
   * transient failures, the wrapper still raises the previous failure and
   * drops the value; the documented behaviour returns it.
   */
  lemma LastSuccessStillRaises<T>(max: int, attempts: nat -> Attempt<T>)
    requires max >= 2
    requires TransientBetween(attempts, 0, max - 1) && attempts(max - 1).Returns?
    ensures AsWritten(max, Loop(max, attempts, 0, None)) == Raised(attempts(max - 2).error)
    ensures Intended(Loop(max, attempts, 0, None)) == Ok(Some(attempts(max - 1).value))
  {
    LoopStopsAt(max, attempts, 0, None, max - 1);
  }

  /** The discrepancy with the retry budget of gdax_trader.py: four connection errors then a success. */
  lemma FifthAttemptSuccessRaises()
    ensures AsWritten(5, Loop(5, FourFailuresThen(7), 0, None)) == Raised(RequestsConnectionError)
    ensures Intended(Loop(5, FourFailuresThen(7), 0, None)) == Ok(Some(7))
  {
  }

  function FourFailuresThen(v: int): nat -> Attempt<int> {
    (i: nat) => if i < 4 then Throws(RequestsConnectionError) else Returns(v)
  }

  /** utils.py:36-46: when every attempt fails transiently, all are made and paced and the last error is raised. */
  lemma ExhaustedRaisesLast<T>(max: nat, attempts: nat -> Attempt<T>)
    requires max >= 1 && TransientBetween(attempts, 0, max)
    ensures AsWritten(max, Loop(max, attempts, 0, None)) == Raised(attempts(max - 1).error)
    ensures Intended(Loop(max, attempts, 0, None)) == Raised(attempts(max - 1).error)
    ensures Invocations(Loop(max, attempts, 0, None)) == max
    ensures Pauses(Loop(max, attempts, 0, None)) == max
  {
    LoopExhausts(max, attempts, 0, None);
  }

  /** utils.py:31-38: any other exception escapes from the failing attempt, which is not paced, and nothing is retried. */
  lemma OtherErrorEscapes<T>(max: int, attempts: nat -> Attempt<T>, k: nat)
    requires k < max && TransientBetween(attempts, 0, k)
    requires attempts(k).Throws? && !IsTransient(attempts(k).error)
    ensures AsWritten(max, Loop(max, attempts, 0, None)) == Raised(attempts(k).error)
    ensures Intended(Loop(max, attempts, 0, None)) == Raised(attempts(k).error)
    ensures Invocations(Loop(max, attempts, 0, None)) == k + 1
    ensures Pauses(Loop(max, attempts, 0, None)) == k
  {
    LoopStopsAt(max, attempts, 0, None, k);
  }

  /** utils.py:24-29,48: with no retry budget the function is never called and None is returned. */
  lemma NoBudgetNoCall<T>(max: int, attempts: nat -> Attempt<T>)
    requires max <= 0
    ensures AsWritten(max, Loop(max, attempts, 0, None)) == Ok(None)
    ensures Invocations(Loop(max, attempts, 0, None)) == 0
  {
  }

  /**
   * utils.py:29-42: the number of invocations never exceeds the budget, and
   * every invocation is followed by exactly one pause except one whose
   * exception escaped.
   */
  lemma {:induction false} CallsWithinBudget<T>(max: int, attempts: nat -> Attempt<T>, i: nat, last: Option<Error>)
    ensures Invocations(Loop(max, attempts, i, last)) <= if i < max then max else i
    ensures Invocations(Loop(max, attempts, i, last)) ==
      Pauses(Loop(max, attempts, i, last)) + (if Loop(max, attempts, i, last).Escaped? then 1 else 0)
    decreases if i < max then max - i else 0
  {
    if i < max && IsTransientFailure(attempts(i)) {
      CallsWithinBudget(max, attempts, i + 1, Some(attempts(i).error));
    }
  }

  /**
   * The documented behaviour raises a transient error exactly when every one
   * of the attempts from `i` to `max` failed transiently.
   */
  lemma {:induction false} IntendedRaisesOnlyWhenAllFail<T>(max: int, attempts: nat -> Attempt<T>, i: nat, last: Option<Error>)
    requires i < max
    ensures (Intended(Loop(max, attempts, i, last)).Raised? &&
             IsTransient(Intended(Loop(max, attempts, i, last)).error))
        <==> TransientBetween(attempts, i, max)
    decreases max - i
  {
    if IsTransientFailure(attempts(i)) {
      if i + 1 < max {
        IntendedRaisesOnlyWhenAllFail(max, attempts, i + 1, Some(attempts(i).error));
      }
    } else {
      assert !TransientBetween(attempts, i, max) by {
        assert !IsTransientFailure(attempts(i));
      }
    }
  }

  /** With a positive budget the documented behaviour never returns Python's `None` in place of a value. */
  lemma {:induction false} IntendedHasData<T>(max: int, attempts: nat -> Attempt<T>, i: nat, last: Option<Error>)
    requires i < max || last.Some?
    ensures Intended(Loop(max, attempts, i, last)).Ok? ==> Intended(Loop(max, attempts, i, last)).value.Some?
    decreases if i < max then max - i else 0
  {
    if i < max && IsTransientFailure(attempts(i)) {
      IntendedHasData(max, attempts, i + 1, Some(attempts(i).error));
    }
  }

  /** The outcome of a call wrapped with a positive budget, as the documented behaviour gives it. */
  function Answer<T>(max: int, attempts: nat -> Attempt<T>): (r: Result<T>)
    requires max > 0
    ensures r.Ok? ==> exists k: nat :: k < max && attempts(k) == Returns(r.value)
  {
    IntendedHasData(max, attempts, 0, None);
    AnswerComesFromAnAttempt(max, attempts, 0, None);
    match Intended(Loop(max, attempts, 0, None))
    case Ok(d) => Ok(d.value)
    case Raised(e) => Raised(e)
  }

  lemma {:induction false} AnswerComesFromAnAttempt<T>(max: int, attempts: nat -> Attempt<T>, i: nat, last: Option<Error>)
    ensures Intended(Loop(max, attempts, i, last)).Ok? && Intended(Loop(max, attempts, i, last)).value.Some? ==>
      exists k: nat :: i <= k < max && attempts(k) == Returns(Intended(Loop(max, attempts, i, last)).value.value)
    decreases if i < max then max - i else 0
  {
    if i < max && IsTransientFailure(attempts(i)) {
      AnswerComesFromAnAttempt(max, attempts, i + 1, Some(attempts(i).error));
    }
  }
}
