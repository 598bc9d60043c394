/** Retrier.doWithRetry: call an operation, and after each failure the
    retrier catches, wait and call it again, at most retryCount times more.
    The operation and the wait are function values over a state S that
    records their effects (the backend and its fault script). */
module Retrier {

  /** The outcome of one call of the operation. */
  datatype Attempt<+T, +E> = Success(value: T) | Failure(error: E)

  /** The outcome of Thread.sleep: woke normally, was interrupted, or threw. */
  datatype Wake<+E> = Woke | Interrupted | SleepFailed(error: E)

  /** What doWithRetry does: return a value, return null (an interrupted
      wait ends the loop while `ret` is still null), or throw. */
  datatype Retried<+T, +E> = Returned(value: T) | ReturnedNull | Raised(error: E)

  /** The final state, the outcome and how many times the operation was called. */
  datatype Run<S, T, E> = Run(state: S, result: Retried<T, E>, calls: nat)

  /** The loop of doWithRetry entered with `retries` failures already behind it. */
  function RetryFrom<S, T, E>(op: S -> (S, Attempt<T, E>), catches: E -> bool,
                              sleep: S -> (S, Wake<E>), retryCount: int, retries: nat, s: S)
    : Run<S, T, E>
    decreases retryCount - retries
  {
    var (s1, a) := op(s);
    match a
    case Success(v) => Run(s1, Returned(v), 1)
    case Failure(e) =>
      if !catches(e) || retries >= retryCount then Run(s1, Raised(e), 1)
      else
        var (s2, w) := sleep(s1);
        match w
        case SleepFailed(e2) => Run(s2, Raised(e2), 1)
        case Interrupted => Run(s2, ReturnedNull, 1)
        case Woke =>
          var rest := RetryFrom(op, catches, sleep, retryCount, retries + 1, s2);
          Run(rest.state, rest.result, rest.calls + 1)
  }

  /** doWithRetry(retryCount, retryWait) as a function of the start state. */
  function Retry<S, T, E>(op: S -> (S, Attempt<T, E>), catches: E -> bool,
                          sleep: S -> (S, Wake<E>), retryCount: int, s: S): Run<S, T, E>
  {
    RetryFrom(op, catches, sleep, retryCount, 0, s)
  }

  /** The do/while loop of doWithRetry over its locals `retry`, `retries`
      and `ret`; `calls` counts the calls of the operation. */
  method DoWithRetry<S, T, E>(op: S -> (S, Attempt<T, E>), catches: E -> bool,
                              sleep: S -> (S, Wake<E>), retryCount: int, s0: S)
    returns (s: S, r: Retried<T, E>, calls: nat)
    ensures Run(s, r, calls) == Retry(op, catches, sleep, retryCount, s0)
  {
    var retry := true;
    var retries: nat := 0;
    s, calls := s0, 0;
    while retry
      invariant retry ==> var rest := RetryFrom(op, catches, sleep, retryCount, retries, s);
                Run(rest.state, rest.result, rest.calls + calls) == Retry(op, catches, sleep, retryCount, s0)
      invariant !retry ==> Run(s, ReturnedNull, calls) == Retry(op, catches, sleep, retryCount, s0)
      decreases retryCount - retries
    {
      var (s1, a) := op(s);
      s, calls := s1, calls + 1;
      match a {
        case Success(v) =>
          r := Returned(v);
          return;
        case Failure(e) =>
          if !catches(e) || retries >= retryCount {
            r := Raised(e);
            return;
          }
          retries := retries + 1;
          var (s2, w) := sleep(s);
          s := s2;
          match w {
            case SleepFailed(e2) =>
              r := Raised(e2);
              return;
            case Interrupted =>
              retry := false;
            case Woke =>
          }
      }
    }
    r := ReturnedNull;
  }

  function Max0(x: int): nat { if x < 0 then 0 else x }

  /** The operation is called at most retryCount + 1 times (once when
      retryCount is not positive). */
  lemma {:induction false} CallsBounded<S, T, E>(op: S -> (S, Attempt<T, E>), catches: E -> bool,
                                                sleep: S -> (S, Wake<E>), retryCount: int,
                                                retries: nat, s: S)
    ensures 1 <= RetryFrom(op, catches, sleep, retryCount, retries, s).calls <= Max0(retryCount - retries) + 1
    decreases retryCount - retries
  {
    var (s1, a) := op(s);
    if a.Failure? && catches(a.error) && retries < retryCount {
      var (s2, w) := sleep(s1);
      if w.Woke? {
        CallsBounded(op, catches, sleep, retryCount, retries + 1, s2);
      }
    }
  }

  /* The laws below are stated for an operation whose k-th call has the
     outcome outcomes(k) and whose k-th wait ends as waits(k): the state is
     the number of calls made so far. */

  function Scripted<T, E>(outcomes: nat -> Attempt<T, E>): nat -> (nat, Attempt<T, E>)
  {
    n => (n + 1, outcomes(n))
  }

  function ScriptedSleep<E>(waits: nat -> Wake<E>): nat -> (nat, Wake<E>)
  {
    n => (n, waits(if n == 0 then 0 else n - 1))
  }

  /** If the calls before call k fail with caught errors, the waits between
      them end normally, k <= retryCount and call k succeeds, then its value
      is returned after exactly k + 1 calls and nothing more is called. */
  lemma {:induction false} FirstSuccessReturned<T, E>(outcomes: nat -> Attempt<T, E>, catches: E -> bool,
                                                      waits: nat -> Wake<E>, retryCount: int, k: nat, i: nat)
    requires i <= k <= Max0(retryCount)
    requires forall j :: i <= j < k ==> outcomes(j).Failure? && catches(outcomes(j).error) && waits(j).Woke?
    requires outcomes(k).Success?
    ensures RetryFrom(Scripted(outcomes), catches, ScriptedSleep(waits), retryCount, i, i)
            == Run(k + 1, Returned(outcomes(k).value), k + 1 - i)
    decreases k - i
  {
    if i < k {
      assert outcomes(i).Failure? && catches(outcomes(i).error) && waits(i).Woke?;
      FirstSuccessReturned(outcomes, catches, waits, retryCount, k, i + 1);
    }
  }

  /** If every call fails with a caught error and no wait is cut short, the
      error of the last call is thrown after exactly retryCount + 1 calls. */
  lemma {:induction false} ExhaustedRethrowsLast<T, E>(outcomes: nat -> Attempt<T, E>, catches: E -> bool,
                                                       waits: nat -> Wake<E>, retryCount: int, i: nat)
    requires i <= Max0(retryCount)
    requires forall j :: i <= j <= Max0(retryCount) ==> outcomes(j).Failure? && catches(outcomes(j).error)
    requires forall j :: i <= j < Max0(retryCount) ==> waits(j).Woke?
    ensures RetryFrom(Scripted(outcomes), catches, ScriptedSleep(waits), retryCount, i, i)
            == Run(Max0(retryCount) + 1, Raised(outcomes(Max0(retryCount)).error), Max0(retryCount) + 1 - i)
    decreases Max0(retryCount) - i
  {
    if i < Max0(retryCount) {
      assert outcomes(i).Failure? && catches(outcomes(i).error) && waits(i).Woke?;
      ExhaustedRethrowsLast(outcomes, catches, waits, retryCount, i + 1);
    }
  }

  /** If the wait after failed call k is interrupted, the loop stops there:
      null is returned after k + 1 calls and no exception is thrown. */
  lemma {:induction false} InterruptReturnsNull<T, E>(outcomes: nat -> Attempt<T, E>, catches: E -> bool,
                                                      waits: nat -> Wake<E>, retryCount: int, k: nat, i: nat)
    requires i <= k < retryCount
    requires forall j :: i <= j <= k ==> outcomes(j).Failure? && catches(outcomes(j).error)
    requires forall j :: i <= j < k ==> waits(j).Woke?
    requires waits(k).Interrupted?
    ensures RetryFrom(Scripted(outcomes), catches, ScriptedSleep(waits), retryCount, i, i)
            == Run(k + 1, ReturnedNull, k + 1 - i)
    decreases k - i
  {
    if i < k {
      assert outcomes(i).Failure? && catches(outcomes(i).error) && waits(i).Woke?;
      InterruptReturnsNull(outcomes, catches, waits, retryCount, k, i + 1);
    }
  }

  /** An error the retrier does not catch leaves it at once, from any state. */
  lemma UncaughtPropagates<S, T, E>(op: S -> (S, Attempt<T, E>), catches: E -> bool,
                                    sleep: S -> (S, Wake<E>), retryCount: int, retries: nat, s: S)
    requires op(s).1.Failure? && !catches(op(s).1.error)
    ensures RetryFrom(op, catches, sleep, retryCount, retries, s) == Run(op(s).0, Raised(op(s).1.error), 1)
  {
  }

  /** The state half of an (S, X) pair, with its type S made explicit to the verifier. */
  function StateOf<S, X>(p: (S, X)): S { p.0 }

  function FinalState<S, T, E>(r: Run<S, T, E>): S { r.state }

  /** Whatever relation every call and every wait keep between the state
      before and after, the whole retry loop keeps too. */
  lemma {:induction false} RetryPreserves<S, T, E>(op: S -> (S, Attempt<T, E>), catches: E -> bool,
                                                  sleep: S -> (S, Wake<E>), retryCount: int,
                                                  retries: nat, s: S, keeps: (S, S) -> bool)
    requires forall x :: keeps(x, op(x).0)
    requires forall x :: keeps(x, sleep(x).0)
    requires forall x, y, z :: keeps(x, y) && keeps(y, z) ==> keeps(x, z)
    ensures keeps(s, RetryFrom(op, catches, sleep, retryCount, retries, s).state)
    decreases retryCount - retries
  {
    var s1, a := StateOf(op(s)), op(s).1;
    assert keeps(s, s1);
    if a.Failure? && catches(a.error) && retries < retryCount {
      var s2, w := StateOf(sleep(s1)), sleep(s1).1;
      assert keeps(s1, s2);
      assert keeps(s, s2);
      if w.Woke? {
        RetryPreserves(op, catches, sleep, retryCount, retries + 1, s2, keeps);
        var last := FinalState(RetryFrom(op, catches, sleep, retryCount, retries + 1, s2));
        assert RetryFrom(op, catches, sleep, retryCount, retries, s).state == last;
        assert keeps(s, s2) && keeps(s2, last);
      }
    }
  }

  /** A state invariant that every call and every wait keep holds at the
      end, and a returned value is one a successful call produced from a
      state satisfying it. */
  lemma {:induction false} RetryReturnsGood<S, T, E>(op: S -> (S, Attempt<T, E>), catches: E -> bool,
                                                    sleep: S -> (S, Wake<E>), retryCount: int,
                                                    retries: nat, s: S, inv: S -> bool, good: T -> bool)
    requires inv(s)
    requires forall x :: inv(x) ==> inv(StateOf(op(x)))
    requires forall x :: inv(x) ==> inv(StateOf(sleep(x)))
    requires forall x :: inv(x) && op(x).1.Success? ==> good(op(x).1.value)
    ensures inv(FinalState(RetryFrom(op, catches, sleep, retryCount, retries, s)))
    ensures RetryFrom(op, catches, sleep, retryCount, retries, s).result.Returned? ==>
              good(RetryFrom(op, catches, sleep, retryCount, retries, s).result.value)
    decreases retryCount - retries
  {
    var s1, a := StateOf(op(s)), op(s).1;
    assert inv(s1);
    if a.Failure? && catches(a.error) && retries < retryCount {
      var s2, w := StateOf(sleep(s1)), sleep(s1).1;
      assert inv(s2);
      if w.Woke? {
        RetryReturnsGood(op, catches, sleep, retryCount, retries + 1, s2, inv, good);
        var rest := RetryFrom(op, catches, sleep, retryCount, retries + 1, s2);
        assert RetryFrom(op, catches, sleep, retryCount, retries, s).state == FinalState(rest);
        assert RetryFrom(op, catches, sleep, retryCount, retries, s).result == rest.result;
      }
    }
  }
}
