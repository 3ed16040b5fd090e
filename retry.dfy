/**
 * The retry combinator of retry_decorator.py.
 *
 * `retry(numRetries, retryDelay, backoffScalingFactor, logger)` builds a decorator;
 * the decorated function calls the wrapped function while more than one try is
 * left, catching its exception, reporting it, sleeping and multiplying the delay;
 * the last call stands outside the `try`, so its exception reaches the caller as it
 * was raised. `time.sleep` raises `ValueError` for a negative length; since the sleep
 * runs inside the `except` block, that error ends the decorated call at once.
 *
 * The wrapped function is an argument `op: nat -> Outcome<V, E>`: `op(i)` is what its
 * i-th invocation (counting from 0) returns or raises. Sleeping and the warning
 * message are recorded in the result instead of being performed.
 */
module Retry {
  import opened Results

  /** The arguments of `retry`; `logger` says whether a logger object was passed. */
  datatype Policy = Policy(numRetries: int, retryDelay: int, backoffScalingFactor: int, logger: bool)

  /** `retry()` with its default arguments: five tries, 3 seconds, doubling, no logger. */
  function DefaultPolicy(): (p: Policy)
    ensures p.numRetries == 5 && p.retryDelay == 3 && p.backoffScalingFactor == 2 && !p.logger
  {
    Policy(5, 3, 2, false)
  }

  /** Where a retry warning goes: `logger.warning` or the console (`print`). */
  datatype Sink = Logger | Console

  /** One warning: the exception caught and the delay the message announces. */
  datatype Message<+E> = Message(sink: Sink, error: E, delay: int)

  /** What the decorated call raises: an exception of the wrapped function, passed on
      unchanged, or the `ValueError` of `time.sleep` asked to sleep `delay < 0` seconds. */
  datatype Failure<+E> = Thrown(error: E) | NegativeSleep(delay: int)

  /** What one call of the decorated function does: its outcome, how many times it
      invoked the wrapped function, the sleeps it performed and the messages it emitted. */
  datatype Run<+V, +E> = Run(result: Outcome<V, Failure<E>>, calls: nat, sleeps: seq<int>,
                             messages: seq<Message<E>>)

  /** An outcome of the wrapped function, as the decorated call passes it on. */
  function Lift<V, E>(o: Outcome<V, E>): (r: Outcome<V, Failure<E>>)
    ensures r.Ok? <==> o.Ok?
    ensures o.Ok? ==> r.value == o.value
    ensures o.Err? ==> r.error == Thrown(o.error)
  {
    match o
    case Ok(v) => Ok(v)
    case Err(e) => Err(Thrown(e))
  }

  function Pow(b: int, e: nat): int
  {
    if e == 0 then 1 else Pow(b, e - 1) * b
  }

  /** The delay slept after the i-th failed attempt (counting from 0). */
  function DelayAt(p: Policy, i: nat): int
  {
    p.retryDelay * Pow(p.backoffScalingFactor, i)
  }

  /** How many calls sit inside the `while numTries > 1` loop at most. */
  function GuardedCalls(numRetries: int): nat
  {
    if numRetries > 1 then numRetries - 1 else 0
  }

  /** `max(numRetries, 1)`: the number of invocations when every one raises. */
  function MaxCalls(numRetries: int): (n: nat)
    ensures n >= 1 && n >= numRetries
    ensures n == GuardedCalls(numRetries) + 1
  {
    if numRetries > 1 then numRetries else 1
  }

  function SinkOf(p: Policy): (s: Sink)
    ensures s == Logger <==> p.logger
  {
    if p.logger then Logger else Console
  }

  /** The first attempt in `[k, bound)` that returns, or `bound` if all of them raise. */
  function FirstOkFrom<V, E>(op: nat -> Outcome<V, E>, k: nat, bound: nat): (f: nat)
    requires k <= bound
    ensures k <= f <= bound
    ensures forall i :: k <= i < f ==> op(i).Err?
    ensures f < bound ==> op(f).Ok?
    decreases bound - k
  {
    if k == bound then bound
    else if op(k).Ok? then k
    else FirstOkFrom(op, k + 1, bound)
  }

  /** The first i in `[k, bound)` whose delay is negative, or `bound` if there is none. */
  function FirstNegativeFrom(p: Policy, k: nat, bound: nat): (g: nat)
    requires k <= bound
    ensures k <= g <= bound
    ensures forall i :: k <= i < g ==> DelayAt(p, i) >= 0
    ensures g < bound ==> DelayAt(p, g) < 0
    decreases bound - k
  {
    if k == bound then bound
    else if DelayAt(p, k) < 0 then k
    else FirstNegativeFrom(p, k + 1, bound)
  }

  /** How many attempts inside the loop raise before the loop is left. */
  function LoopFailures<V, E>(p: Policy, op: nat -> Outcome<V, E>): nat
  {
    FirstOkFrom(op, 0, GuardedCalls(p.numRetries))
  }

  /** Every delay the loop can reach is a length `time.sleep` accepts. */
  predicate ValidDelays(p: Policy)
  {
    forall i :: 0 <= i < GuardedCalls(p.numRetries) ==> DelayAt(p, i) >= 0
  }

  /** The first `n` delays of the schedule, in the order they are slept. */
  function Schedule(p: Policy, n: nat): (s: seq<int>)
    ensures |s| == n
  {
    if n == 0 then [] else Schedule(p, n - 1) + [DelayAt(p, n - 1)]
  }

  /** The messages for the first `n` attempts, all of which raised. */
  function Messages<V, E>(p: Policy, op: nat -> Outcome<V, E>, n: nat): (m: seq<Message<E>>)
    requires forall i :: 0 <= i < n ==> op(i).Err?
    ensures |m| == n
  {
    if n == 0 then []
    else Messages(p, op, n - 1) + [Message(SinkOf(p), op(n - 1).error, DelayAt(p, n - 1))]
  }

  /** The reference description of one call of the decorated function: every attempt up
      to the first success inside the loop, or up to the loop's end, raises, is reported
      and is slept on, and then one more invocation decides the outcome; unless one of
      those delays is negative, in which case the call ends with `ValueError` right
      after reporting the attempt whose delay it is. */
  function Expected<V, E>(p: Policy, op: nat -> Outcome<V, E>): Run<V, E>
  {
    var f := LoopFailures(p, op);
    var g := FirstNegativeFrom(p, 0, f);
    if g < f then Run(Err(NegativeSleep(DelayAt(p, g))), g + 1, Schedule(p, g), Messages(p, op, g + 1))
    else Run(Lift(op(f)), f + 1, Schedule(p, f), Messages(p, op, f))
  }

  /** `retry_function`: the loop of retry_decorator.py lines 10-23. */
  method RetryFunction<V, E>(p: Policy, op: nat -> Outcome<V, E>) returns (run: Run<V, E>)
    ensures run == Expected(p, op)
  {
    var numTries, currentDelay := p.numRetries, p.retryDelay;
    var calls: nat, sleeps, messages := 0, [], [];
    while numTries > 1
      invariant Progress(p, op, calls, numTries, currentDelay, sleeps, messages)
      decreases numTries
    {
      var outcome := op(calls);
      if outcome.Ok? {
        ProgressSuccess(p, op, calls, numTries, currentDelay, sleeps, messages);
        return Run(Ok(outcome.value), calls + 1, sleeps, messages);
      }
      var sink := if p.logger then Logger else Console;
      if currentDelay < 0 {
        ProgressNegative(p, op, calls, numTries, currentDelay, sleeps, messages);
        return Run(Err(NegativeSleep(currentDelay)), calls + 1, sleeps,
                   messages + [Message(sink, outcome.error, currentDelay)]);
      }
      ProgressStep(p, op, calls, numTries, currentDelay, sleeps, messages);
      messages := messages + [Message(sink, outcome.error, currentDelay)];
      sleeps := sleeps + [currentDelay];
      calls, numTries := calls + 1, numTries - 1;
      currentDelay := currentDelay * p.backoffScalingFactor;
    }
    ProgressFinal(p, op, calls, numTries, currentDelay, sleeps, messages);
    var outcome := op(calls);
    run := Run(Lift(outcome), calls + 1, sleeps, messages);
  }

  /** The state of the loop after `k` attempts, all of which raised and were slept on. */
  ghost predicate Progress<V, E>(p: Policy, op: nat -> Outcome<V, E>, k: nat, numTries: int,
                                 currentDelay: int, sleeps: seq<int>, messages: seq<Message<E>>)
  {
    && k <= GuardedCalls(p.numRetries)
    && numTries == p.numRetries - k
    && currentDelay == DelayAt(p, k)
    && (forall i :: 0 <= i < k ==> op(i).Err?)
    && (forall i :: 0 <= i < k ==> DelayAt(p, i) >= 0)
    && sleeps == Schedule(p, k)
    && messages == Messages(p, op, k)
  }

  lemma ProgressStep<V, E>(p: Policy, op: nat -> Outcome<V, E>, k: nat, numTries: int,
                           currentDelay: int, sleeps: seq<int>, messages: seq<Message<E>>)
    requires Progress(p, op, k, numTries, currentDelay, sleeps, messages)
    requires numTries > 1 && op(k).Err? && currentDelay >= 0
    ensures Progress(p, op, k + 1, numTries - 1, currentDelay * p.backoffScalingFactor,
                     sleeps + [currentDelay],
                     messages + [Message(SinkOf(p), op(k).error, currentDelay)])
  {
    var b := Pow(p.backoffScalingFactor, k);
    calc {
      DelayAt(p, k + 1);
      p.retryDelay * (b * p.backoffScalingFactor);
      { MulAssoc(p.retryDelay, b, p.backoffScalingFactor); }
      DelayAt(p, k) * p.backoffScalingFactor;
    }
  }

  lemma MulAssoc(a: int, b: int, c: int)
    ensures a * (b * c) == (a * b) * c
  {
  }

  lemma ProgressSuccess<V, E>(p: Policy, op: nat -> Outcome<V, E>, k: nat, numTries: int,
                              currentDelay: int, sleeps: seq<int>, messages: seq<Message<E>>)
    requires Progress(p, op, k, numTries, currentDelay, sleeps, messages)
    requires numTries > 1 && op(k).Ok?
    ensures Expected(p, op) == Run(Ok(op(k).value), k + 1, sleeps, messages)
  {
  }

  lemma ProgressNegative<V, E>(p: Policy, op: nat -> Outcome<V, E>, k: nat, numTries: int,
                               currentDelay: int, sleeps: seq<int>, messages: seq<Message<E>>)
    requires Progress(p, op, k, numTries, currentDelay, sleeps, messages)
    requires numTries > 1 && op(k).Err? && currentDelay < 0
    ensures Expected(p, op) == Run(Err(NegativeSleep(currentDelay)), k + 1, sleeps,
                                   messages + [Message(SinkOf(p), op(k).error, currentDelay)])
  {
    var f := LoopFailures(p, op);
    assert k < f;
    assert FirstNegativeFrom(p, 0, f) == k;
  }

  lemma ProgressFinal<V, E>(p: Policy, op: nat -> Outcome<V, E>, k: nat, numTries: int,
                            currentDelay: int, sleeps: seq<int>, messages: seq<Message<E>>)
    requires Progress(p, op, k, numTries, currentDelay, sleeps, messages)
    requires numTries <= 1
    ensures Expected(p, op) == Run(Lift(op(k)), k + 1, sleeps, messages)
  {
  }

  // ---------------------------------------------------------------------------
  // Properties of the reference description.

  /** The i-th sleep lasts `retryDelay * backoffScalingFactor^i`. */
  lemma {:induction false} ScheduleAt(p: Policy, n: nat, i: nat)
    requires i < n
    ensures Schedule(p, n)[i] == p.retryDelay * Pow(p.backoffScalingFactor, i)
  {
    if i < n - 1 {
      ScheduleAt(p, n - 1, i);
    }
  }

  /** Each sleep is the previous one multiplied by the scaling factor. */
  lemma ScheduleGrows(p: Policy, n: nat, i: nat)
    requires i + 1 < n
    ensures Schedule(p, n)[i + 1] == Schedule(p, n)[i] * p.backoffScalingFactor
  {
    ScheduleAt(p, n, i);
    ScheduleAt(p, n, i + 1);
    MulAssoc(p.retryDelay, Pow(p.backoffScalingFactor, i), p.backoffScalingFactor);
  }

  /** Message i reports the exception of attempt i and the delay announced after it. */
  lemma {:induction false} MessagesAt<V, E>(p: Policy, op: nat -> Outcome<V, E>, n: nat, i: nat)
    requires forall j :: 0 <= j < n ==> op(j).Err?
    requires i < n
    ensures Messages(p, op, n)[i] == Message(SinkOf(p), op(i).error, DelayAt(p, i))
  {
    if i < n - 1 {
      MessagesAt(p, op, n - 1, i);
    }
  }

  lemma {:induction false} PowNonNegative(b: int, e: nat)
    requires b >= 0
    ensures Pow(b, e) >= 0
  {
    if e > 0 {
      PowNonNegative(b, e - 1);
    }
  }

  /** A non-negative delay and factor never make `time.sleep` fail. */
  lemma DelaysNonNegative(p: Policy)
    requires p.retryDelay >= 0 && p.backoffScalingFactor >= 0
    ensures ValidDelays(p)
  {
    forall i | 0 <= i < GuardedCalls(p.numRetries)
      ensures DelayAt(p, i) >= 0
    {
      PowNonNegative(p.backoffScalingFactor, i);
    }
  }

  /** If every invocation raises: with delays `time.sleep` accepts, the function is
      invoked exactly `max(numRetries, 1)` times and the caller receives the last
      invocation's exception; otherwise the call ends earlier with `ValueError`. */
  lemma AllAttemptsFail<V, E>(p: Policy, op: nat -> Outcome<V, E>)
    requires forall i :: 0 <= i < MaxCalls(p.numRetries) ==> op(i).Err?
    ensures ValidDelays(p) ==>
              && Expected(p, op).calls == MaxCalls(p.numRetries)
              && Expected(p, op).result == Err(Thrown(op(MaxCalls(p.numRetries) - 1).error))
    ensures !ValidDelays(p) ==>
              && Expected(p, op).result.Err? && Expected(p, op).result.error.NegativeSleep?
              && Expected(p, op).calls < MaxCalls(p.numRetries)
  {
    if !ValidDelays(p) {
      var i :| 0 <= i < GuardedCalls(p.numRetries) && DelayAt(p, i) < 0;
      assert LoopFailures(p, op) == GuardedCalls(p.numRetries);
      assert FirstNegativeFrom(p, 0, GuardedCalls(p.numRetries)) <= i;
    }
  }

  /** If attempt k (counting from 1, k <= max(numRetries, 1)) is the first to return and
      the delays before it are valid, the decorated function returns its value after
      exactly k invocations; if one of those delays is negative, it raises `ValueError`
      before reaching attempt k. */
  lemma FirstSuccess<V, E>(p: Policy, op: nat -> Outcome<V, E>, k: nat)
    requires 1 <= k <= MaxCalls(p.numRetries)
    requires forall i :: 0 <= i < k - 1 ==> op(i).Err?
    requires op(k - 1).Ok?
    ensures (forall i :: 0 <= i < k - 1 ==> DelayAt(p, i) >= 0) ==>
              Expected(p, op).calls == k && Expected(p, op).result == Ok(op(k - 1).value)
    ensures (exists i :: 0 <= i < k - 1 && DelayAt(p, i) < 0) ==>
              && Expected(p, op).calls < k
              && Expected(p, op).result.Err? && Expected(p, op).result.error.NegativeSleep?
  {
    assert LoopFailures(p, op) == k - 1;
    if exists i :: 0 <= i < k - 1 && DelayAt(p, i) < 0 {
      var i :| 0 <= i < k - 1 && DelayAt(p, i) < 0;
      assert FirstNegativeFrom(p, 0, k - 1) <= i;
    }
  }

  /** The caller gets the last invocation's return value or exception unchanged, an
      exception of the wrapped function only once every try is used up; or else the
      `ValueError` of a negative sleep, right after reporting the last invocation. */
  lemma FailurePassesThrough<V, E>(p: Policy, op: nat -> Outcome<V, E>)
    ensures var run := Expected(p, op);
      && 1 <= run.calls <= MaxCalls(p.numRetries)
      && (forall i :: 0 <= i < run.calls - 1 ==> op(i).Err?)
      && (run.result.Ok? || run.result.error.Thrown? ==> run.result == Lift(op(run.calls - 1)))
      && (run.result.Err? && run.result.error.Thrown? ==> run.calls == MaxCalls(p.numRetries))
      && (run.result.Err? && run.result.error.NegativeSleep? ==>
            && op(run.calls - 1).Err? && run.result.error.delay < 0
            && run.result.error.delay == DelayAt(p, run.calls - 1)
            && run.calls < MaxCalls(p.numRetries))
  {
  }

  /** Sleeps and messages: one message per failed attempt inside the loop, none for the
      last invocation; each message followed by a sleep of the delay it announces,
      except the message of a negative delay, whose sleep raises. So there are at most
      `numRetries - 1` of each, every sleep is non-negative, and messages go to the
      logger if one was given and to the console otherwise. */
  lemma SleepsAndMessages<V, E>(p: Policy, op: nat -> Outcome<V, E>)
    ensures var run := Expected(p, op);
      && |run.sleeps| == run.calls - 1
      && |run.messages| == (if run.result.Err? && run.result.error.NegativeSleep? then run.calls else run.calls - 1)
      && |run.messages| <= GuardedCalls(p.numRetries)
      && (forall i :: 0 <= i < |run.sleeps| ==>
            && op(i).Err? && run.sleeps[i] >= 0
            && run.sleeps[i] == p.retryDelay * Pow(p.backoffScalingFactor, i))
      && (forall i :: 0 <= i < |run.messages| ==>
            op(i).Err? && run.messages[i] == Message(SinkOf(p), op(i).error, DelayAt(p, i)))
  {
    SleptDelays(p, op);
    ReportedFailures(p, op);
  }

  lemma SleptDelays<V, E>(p: Policy, op: nat -> Outcome<V, E>)
    ensures var run := Expected(p, op);
      && |run.sleeps| == run.calls - 1
      && (forall i :: 0 <= i < |run.sleeps| ==>
            && op(i).Err? && run.sleeps[i] >= 0
            && run.sleeps[i] == p.retryDelay * Pow(p.backoffScalingFactor, i))
  {
    var f := LoopFailures(p, op);
    var g := FirstNegativeFrom(p, 0, f);
    assert Expected(p, op).sleeps == Schedule(p, g);
    forall i | 0 <= i < g
      ensures op(i).Err? && DelayAt(p, i) >= 0
      ensures Schedule(p, g)[i] == p.retryDelay * Pow(p.backoffScalingFactor, i)
    {
      ScheduleAt(p, g, i);
    }
  }

  lemma ReportedFailures<V, E>(p: Policy, op: nat -> Outcome<V, E>)
    ensures var run := Expected(p, op);
      && |run.messages| == (if run.result.Err? && run.result.error.NegativeSleep? then run.calls else run.calls - 1)
      && |run.messages| <= GuardedCalls(p.numRetries)
      && (forall i :: 0 <= i < |run.messages| ==>
            op(i).Err? && run.messages[i] == Message(SinkOf(p), op(i).error, DelayAt(p, i)))
  {
    var f := LoopFailures(p, op);
    var g := FirstNegativeFrom(p, 0, f);
    var m := if g < f then g + 1 else f;
    assert Expected(p, op).messages == Messages(p, op, m);
    forall i | 0 <= i < m
      ensures op(i).Err?
      ensures Messages(p, op, m)[i] == Message(SinkOf(p), op(i).error, DelayAt(p, i))
    {
      MessagesAt(p, op, m, i);
    }
  }

  /** With `numRetries <= 1` the loop never runs: one invocation, no sleep, no message. */
  lemma SingleTry<V, E>(p: Policy, op: nat -> Outcome<V, E>)
    requires p.numRetries <= 1
    ensures Expected(p, op) == Run(Lift(op(0)), 1, [], [])
  {
  }

  /** A negative `retryDelay` with more than one try: if the first invocation raises, it
      is reported, and the first `sleep` raises `ValueError`; one invocation, no sleep. */
  lemma NegativeDelayAborts<V, E>(p: Policy, op: nat -> Outcome<V, E>)
    requires p.retryDelay < 0 && p.numRetries > 1 && op(0).Err?
    ensures Expected(p, op) ==
              Run(Err(NegativeSleep(p.retryDelay)), 1, [], [Message(SinkOf(p), op(0).error, p.retryDelay)])
  {
    assert LoopFailures(p, op) >= 1;
    assert DelayAt(p, 0) == p.retryDelay;
  }

  /** A positive delay with a negative factor and more than two tries: if the first two
      invocations raise, the first sleep happens and the second raises `ValueError`. */
  lemma NegativeFactorAborts<V, E>(p: Policy, op: nat -> Outcome<V, E>)
    requires p.retryDelay > 0 && p.backoffScalingFactor < 0 && p.numRetries > 2
    requires op(0).Err? && op(1).Err?
    ensures var d := p.retryDelay * p.backoffScalingFactor;
      Expected(p, op) == Run(Err(NegativeSleep(d)), 2, [p.retryDelay],
                             [Message(SinkOf(p), op(0).error, p.retryDelay),
                              Message(SinkOf(p), op(1).error, d)])
  {
    assert LoopFailures(p, op) >= 2;
    assert DelayAt(p, 0) == p.retryDelay;
    assert DelayAt(p, 1) == p.retryDelay * p.backoffScalingFactor;
    assert FirstNegativeFrom(p, 0, LoopFailures(p, op)) == 1;
    assert Schedule(p, 1) == [p.retryDelay];
    assert Messages(p, op, 1) == [Message(SinkOf(p), op(0).error, p.retryDelay)];
  }

  /** The schedule of the engines' configuration (5 tries, 3, doubling) when every
      attempt fails: sleeps of 3, 6, 12 and 24 seconds around five invocations. */
  lemma EngineScheduleWhenAllFail<V, E>(op: nat -> Outcome<V, E>)
    requires forall i :: 0 <= i < 5 ==> op(i).Err?
    ensures Expected(Policy(5, 3, 2, false), op).calls == 5
    ensures Expected(Policy(5, 3, 2, false), op).sleeps == [3, 6, 12, 24]
    ensures |Expected(Policy(5, 3, 2, false), op).messages| == 4
  {
    var p := Policy(5, 3, 2, false);
    DelaysNonNegative(p);
    AllAttemptsFail(p, op);
    assert LoopFailures(p, op) == 4;
    assert Schedule(p, 4) == [3, 6, 12, 24];
  }
}
