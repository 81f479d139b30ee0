/** The retry-with-backoff executor every network, mail and file operation runs
    under, and the keyword classifier that decides whether a failure is retried.

    A retried operation is a function of the attempt number and of a "world" that
    the operation may change (the file system, for the state store; nothing, for
    the others). Thread.sleep is modelled by appending its delay to a trace, and an
    interrupted sleep by a per-attempt flag supplied by the environment. */
module RetryUtility {
  import opened Text
  import opened Errors

  type Positive = n: nat | n > 0 witness 1

  /** The backoff multiplier as the exact ratio num / den. */
  datatype Multiplier = Multiplier(num: nat, den: Positive)

  datatype RetryConfig = RetryConfig(
    maxAttempts: int,
    initialDelayMs: nat,
    maxDelayMs: nat,
    backoffMultiplier: Multiplier)

  /** The preset for calls to the stock API. */
  function ForApiCalls(): RetryConfig
  {
    RetryConfig(3, 1000, 10000, Multiplier(2, 1))
  }

  /** The preset for e-mail delivery. */
  function ForEmailDelivery(): RetryConfig
  {
    RetryConfig(3, 2000, 15000, Multiplier(3, 2))
  }

  /** The preset for reading and writing the state file. */
  function ForStateOperations(): RetryConfig
  {
    RetryConfig(2, 500, 2000, Multiplier(2, 1))
  }

  /** `Math.min((long) (currentDelay * multiplier), maxDelay)`: the product is
      truncated, which for non-negative operands is floor division. */
  function NextDelay(config: RetryConfig, delay: nat): (r: nat)
    ensures r <= config.maxDelayMs
    ensures r * config.backoffMultiplier.den <= delay * config.backoffMultiplier.num
    // below the cap, r is the largest such value: the truncated product
    ensures r == config.maxDelayMs || delay * config.backoffMultiplier.num < (r + 1) * config.backoffMultiplier.den
  {
    var scaled := delay * config.backoffMultiplier.num / config.backoffMultiplier.den;
    FloorDivBounds(delay * config.backoffMultiplier.num, config.backoffMultiplier.den);
    if scaled < config.maxDelayMs then scaled else config.maxDelayMs
  }

  lemma FloorDivBounds(x: nat, d: Positive)
    ensures (x / d) * d <= x < (x / d + 1) * d
  {
  }

  /** The delay of the i-th sleep (counting from 0) of a run that keeps retrying. */
  function DelayAt(config: RetryConfig, i: nat): nat
  {
    if i == 0 then config.initialDelayMs else NextDelay(config, DelayAt(config, i - 1))
  }

  /** Every sleep after the first is capped by maxDelay. */
  lemma DelayCapped(config: RetryConfig, i: nat)
    requires i >= 1
    ensures DelayAt(config, i) <= config.maxDelayMs
  {
  }

  lemma MulMonotone(x: nat, y: nat, c: nat)
    requires x <= y
    ensures x * c <= y * c
  {
    assert y * c == x * c + (y - x) * c;
  }

  lemma ScaleUp(d: nat, num: nat, den: Positive)
    requires num >= den
    ensures d * num / den >= d
  {
    var q, r := d * num / den, d * num % den;
    assert d * num == q * den + r && r < den;
    MulMonotone(den, num, d);
    assert d * den <= d * num;
    if q < d {
      MulMonotone(q + 1, d, den);
      assert false;
    }
  }

  /** With a multiplier of at least 1 and initialDelay <= maxDelay, the delays never decrease. */
  lemma {:induction false} DelaysNonDecreasing(config: RetryConfig, i: nat)
    requires config.backoffMultiplier.num >= config.backoffMultiplier.den
    requires config.initialDelayMs <= config.maxDelayMs
    ensures DelayAt(config, i) <= DelayAt(config, i + 1)
    ensures DelayAt(config, i) <= config.maxDelayMs
  {
    if i > 0 {
      DelaysNonDecreasing(config, i - 1);
    }
    var d := DelayAt(config, i);
    ScaleUp(d, config.backoffMultiplier.num, config.backoffMultiplier.den);
  }

  /** The three presets back off from the initial delay, in milliseconds:
      1000 then 2000 for API calls, 2000 then 3000 for e-mail, 500 for the state file. */
  lemma PresetSchedules()
    ensures DelayAt(ForApiCalls(), 0) == 1000 && DelayAt(ForApiCalls(), 1) == 2000
    ensures DelayAt(ForApiCalls(), 2) == 4000
    ensures DelayAt(ForEmailDelivery(), 0) == 2000 && DelayAt(ForEmailDelivery(), 1) == 3000
    ensures DelayAt(ForEmailDelivery(), 2) == 4500
    ensures DelayAt(ForStateOperations(), 0) == 500 && DelayAt(ForStateOperations(), 1) == 1000
    ensures DelayAt(ForStateOperations(), 3) == 2000
  {
    assert DelayAt(ForStateOperations(), 2) == 2000;
  }

  // ---------------------------------------------------------------------------
  // Failure classification

  const NetworkKeywords: seq<string> := ["connection", "network", "timeout", "unreachable"]
  const NetworkClassKeywords: seq<string> := ["connection", "socket"]
  const ServerErrorKeywords: seq<string> :=
    ["internal server error", "bad gateway", "service unavailable", "gateway timeout", "status 5"]
  const RateLimitKeywords: seq<string> := ["rate limit", "too many requests", "status 429"]
  const TemporaryKeywords: seq<string> := ["temporary", "retry", "try again"]
  const MailKeywords: seq<string> := ["smtp", "mail server", "could not connect"]
  const NonRetryableKeywords: seq<string> :=
    ["authentication", "unauthorized", "forbidden", "not found", "bad request", "invalid"]

  /** Every message keyword that makes a failure retryable, whichever group it belongs to. */
  const RetryableKeywords: seq<string> :=
    NetworkKeywords + ServerErrorKeywords + RateLimitKeywords + TemporaryKeywords + MailKeywords

  /** Some keyword of the list occurs in `s`, trying the keywords in order. */
  predicate ContainsAny(s: string, keywords: seq<string>)
  {
    if keywords == [] then false else Contains(s, keywords[0]) || ContainsAny(s, keywords[1..])
  }

  lemma {:induction false} ContainsAnyExists(s: string, keywords: seq<string>)
    ensures ContainsAny(s, keywords) <==> exists k | k in keywords :: Contains(s, k)
  {
    if keywords != [] {
      ContainsAnyExists(s, keywords[1..]);
      assert forall k :: k in keywords <==> k == keywords[0] || k in keywords[1..];
    }
  }

  lemma ContainsAnyConcat(s: string, a: seq<string>, b: seq<string>)
    ensures ContainsAny(s, a + b) <==> ContainsAny(s, a) || ContainsAny(s, b)
  {
    ContainsAnyExists(s, a);
    ContainsAnyExists(s, b);
    ContainsAnyExists(s, a + b);
    assert forall k :: k in a + b <==> k in a || k in b;
  }

  /** The groups are tried in order: network (message or class name), server error,
      rate limit, temporary, mail; then the non-retryable keywords; unknown
      failures are retryable. Message and simple class name are lower-cased. */
  function IsRetryableException(e: Exc): (r: bool)
    ensures r <==>
      ContainsAny(Lower(e.message), RetryableKeywords)
      || ContainsAny(Lower(SimpleName(e.cls)), NetworkClassKeywords)
      || !ContainsAny(Lower(e.message), NonRetryableKeywords)
  {
    var message := Lower(e.message);
    var className := Lower(SimpleName(e.cls));
    RetryableGroups(message);
    if ContainsAny(message, NetworkKeywords) || ContainsAny(className, NetworkClassKeywords) then true
    else if ContainsAny(message, ServerErrorKeywords) then true
    else if ContainsAny(message, RateLimitKeywords) then true
    else if ContainsAny(message, TemporaryKeywords) then true
    else if ContainsAny(message, MailKeywords) then true
    else if ContainsAny(message, NonRetryableKeywords) then false
    else true
  }

  /** A message holds a retryable keyword iff it holds one of some group. */
  lemma RetryableGroups(message: string)
    ensures ContainsAny(message, RetryableKeywords) <==>
      || ContainsAny(message, NetworkKeywords) || ContainsAny(message, ServerErrorKeywords)
      || ContainsAny(message, RateLimitKeywords) || ContainsAny(message, TemporaryKeywords)
      || ContainsAny(message, MailKeywords)
  {
    ContainsAnyConcat(message, NetworkKeywords, ServerErrorKeywords);
    ContainsAnyConcat(message, NetworkKeywords + ServerErrorKeywords, RateLimitKeywords);
    ContainsAnyConcat(message, NetworkKeywords + ServerErrorKeywords + RateLimitKeywords, TemporaryKeywords);
    ContainsAnyConcat(message, NetworkKeywords + ServerErrorKeywords + RateLimitKeywords + TemporaryKeywords, MailKeywords);
  }

  /** A retryable keyword anywhere in the message wins over any non-retryable one. */
  lemma RetryableKeywordWins(e: Exc, k: string)
    requires k in RetryableKeywords
    requires Contains(Lower(e.message), k)
    ensures IsRetryableException(e)
  {
    ContainsAnyExists(Lower(e.message), RetryableKeywords);
  }

  /** The failure is terminal only when a non-retryable keyword is present and no retryable one. */
  lemma TerminalOnlyOnNonRetryableKeyword(e: Exc)
    requires !IsRetryableException(e)
    ensures ContainsAny(Lower(e.message), NonRetryableKeywords)
    ensures !ContainsAny(Lower(e.message), RetryableKeywords)
  {
  }

  /** A lower-case keyword inside a message is found by the lower-casing classifier. */
  lemma KeywordInMessage(prefix: string, k: string, suffix: string)
    requires Lower(k) == k
    ensures Contains(Lower(prefix + k + suffix), k)
  {
    LowerConcat(prefix + k, suffix);
    LowerConcat(prefix, k);
    ContainsInfix(Lower(prefix), k, Lower(suffix));
  }

  /** A failure whose message contains a retryable keyword, in any letter case,
      is retried once the retried lambda has wrapped it in a RuntimeException. */
  lemma WrappedKeywordRetryable(e: Exc, k: string)
    requires Lower(k) in RetryableKeywords
    requires Contains(e.message, k)
    ensures IsRetryableException(WrapInRuntime(e))
  {
    var w := WrapInRuntime(e);
    ContainsRight(QualifiedName(e.cls) + ": ", e.message, k);
    ContainsLower(w.message, k);
    RetryableKeywordWins(w, Lower(k));
  }

  // ---------------------------------------------------------------------------
  // The executor

  /** What one attempt does: its outcome and the world it leaves behind. */
  datatype Step<W, T> = Step(outcome: Result<T>, world: W)

  /** A run of the executor: what it returns or throws, the final world, the
      delays it slept, and the outcome of each attempt in order. */
  datatype RetryRun<W, T> = RetryRun(result: Result<T>, world: W, sleeps: seq<nat>, attempts: seq<Result<T>>)

  /** The exception thrown when the loop ends without a success. */
  function ExhaustedError(config: RetryConfig, operationName: string, last: Cause): Exc
  {
    Exc(PlainException,
        "Operation '" + operationName + "' failed after " + IntToString(config.maxAttempts) + " attempts",
        last)
  }

  /** The exception thrown when a sleep between attempts is interrupted. */
  const InterruptedError: Exc :=
    Exc(PlainException, "Retry operation was interrupted", CausedBy(Exc(InterruptedException, "sleep interrupted", NoCause)))

  /** The run from attempt `attempt` on, with `delay` the next sleep and `last`
      the failure of the previous attempt. */
  function RetryFrom<W, T>(config: RetryConfig, operationName: string, op: (W, nat) -> Step<W, T>,
                           retryable: Exc -> bool, interrupted: nat -> bool, attempt: nat, delay: nat, last: Cause, world: W): RetryRun<W, T>
    requires attempt >= 1
    decreases if attempt <= config.maxAttempts then config.maxAttempts - attempt + 1 else 0
  {
    if attempt > config.maxAttempts then
      RetryRun(Err(ExhaustedError(config, operationName, last)), world, [], [])
    else
      var step := op(world, attempt);
      match step.outcome
      case Ok(_) => RetryRun(step.outcome, step.world, [], [step.outcome])
      case Err(e) =>
        if attempt == config.maxAttempts || !retryable(e) then
          RetryRun(Err(ExhaustedError(config, operationName, CausedBy(e))), step.world, [], [step.outcome])
        else if interrupted(attempt) then
          RetryRun(Err(InterruptedError), step.world, [delay], [step.outcome])
        else
          var rest := RetryFrom(config, operationName, op, retryable, interrupted, attempt + 1,
                                NextDelay(config, delay), CausedBy(e), step.world);
          RetryRun(rest.result, rest.world, [delay] + rest.sleeps, [step.outcome] + rest.attempts)
  }

  /** The whole run, from the first attempt. */
  function Retry<W, T>(config: RetryConfig, operationName: string, op: (W, nat) -> Step<W, T>,
                       interrupted: nat -> bool, world: W): RetryRun<W, T>
  {
    RetryFrom(config, operationName, op, IsRetryableException, interrupted, 1, config.initialDelayMs, NoCause, world)
  }

  function PrependRun<W, T>(sleeps: seq<nat>, attempts: seq<Result<T>>, run: RetryRun<W, T>): RetryRun<W, T>
  {
    RetryRun(run.result, run.world, sleeps + run.sleeps, attempts + run.attempts)
  }

  lemma PrependTwice<W, T>(s1: seq<nat>, a1: seq<Result<T>>, s2: seq<nat>, a2: seq<Result<T>>, run: RetryRun<W, T>)
    ensures PrependRun(s1, a1, PrependRun(s2, a2, run)) == PrependRun(s1 + s2, a1 + a2, run)
  {
    assert s1 + (s2 + run.sleeps) == (s1 + s2) + run.sleeps;
    assert a1 + (a2 + run.attempts) == (a1 + a2) + run.attempts;
  }

  /** RetryUtility.executeWithRetry. The void overload is this method at T = (). */
  method ExecuteWithRetry<W, T>(op: (W, nat) -> Step<W, T>, config: RetryConfig, operationName: string,
                                interrupted: nat -> bool, world: W) returns (run: RetryRun<W, T>)
    ensures run == Retry(config, operationName, op, interrupted, world)
  {
    var lastException: Cause := NoCause;
    var currentDelay := config.initialDelayMs;
    var w := world;
    var sleeps: seq<nat> := [];
    var attempts: seq<Result<T>> := [];
    var attempt := 1;
    while attempt <= config.maxAttempts
      invariant attempt >= 1
      invariant PrependRun(sleeps, attempts, RetryFrom(config, operationName, op, IsRetryableException, interrupted, attempt, currentDelay, lastException, w))
                == Retry(config, operationName, op, interrupted, world)
      decreases config.maxAttempts - attempt
    {
      ghost var before := RetryFrom(config, operationName, op, IsRetryableException, interrupted, attempt, currentDelay, lastException, w);
      ghost var prefixSleeps, prefixAttempts, delay := sleeps, attempts, currentDelay;
      var step := op(w, attempt);
      w := step.world;
      attempts := attempts + [step.outcome];
      if step.outcome.Ok? {
        run := RetryRun(step.outcome, w, sleeps, attempts);
        assert run == PrependRun(prefixSleeps, prefixAttempts, before);
        return;
      }
      var e := step.outcome.error;
      lastException := CausedBy(e);
      if attempt == config.maxAttempts {
        assert before == RetryRun(Err(ExhaustedError(config, operationName, lastException)), w, [], [step.outcome]);
        break;
      }
      if IsRetryableException(e) {
        sleeps := sleeps + [currentDelay];
        if interrupted(attempt) {
          run := RetryRun(Err(InterruptedError), w, sleeps, attempts);
          assert run == PrependRun(prefixSleeps, prefixAttempts, before);
          return;
        }
        currentDelay := NextDelay(config, currentDelay);
      } else {
        assert before == RetryRun(Err(ExhaustedError(config, operationName, lastException)), w, [], [step.outcome]);
        break;
      }
      attempt := attempt + 1;
      ghost var after := RetryFrom(config, operationName, op, IsRetryableException, interrupted, attempt, currentDelay, lastException, w);
      assert before == PrependRun([delay], [step.outcome], after);
      PrependTwice(prefixSleeps, prefixAttempts, [delay], [step.outcome], after);
    }
    run := RetryRun(Err(ExhaustedError(config, operationName, lastException)), w, sleeps, attempts);
  }
}

module RetryProperties {
  import opened Text
  import opened Errors
  import opened RetryUtility

  /** Every attempt but the last (the first made as attempt `a`) failed
      retryably and its sleep was not interrupted. */
  ghost predicate RetriedBefore<T>(retryable: Exc -> bool, interrupted: nat -> bool, a: nat, attempts: seq<Result<T>>)
  {
    forall i :: 0 <= i < |attempts| - 1 ==>
      attempts[i].Err? && retryable(attempts[i].error) && !interrupted(a + i)
  }

  /** The three ways a run ends: the last attempt succeeded; a sleep was
      interrupted; or the loop stopped (attempts used up or a terminal failure)
      and the executor threw, citing the last failure as cause. */
  ghost predicate RunShape<W, T>(config: RetryConfig, operationName: string, retryable: Exc -> bool, interrupted: nat -> bool,
                                 a: nat, last: Cause, r: RetryRun<W, T>)
  {
    var n := |r.attempts|;
    && RetriedBefore(retryable, interrupted, a, r.attempts)
    && (
      // success on the last attempt, with one sleep between consecutive attempts
      || (n >= 1 && r.attempts[n - 1].Ok? && r.result == r.attempts[n - 1] && |r.sleeps| == n - 1)
      // the sleep after the last attempt was interrupted
      || (n >= 1 && r.attempts[n - 1].Err? && retryable(r.attempts[n - 1].error)
          && a + n - 1 < config.maxAttempts && interrupted(a + n - 1)
          && r.result == Err(InterruptedError) && |r.sleeps| == n)
      // the loop ended on its last attempt or on a terminal failure, without sleeping after it
      || (n >= 1 && r.attempts[n - 1].Err?
          && (a + n - 1 == config.maxAttempts || !retryable(r.attempts[n - 1].error))
          && r.result == Err(ExhaustedError(config, operationName, CausedBy(r.attempts[n - 1].error)))
          && |r.sleeps| == n - 1)
      // no attempt at all (maxAttempts below the first attempt number)
      || (n == 0 && a > config.maxAttempts
          && r.result == Err(ExhaustedError(config, operationName, last)) && r.sleeps == []))
  }

  /** Prefixing a failed, retried, uninterrupted attempt keeps the shape of a run. */
  lemma ShapeStep<W, T>(config: RetryConfig, operationName: string, retryable: Exc -> bool, interrupted: nat -> bool,
                        a: nat, last: Cause, e: Exc, delay: nat, rest: RetryRun<W, T>, r: RetryRun<W, T>)
    requires a + 1 <= config.maxAttempts
    requires retryable(e) && !interrupted(a)
    requires RunShape(config, operationName, retryable, interrupted, a + 1, CausedBy(e), rest)
    requires |rest.attempts| >= 1
    requires r == RetryRun(rest.result, rest.world, [delay] + rest.sleeps, [Err(e)] + rest.attempts)
    ensures RunShape(config, operationName, retryable, interrupted, a, last, r)
  {
    var n := |rest.attempts|;
    assert |r.attempts| == n + 1;
    assert r.attempts[n] == rest.attempts[n - 1];
    assert |r.sleeps| == |rest.sleeps| + 1;
    assert a + (n + 1) - 1 == (a + 1) + n - 1;
    assert r.result == rest.result;
    forall i | 0 <= i < n
      ensures r.attempts[i].Err? && retryable(r.attempts[i].error) && !interrupted(a + i)
    {
      if i > 0 {
        assert r.attempts[i] == rest.attempts[i - 1];
      }
    }
    assert RetriedBefore(retryable, interrupted, a, r.attempts);
  }

  /** A run of exactly one attempt that ended without a retry has the shape of a run. */
  lemma ShapeSingle<W, T>(config: RetryConfig, operationName: string, retryable: Exc -> bool, interrupted: nat -> bool,
                          a: nat, last: Cause, r: RetryRun<W, T>)
    requires |r.attempts| == 1
    requires
      || (r.attempts[0].Ok? && r.result == r.attempts[0] && r.sleeps == [])
      || (r.attempts[0].Err? && retryable(r.attempts[0].error)
          && a < config.maxAttempts && interrupted(a)
          && r.result == Err(InterruptedError) && |r.sleeps| == 1)
      || (r.attempts[0].Err?
          && (a == config.maxAttempts || !retryable(r.attempts[0].error))
          && r.result == Err(ExhaustedError(config, operationName, CausedBy(r.attempts[0].error)))
          && r.sleeps == [])
    ensures RunShape(config, operationName, retryable, interrupted, a, last, r)
  {
  }

  /** The runs from attempt `a` on make at most the remaining number of attempts, and at least one. */
  lemma {:induction false} RetryFromAttempts<W, T>(config: RetryConfig, operationName: string, op: (W, nat) -> Step<W, T>,
                                                   retryable: Exc -> bool, interrupted: nat -> bool, a: nat, delay: nat, last: Cause, world: W)
    requires a >= 1
    ensures var r := RetryFrom(config, operationName, op, retryable, interrupted, a, delay, last, world);
      && |r.attempts| <= (if a <= config.maxAttempts then config.maxAttempts - a + 1 else 0)
      && (a <= config.maxAttempts ==> |r.attempts| >= 1)
    decreases if a <= config.maxAttempts then config.maxAttempts - a + 1 else 0
  {
    if a <= config.maxAttempts {
      var step := op(world, a);
      if step.outcome.Err? {
        var e := step.outcome.error;
        if a < config.maxAttempts && retryable(e) && !interrupted(a) {
          RetryFromAttempts(config, operationName, op, retryable, interrupted, a + 1, NextDelay(config, delay), CausedBy(e), step.world);
        }
      }
    }
  }

  /** The runs from one attempt number on have the shape of a run. */
  lemma {:induction false} RetryFromShape<W, T>(config: RetryConfig, operationName: string, op: (W, nat) -> Step<W, T>,
                                                retryable: Exc -> bool, interrupted: nat -> bool, a: nat, delay: nat, last: Cause, world: W)
    requires a >= 1
    ensures RunShape(config, operationName, retryable, interrupted, a, last,
                     RetryFrom(config, operationName, op, retryable, interrupted, a, delay, last, world))
    decreases if a <= config.maxAttempts then config.maxAttempts - a + 1 else 0
  {
    var r := RetryFrom(config, operationName, op, retryable, interrupted, a, delay, last, world);
    if a <= config.maxAttempts {
      var step := op(world, a);
      if step.outcome.Ok? {
        assert r == RetryRun(step.outcome, step.world, [], [step.outcome]);
        ShapeSingle(config, operationName, retryable, interrupted, a, last, r);
      } else {
        var e := step.outcome.error;
        if a == config.maxAttempts || !retryable(e) {
          assert r == RetryRun(Err(ExhaustedError(config, operationName, CausedBy(e))), step.world, [], [step.outcome]);
          ShapeSingle(config, operationName, retryable, interrupted, a, last, r);
        } else if interrupted(a) {
          assert r == RetryRun(Err(InterruptedError), step.world, [delay], [step.outcome]);
          ShapeSingle(config, operationName, retryable, interrupted, a, last, r);
        } else {
          var rest := RetryFrom(config, operationName, op, retryable, interrupted, a + 1, NextDelay(config, delay), CausedBy(e), step.world);
          assert r == RetryRun(rest.result, rest.world, [delay] + rest.sleeps, [step.outcome] + rest.attempts);
          RetryFromShape(config, operationName, op, retryable, interrupted, a + 1, NextDelay(config, delay), CausedBy(e), step.world);
          RetryFromAttempts(config, operationName, op, retryable, interrupted, a + 1, NextDelay(config, delay), CausedBy(e), step.world);
          ShapeStep(config, operationName, retryable, interrupted, a, last, e, delay, rest, r);
        }
      }
    }
  }

  /** executeWithRetry makes at most maxAttempts attempts, and at least one when
      maxAttempts >= 1; every attempt but the last failed retryably and was not
      interrupted; the run ends in one of the three ways of RunShape. */
  lemma RetryShape<W, T>(config: RetryConfig, operationName: string, op: (W, nat) -> Step<W, T>,
                         interrupted: nat -> bool, world: W)
    ensures var r := Retry(config, operationName, op, interrupted, world);
      && RunShape(config, operationName, IsRetryableException, interrupted, 1, NoCause, r)
      && |r.attempts| <= (if config.maxAttempts >= 1 then config.maxAttempts else 0)
      && (config.maxAttempts >= 1 ==> |r.attempts| >= 1)
  {
    RetryFromShape(config, operationName, op, IsRetryableException, interrupted, 1, config.initialDelayMs, NoCause, world);
    RetryFromAttempts(config, operationName, op, IsRetryableException, interrupted, 1, config.initialDelayMs, NoCause, world);
  }

  /** The sleeps follow the backoff schedule from its step `offset` on. */
  ghost predicate FollowsSchedule(config: RetryConfig, sleeps: seq<nat>, offset: nat)
  {
    forall i :: 0 <= i < |sleeps| ==> sleeps[i] == DelayAt(config, offset + i)
  }

  /** The sleeps of a run from attempt `a` on are the steps a - 1, a, ... of the schedule. */
  lemma {:induction false} RetryFromSleeps<W, T>(config: RetryConfig, operationName: string, op: (W, nat) -> Step<W, T>,
                                                 retryable: Exc -> bool, interrupted: nat -> bool, a: nat, delay: nat, last: Cause, world: W)
    requires a >= 1 && delay == DelayAt(config, a - 1)
    ensures FollowsSchedule(config, RetryFrom(config, operationName, op, retryable, interrupted, a, delay, last, world).sleeps, a - 1)
    decreases if a <= config.maxAttempts then config.maxAttempts - a + 1 else 0
  {
    var r := RetryFrom(config, operationName, op, retryable, interrupted, a, delay, last, world);
    if a <= config.maxAttempts {
      var step := op(world, a);
      if step.outcome.Ok? {
        assert r.sleeps == [];
      } else {
        var e := step.outcome.error;
        if a == config.maxAttempts || !retryable(e) {
          assert r.sleeps == [];
        } else if interrupted(a) {
          assert r.sleeps == [delay];
        } else {
          var next := NextDelay(config, delay);
          assert next == DelayAt(config, a);
          var rest := RetryFrom(config, operationName, op, retryable, interrupted, a + 1, next, CausedBy(e), step.world);
          RetryFromSleeps(config, operationName, op, retryable, interrupted, a + 1, next, CausedBy(e), step.world);
          ScheduleCons(config, delay, rest.sleeps, a - 1);
          assert r.sleeps == [delay] + rest.sleeps;
        }
      }
    } else {
      assert r.sleeps == [];
    }
  }

  lemma ScheduleCons(config: RetryConfig, d: nat, sleeps: seq<nat>, offset: nat)
    requires d == DelayAt(config, offset)
    requires FollowsSchedule(config, sleeps, offset + 1)
    ensures FollowsSchedule(config, [d] + sleeps, offset)
  {
    var s := [d] + sleeps;
    forall i | 0 <= i < |s|
      ensures s[i] == DelayAt(config, offset + i)
    {
      if i > 0 {
        assert s[i] == sleeps[i - 1];
      }
    }
  }

  /** The i-th sleep of a run lasts DelayAt(config, i): the initial delay, then
      each delay times the multiplier, capped by maxDelay. */
  lemma RetrySleeps<W, T>(config: RetryConfig, operationName: string, op: (W, nat) -> Step<W, T>,
                          interrupted: nat -> bool, world: W)
    ensures FollowsSchedule(config, Retry(config, operationName, op, interrupted, world).sleeps, 0)
  {
    RetryFromSleeps(config, operationName, op, IsRetryableException, interrupted, 1, config.initialDelayMs, NoCause, world);
  }

  /** An operation that fails retryably, uninterrupted, before attempt k and
      returns v at attempt k (whatever the world) makes the executor return v
      after exactly k attempts and k - 1 sleeps. */
  lemma {:induction false} RetryFromSucceedsAt<W, T>(config: RetryConfig, operationName: string, op: (W, nat) -> Step<W, T>,
                                                     retryable: Exc -> bool, interrupted: nat -> bool, a: nat, delay: nat, last: Cause, world: W,
                                                     k: nat, v: T)
    requires 1 <= a <= k <= config.maxAttempts
    requires forall w: W, j :: a <= j < k ==> op(w, j).outcome.Err? && retryable(op(w, j).outcome.error)
    requires forall j :: a <= j < k ==> !interrupted(j)
    requires forall w: W :: op(w, k).outcome == Ok(v)
    ensures var r := RetryFrom(config, operationName, op, retryable, interrupted, a, delay, last, world);
      r.result == Ok(v) && |r.attempts| == k - a + 1 && |r.sleeps| == k - a
    decreases k - a
  {
    var step := op(world, a);
    if a < k {
      var e := step.outcome.error;
      RetryFromSucceedsAt(config, operationName, op, retryable, interrupted, a + 1, NextDelay(config, delay), CausedBy(e), step.world, k, v);
    }
  }

  lemma RetrySucceedsAt<W, T>(config: RetryConfig, operationName: string, op: (W, nat) -> Step<W, T>,
                              interrupted: nat -> bool, world: W, k: nat, v: T)
    requires 1 <= k <= config.maxAttempts
    requires forall w: W, j :: 1 <= j < k ==> op(w, j).outcome.Err? && IsRetryableException(op(w, j).outcome.error)
    requires forall j :: 1 <= j < k ==> !interrupted(j)
    requires forall w: W :: op(w, k).outcome == Ok(v)
    ensures var r := Retry(config, operationName, op, interrupted, world);
      r.result == Ok(v) && |r.attempts| == k && |r.sleeps| == k - 1
  {
    RetryFromSucceedsAt(config, operationName, op, IsRetryableException, interrupted, 1, config.initialDelayMs, NoCause, world, k, v);
  }

  /** A terminal failure on the first attempt is thrown on at once, wrapped, with no sleep. */
  lemma TerminalFirstFailure<W, T>(config: RetryConfig, operationName: string, op: (W, nat) -> Step<W, T>,
                                   interrupted: nat -> bool, world: W)
    requires config.maxAttempts >= 1
    requires op(world, 1).outcome.Err? && !IsRetryableException(op(world, 1).outcome.error)
    ensures var r := Retry(config, operationName, op, interrupted, world);
      && r.result == Err(ExhaustedError(config, operationName, CausedBy(op(world, 1).outcome.error)))
      && |r.attempts| == 1 && r.sleeps == []
  {
  }

  /** A property of the world that every attempt preserves holds of the world
      the executor leaves behind. */
  lemma {:induction false} RetryFromPreserves<W, T>(config: RetryConfig, operationName: string, op: (W, nat) -> Step<W, T>,
                                                    retryable: Exc -> bool, interrupted: nat -> bool, a: nat, delay: nat, last: Cause, world: W,
                                                    inv: W -> bool)
    requires a >= 1
    requires inv(world)
    requires forall w: W, j: nat :: inv(w) ==> inv(op(w, j).world)
    ensures inv(RetryFrom(config, operationName, op, retryable, interrupted, a, delay, last, world).world)
    decreases if a <= config.maxAttempts then config.maxAttempts - a + 1 else 0
  {
    if a <= config.maxAttempts {
      var step := op(world, a);
      if step.outcome.Err? {
        var e := step.outcome.error;
        if a < config.maxAttempts && retryable(e) && !interrupted(a) {
          RetryFromPreserves(config, operationName, op, retryable, interrupted, a + 1, NextDelay(config, delay), CausedBy(e), step.world, inv);
        }
      }
    }
  }

  /** RetryEstablishes, for the run from attempt `a` on. */
  lemma {:induction false} RetryFromEstablishes<W, T>(config: RetryConfig, operationName: string, op: (W, nat) -> Step<W, T>,
                                                      retryable: Exc -> bool, interrupted: nat -> bool, a: nat, delay: nat, last: Cause, world: W,
                                                      inv: W -> bool)
    requires 1 <= a <= config.maxAttempts
    requires forall w: W, j: nat :: inv(op(w, j).world)
    ensures inv(RetryFrom(config, operationName, op, retryable, interrupted, a, delay, last, world).world)
    decreases config.maxAttempts - a
  {
    var step := op(world, a);
    if step.outcome.Err? {
      var e := step.outcome.error;
      if a < config.maxAttempts && retryable(e) && !interrupted(a) {
        RetryFromEstablishes(config, operationName, op, retryable, interrupted, a + 1, NextDelay(config, delay), CausedBy(e), step.world, inv);
      }
    }
  }

  /** A property of the world that every attempt leaves behind, whatever world
      it starts from, holds after any run that makes at least one attempt. */
  lemma RetryEstablishes<W, T>(config: RetryConfig, operationName: string, op: (W, nat) -> Step<W, T>,
                               interrupted: nat -> bool, world: W, inv: W -> bool)
    requires config.maxAttempts >= 1
    requires forall w: W, j: nat :: inv(op(w, j).world)
    ensures inv(Retry(config, operationName, op, interrupted, world).world)
  {
    RetryFromEstablishes(config, operationName, op, IsRetryableException, interrupted, 1, config.initialDelayMs, NoCause, world, inv);
  }

  lemma RetryPreserves<W, T>(config: RetryConfig, operationName: string, op: (W, nat) -> Step<W, T>,
                             interrupted: nat -> bool, world: W, inv: W -> bool)
    requires inv(world)
    requires forall w: W, j: nat :: inv(w) ==> inv(op(w, j).world)
    ensures inv(Retry(config, operationName, op, interrupted, world).world)
  {
    RetryFromPreserves(config, operationName, op, IsRetryableException, interrupted, 1, config.initialDelayMs, NoCause, world, inv);
  }

  /** A property that holds of every successful attempt's value and world
      holds of the executor's successful result. */
  lemma {:induction false} RetryFromSuccessFromOp<W, T>(config: RetryConfig, operationName: string, op: (W, nat) -> Step<W, T>,
                                                        retryable: Exc -> bool, interrupted: nat -> bool, a: nat, delay: nat, last: Cause, world: W,
                                                        good: (W, T) -> bool)
    requires a >= 1
    requires forall w: W, j: nat :: op(w, j).outcome.Ok? ==> good(op(w, j).world, op(w, j).outcome.value)
    ensures var r := RetryFrom(config, operationName, op, retryable, interrupted, a, delay, last, world);
      r.result.Ok? ==> good(r.world, r.result.value)
    decreases if a <= config.maxAttempts then config.maxAttempts - a + 1 else 0
  {
    if a <= config.maxAttempts {
      var step := op(world, a);
      if step.outcome.Err? {
        var e := step.outcome.error;
        if a < config.maxAttempts && retryable(e) && !interrupted(a) {
          RetryFromSuccessFromOp(config, operationName, op, retryable, interrupted, a + 1, NextDelay(config, delay), CausedBy(e), step.world, good);
        }
      }
    }
  }

  lemma RetrySuccessFromOp<W, T>(config: RetryConfig, operationName: string, op: (W, nat) -> Step<W, T>,
                                 interrupted: nat -> bool, world: W, good: (W, T) -> bool)
    requires forall w: W, j: nat :: op(w, j).outcome.Ok? ==> good(op(w, j).world, op(w, j).outcome.value)
    ensures var r := Retry(config, operationName, op, interrupted, world);
      r.result.Ok? ==> good(r.world, r.result.value)
  {
    RetryFromSuccessFromOp(config, operationName, op, IsRetryableException, interrupted, 1, config.initialDelayMs, NoCause, world, good);
  }

  /** When every failure of the operation satisfies `bad`, a failed run threw
      either the interruption error (only if some sleep was interrupted) or the
      exhausted-attempts error whose cause is such a failure. */
  lemma {:induction false} RetryFromFailure<W, T>(config: RetryConfig, operationName: string, op: (W, nat) -> Step<W, T>,
                                                  retryable: Exc -> bool, interrupted: nat -> bool, a: nat, delay: nat, last: Cause, world: W,
                                                  bad: Exc -> bool)
    requires 1 <= a <= config.maxAttempts
    requires forall w: W, j: nat :: op(w, j).outcome.Err? ==> bad(op(w, j).outcome.error)
    ensures var r := RetryFrom(config, operationName, op, retryable, interrupted, a, delay, last, world);
      r.result.Err? ==>
        || (r.result == Err(InterruptedError) && exists j :: a <= j < config.maxAttempts && interrupted(j))
        || (r.result.error.cause.CausedBy? && bad(r.result.error.cause.exc)
            && r.result.error == ExhaustedError(config, operationName, r.result.error.cause))
    decreases config.maxAttempts - a
  {
    var step := op(world, a);
    if step.outcome.Err? {
      var e := step.outcome.error;
      if a < config.maxAttempts && retryable(e) && !interrupted(a) {
        RetryFromFailure(config, operationName, op, retryable, interrupted, a + 1, NextDelay(config, delay), CausedBy(e), step.world, bad);
      }
    }
  }

  lemma RetryFailure<W, T>(config: RetryConfig, operationName: string, op: (W, nat) -> Step<W, T>,
                           interrupted: nat -> bool, world: W, bad: Exc -> bool)
    requires config.maxAttempts >= 1
    requires forall w: W, j: nat :: op(w, j).outcome.Err? ==> bad(op(w, j).outcome.error)
    ensures var r := Retry(config, operationName, op, interrupted, world);
      r.result.Err? ==>
        || (r.result == Err(InterruptedError) && exists j :: 1 <= j < config.maxAttempts && interrupted(j))
        || (r.result.error.cause.CausedBy? && bad(r.result.error.cause.exc)
            && r.result.error == ExhaustedError(config, operationName, r.result.error.cause))
  {
    RetryFromFailure(config, operationName, op, IsRetryableException, interrupted, 1, config.initialDelayMs, NoCause, world, bad);
  }

  /** When every failure of the operation is a wrapped exception of class `cls`,
      a failed run threw the interruption error or the exhausted-attempts error
      caused by the wrapped failure of its last attempt. */
  lemma RetryFailureWrapped<W, T>(config: RetryConfig, operationName: string, op: (W, nat) -> Step<W, T>,
                                  interrupted: nat -> bool, world: W, cls: ExcClass)
    requires config.maxAttempts >= 1
    requires forall w: W, j: nat :: op(w, j).outcome.Err? ==> WrapsA(op(w, j).outcome.error, cls)
    ensures var r := Retry(config, operationName, op, interrupted, world);
      r.result.Err? ==>
        || r.result == Err(InterruptedError)
        || (|r.attempts| >= 1 && r.attempts[|r.attempts| - 1].Err?
            && WrapsA(r.attempts[|r.attempts| - 1].error, cls)
            && r.result.error == ExhaustedError(config, operationName, CausedBy(r.attempts[|r.attempts| - 1].error)))
  {
    var r := Retry(config, operationName, op, interrupted, world);
    RetryFailure(config, operationName, op, interrupted, world, (c: Exc) => WrapsA(c, cls));
    RetryShape(config, operationName, op, interrupted, world);
    if r.result.Err? && r.result != Err(InterruptedError) {
      var n := |r.attempts|;
      assert n >= 1 && r.attempts[n - 1].Err?;
      assert r.result.error == ExhaustedError(config, operationName, CausedBy(r.attempts[n - 1].error));
    }
  }

  /** No sleep follows the final attempt: a run that used every attempt slept
      once between consecutive attempts and not after the last, whatever the
      last failure was. */
  lemma NoSleepAfterFinalAttempt<W, T>(config: RetryConfig, operationName: string, op: (W, nat) -> Step<W, T>,
                                       interrupted: nat -> bool, world: W)
    requires config.maxAttempts >= 1
    ensures var r := Retry(config, operationName, op, interrupted, world);
      |r.attempts| == config.maxAttempts ==> |r.sleeps| == config.maxAttempts - 1
  {
    RetryShape(config, operationName, op, interrupted, world);
  }

  /** The exhausted-attempts message names maxAttempts, also when a terminal
      failure stopped the loop before the attempts ran out. */
  lemma ExhaustedNamesMaxAttempts(config: RetryConfig, operationName: string, last: Cause)
    ensures Contains(ExhaustedError(config, operationName, last).message, IntToString(config.maxAttempts))
    ensures ExhaustedError(config, operationName, last).cause == last
  {
    FourParts("Operation '" + operationName, "' failed after ", IntToString(config.maxAttempts), " attempts");
  }
}
