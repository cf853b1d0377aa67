// equipa/agent_runner.py: the retry loops of run_agent and
// run_agent_streaming_with_retry.

/** Two loops, two budgets and a counter of consecutive 529 errors. */
module RetryLoop {
  import opened Wrappers

  /** Milliseconds, as reals. */
  const BASE_DELAY := 500.0
  const MAX_BACKOFF := 32000.0
  const JITTER := 0.25
  const PERSISTENT_MAX_BACKOFF := 300000.0
  const PERSISTENT_RESET_CAP := 21600000.0
  const HEARTBEAT := 30000.0
  /** math.pow(2, n) is out of range from here on. */
  const POW_LIMIT := 1024

  /** random.random() */
  type Fraction = r: real | 0.0 <= r < 1.0 witness 0.0

  type Positive = n: nat | n >= 1 witness 1

  /** How one launched agent ended. A failure carries what the classifiers say of its
      error text: 529 or overloaded; 429 or rate limit; another transient error; killed
      for analysis paralysis. Ended is what run_agent returns at once: timed out,
      claude not found, dispatch refused. */
  datatype Attempt =
    | Success
    | CutOff
    | Ended
    | Failed(overloaded: bool, limited: bool, transient: bool, paralysed: bool)
  {
    predicate IsOverloaded() { Failed? && overloaded }
    predicate IsCapacity() { Failed? && (overloaded || limited) }
    predicate IsRetryable() { Failed? && (limited || transient) }
  }

  datatype Exit =
    | Succeeded
    | TurnsRanOut
    | EndedEarly
    | Aborted
    | KilledForParalysis
    | NotRetryable
    | Overloaded(consecutive: nat)
    | CapacityExhausted
    | RetriesExhausted
    | MathRangeError

  /** persistent: the ceiling of persistent-retry mode, if it is on. */
  datatype Budget = Budget(maxRetries: int, persistent: Option<Positive>)

  function Max(a: int, b: int): int { if a < b then b else a }

  function Min(a: real, b: real): real { if a < b then a else b }

  // -------------------------------------------------------------------------
  // Delays
  // -------------------------------------------------------------------------

  function Pow2(n: nat): real {
    if n == 0 then 1.0 else 2.0 * Pow2(n - 1)
  }

  function Backoff(attempt: Positive, cap: real): real {
    Min(BASE_DELAY * Pow2(attempt - 1), cap)
  }

  /** get_retry_delay in milliseconds; None is the OverflowError of math.pow. */
  function RetryDelay(attempt: Positive, cap: real, persistent: bool, jitter: Fraction): Option<real> {
    if attempt - 1 >= POW_LIMIT then None
    else
      var limit := if persistent then Min(cap, PERSISTENT_MAX_BACKOFF) else cap;
      var base := Backoff(attempt, limit);
      Some(base + jitter * JITTER * base)
  }

  function PersistentDelay(attempt: Positive, jitter: Fraction): Option<real> {
    var delay := RetryDelay(attempt, PERSISTENT_MAX_BACKOFF, true, jitter);
    if delay.Some? && delay.value > PERSISTENT_RESET_CAP then Some(PERSISTENT_RESET_CAP) else delay
  }

  lemma {:induction false} Pow2AtLeast(n: nat, k: nat)
    requires n >= k
    ensures Pow2(n) >= Pow2(k) >= 1.0
    decreases n
  {
    if n > k {
      Pow2AtLeast(n - 1, k);
    } else if n > 0 {
      Pow2AtLeast(n - 1, n - 1);
    }
  }

  /** Doubling from half a second, flat at 32 s from the 7th attempt on. */
  lemma BackoffDoublesUpToItsCap(attempt: Positive)
    ensures attempt <= 6 ==> Backoff(attempt + 1, MAX_BACKOFF) == 2.0 * Backoff(attempt, MAX_BACKOFF)
    ensures attempt >= 7 ==> Backoff(attempt, MAX_BACKOFF) == MAX_BACKOFF
    ensures Backoff(1, MAX_BACKOFF) == BASE_DELAY
  {
    assert Pow2(0) == 1.0 && Pow2(1) == 2.0 && Pow2(2) == 4.0 && Pow2(3) == 8.0;
    assert Pow2(4) == 16.0 && Pow2(5) == 32.0 && Pow2(6) == 64.0;
    if attempt >= 7 {
      Pow2AtLeast(attempt - 1, 6);
    }
  }

  /** A delay is positive and at most a quarter over its cap, so a persistent one
      never meets the six-hour cap. */
  lemma DelaysAreBounded(attempt: Positive, jitter: Fraction)
    ensures var plain := RetryDelay(attempt, MAX_BACKOFF, false, jitter);
            plain.Some? ==> 500.0 <= plain.value <= 40000.0
    ensures var long := RetryDelay(attempt, PERSISTENT_MAX_BACKOFF, true, jitter);
            PersistentDelay(attempt, jitter) == long && (long.Some? ==> 500.0 <= long.value <= 375000.0)
    ensures RetryDelay(attempt, MAX_BACKOFF, false, jitter).None? <==> attempt > POW_LIMIT
    ensures PersistentDelay(attempt, jitter).None? <==> attempt > POW_LIMIT
  {
    Pow2AtLeast(attempt - 1, 0);
    JitterIsBounded(Backoff(attempt, MAX_BACKOFF), jitter);
    JitterIsBounded(Backoff(attempt, PERSISTENT_MAX_BACKOFF), jitter);
  }

  lemma JitterIsBounded(base: real, jitter: Fraction)
    requires base >= 0.0
    ensures 0.0 <= jitter * JITTER * base <= JITTER * base
  {
    assert jitter * JITTER <= JITTER;
  }

  function Sum(xs: seq<real>): real {
    if xs == [] then 0.0 else xs[0] + Sum(xs[1..])
  }

  lemma {:induction false} SumConcat(a: seq<real>, b: seq<real>)
    ensures Sum(a + b) == Sum(a) + Sum(b)
    decreases |a|
  {
    if a == [] {
      assert a + b == b;
    } else {
      assert (a + b)[1..] == a[1..] + b;
      SumConcat(a[1..], b);
    }
  }

  /** A long sleep in heartbeat intervals: whole ones, then the rest. */
  method SleepWithHeartbeats(delay: real) returns (chunks: seq<real>)
    requires delay >= 0.0
    ensures Sum(chunks) == delay
    ensures forall i :: 0 <= i < |chunks| ==> 0.0 < chunks[i] <= HEARTBEAT
    ensures forall i :: 0 <= i < |chunks| - 1 ==> chunks[i] == HEARTBEAT
  {
    chunks := [];
    var remaining := delay;
    while remaining > 0.0
      invariant remaining >= 0.0 && Sum(chunks) + remaining == delay
      invariant forall i :: 0 <= i < |chunks| ==> 0.0 < chunks[i] <= HEARTBEAT
      invariant remaining > 0.0 ==> forall i :: 0 <= i < |chunks| ==> chunks[i] == HEARTBEAT
      invariant forall i :: 0 <= i < |chunks| - 1 ==> chunks[i] == HEARTBEAT
      decreases (remaining / HEARTBEAT).Floor, remaining > 0.0
    {
      var chunk := Min(remaining, HEARTBEAT);
      SumConcat(chunks, [chunk]);
      chunks := chunks + [chunk];
      remaining := remaining - chunk;
    }
  }

  method SleepAfter(sleeps: seq<real>, delay: real) returns (all: seq<real>)
    requires delay >= 0.0
    ensures sleeps <= all && Sum(all) == Sum(sleeps) + delay
  {
    var chunks := SleepWithHeartbeats(delay);
    SumConcat(sleeps, chunks);
    all := sleeps + chunks;
  }

  lemma SumOneMore(sleeps: seq<real>, x: real)
    ensures Sum(sleeps + [x]) == Sum(sleeps) + x
  {
    SumConcat(sleeps, [x]);
  }

  // -------------------------------------------------------------------------
  // What the loops decide
  // -------------------------------------------------------------------------

  /** How many of the first n failures used the persistent budget. */
  function Persistent(s: nat -> Attempt, b: Budget, n: nat): (count: nat)
    ensures count <= n && (b.persistent.None? ==> count == 0)
  {
    if n == 0 then 0
    else Persistent(s, b, n - 1) + if b.persistent.Some? && s(n - 1).IsCapacity() then 1 else 0
  }

  function Plain(s: nat -> Attempt, b: Budget, n: nat): nat {
    n - Persistent(s, b, n)
  }

  /** The length of the run of 529 errors that ends the first n failures. */
  function Trailing(s: nat -> Attempt, n: nat): nat {
    if n == 0 || !s(n - 1).IsOverloaded() then 0 else Trailing(s, n - 1) + 1
  }

  lemma {:induction false} TrailingIsTheRun(s: nat -> Attempt, n: nat)
    ensures var run := Trailing(s, n);
            && run <= n
            && (forall i :: n - run <= i < n ==> s(i).IsOverloaded())
            && (run < n ==> !s(n - run - 1).IsOverloaded())
  {
    if n > 0 && s(n - 1).IsOverloaded() {
      TrailingIsTheRun(s, n - 1);
    }
  }

  /** The failure after n earlier ones used up the budget it counts against. */
  predicate BudgetRanOut(s: nat -> Attempt, b: Budget, n: nat) {
    if b.persistent.Some? && s(n).IsCapacity() then Persistent(s, b, n + 1) >= b.persistent.value
    else Plain(s, b, n + 1) >= b.maxRetries
  }

  function LossOf(s: nat -> Attempt, b: Budget, n: nat): Exit {
    if s(n).IsOverloaded() then Overloaded(Trailing(s, n + 1))
    else if b.persistent.Some? && s(n).IsCapacity() then CapacityExhausted
    else RetriesExhausted
  }

  predicate PowOverflows(s: nat -> Attempt, b: Budget, n: nat) {
    if b.persistent.Some? && s(n).IsCapacity() then Persistent(s, b, n + 1) > POW_LIMIT
    else Plain(s, b, n + 1) > POW_LIMIT
  }

  /** What happens after attempt n, all earlier ones having been retried: an exit, or another launch. */
  function Verdict(streaming: bool, s: nat -> Attempt, b: Budget, n: nat): Option<Exit> {
    match s(n)
    case Success => Some(Succeeded)
    case CutOff => Some(TurnsRanOut)
    case Ended => Some(EndedEarly)
    case Failed(overloaded, limited, transient, paralysed) =>
      if streaming && paralysed then Some(KilledForParalysis)
      else if !overloaded && !limited && !transient then Some(NotRetryable)
      else if BudgetRanOut(s, b, n) then Some(LossOf(s, b, n))
      else if PowOverflows(s, b, n) then Some(MathRangeError)
      else None
  }

  ghost predicate Retried(streaming: bool, s: nat -> Attempt, b: Budget, n: nat) {
    forall i :: 0 <= i < n ==> Verdict(streaming, s, b, i).None?
  }

  /** The delay after retried attempt n. */
  function DelayAfter(s: nat -> Attempt, b: Budget, jitter: nat -> Fraction, n: nat): real
    requires !BudgetRanOut(s, b, n) && !PowOverflows(s, b, n)
  {
    if b.persistent.Some? && s(n).IsCapacity() then PersistentDelay(Persistent(s, b, n + 1), jitter(n)).value
    else RetryDelay(Plain(s, b, n + 1), MAX_BACKOFF, false, jitter(n)).value
  }

  /** Everything slept between the first n attempts and the next. */
  ghost function Slept(streaming: bool, s: nat -> Attempt, b: Budget, jitter: nat -> Fraction, n: nat): real
    requires Retried(streaming, s, b, n)
  {
    if n == 0 then 0.0
    else
      assert Verdict(streaming, s, b, n - 1).None?;
      Slept(streaming, s, b, jitter, n - 1) + DelayAfter(s, b, jitter, n - 1)
  }

  /** One more retried attempt. */
  lemma OneMoreRetry(streaming: bool, s: nat -> Attempt, b: Budget, jitter: nat -> Fraction, n: nat)
    requires Retried(streaming, s, b, n) && Verdict(streaming, s, b, n).None?
    ensures Retried(streaming, s, b, n + 1)
    ensures Slept(streaming, s, b, jitter, n + 1) == Slept(streaming, s, b, jitter, n) + DelayAfter(s, b, jitter, n)
  {
  }

  // -------------------------------------------------------------------------
  // The loops
  // -------------------------------------------------------------------------

  /** The run of run_agent. aborted(i): the parent had aborted when launch i was due. */
  method RunAgent(s: nat -> Attempt, aborted: nat -> bool, b: Budget, jitter: nat -> Fraction)
    returns (launches: nat, exit: Exit, sleeps: seq<real>)
    ensures exit.Aborted? ==> aborted(launches) && Retried(false, s, b, launches)
    ensures !exit.Aborted? ==>
              && launches >= 1
              && Retried(false, s, b, launches - 1)
              && Verdict(false, s, b, launches - 1) == Some(exit)
    ensures forall i :: 0 <= i < launches ==> !aborted(i)
    ensures Sum(sleeps) == Slept(false, s, b, jitter, if exit.Aborted? then launches else launches - 1)
  {
    var consecutive529, persistentAttempt, attempt := 0, 0, 0;
    launches, sleeps := 0, [];
    while true
      invariant Retried(false, s, b, launches)
      invariant forall i :: 0 <= i < launches ==> !aborted(i)
      invariant persistentAttempt == Persistent(s, b, launches) && attempt == Plain(s, b, launches)
      invariant consecutive529 == Trailing(s, launches)
      invariant Sum(sleeps) == Slept(false, s, b, jitter, launches)
      invariant launches == 0 || attempt == 0 || attempt < b.maxRetries
      invariant b.persistent.Some? ==> persistentAttempt < b.persistent.value
      decreases Max(1, b.maxRetries) - attempt + (if b.persistent.Some? then b.persistent.value - persistentAttempt else 0)
    {
      if aborted(launches) {
        return launches, Aborted, sleeps;
      }
      ghost var n := launches;
      var result := s(launches);
      launches := launches + 1;
      if result.Ended? {
        return launches, EndedEarly, sleeps;
      }
      if result.Success? {
        return launches, Succeeded, sleeps;
      }
      if result.CutOff? {
        return launches, TurnsRanOut, sleeps;
      }
      if result.IsOverloaded() {
        consecutive529 := consecutive529 + 1;
      } else {
        consecutive529 := 0;
      }
      if !result.IsOverloaded() && !result.IsRetryable() {
        return launches, NotRetryable, sleeps;
      }
      if b.persistent.Some? && result.IsCapacity() {
        persistentAttempt := persistentAttempt + 1;
        if persistentAttempt >= b.persistent.value {
          return launches, if result.IsOverloaded() then Overloaded(consecutive529) else CapacityExhausted, sleeps;
        }
        var delay := PersistentDelay(persistentAttempt, jitter(launches - 1));
        DelaysAreBounded(persistentAttempt, jitter(n));
        if delay.None? {
          return launches, MathRangeError, sleeps;
        }
        OneMoreRetry(false, s, b, jitter, n);
        sleeps := SleepAfter(sleeps, delay.value);
        continue;
      }
      attempt := attempt + 1;
      if attempt >= b.maxRetries {
        return launches, if result.IsOverloaded() then Overloaded(consecutive529) else RetriesExhausted, sleeps;
      }
      var delay := RetryDelay(attempt, MAX_BACKOFF, false, jitter(launches - 1));
      DelaysAreBounded(attempt, jitter(n));
      if delay.None? {
        return launches, MathRangeError, sleeps;
      }
      OneMoreRetry(false, s, b, jitter, n);
      SumOneMore(sleeps, delay.value);
      sleeps := sleeps + [delay.value];
    }
  }

  /** The run of run_agent_streaming_with_retry, whose agents report every other ending as a failure. */
  method RunAgentStreaming(s: nat -> Attempt, b: Budget, jitter: nat -> Fraction)
    returns (launches: nat, exit: Exit, sleeps: seq<real>)
    requires forall i: nat :: !s(i).Ended?
    ensures launches >= 1 && Retried(true, s, b, launches - 1) && Verdict(true, s, b, launches - 1) == Some(exit)
    ensures Sum(sleeps) == Slept(true, s, b, jitter, launches - 1)
  {
    var consecutive529, persistentAttempt, attempt := 0, 0, 0;
    launches, sleeps := 0, [];
    while true
      invariant Retried(true, s, b, launches)
      invariant persistentAttempt == Persistent(s, b, launches) && attempt == Plain(s, b, launches)
      invariant consecutive529 == Trailing(s, launches)
      invariant Sum(sleeps) == Slept(true, s, b, jitter, launches)
      invariant launches == 0 || attempt == 0 || attempt < b.maxRetries
      invariant b.persistent.Some? ==> persistentAttempt < b.persistent.value
      decreases Max(1, b.maxRetries) - attempt + (if b.persistent.Some? then b.persistent.value - persistentAttempt else 0)
    {
      ghost var n := launches;
      var result := s(launches);
      launches := launches + 1;
      if result.Success? {
        return launches, Succeeded, sleeps;
      }
      if result.CutOff? {
        return launches, TurnsRanOut, sleeps;
      }
      if result.paralysed {
        return launches, KilledForParalysis, sleeps;
      }
      if result.IsOverloaded() {
        consecutive529 := consecutive529 + 1;
      } else {
        consecutive529 := 0;
      }
      if !result.IsOverloaded() && !result.IsRetryable() {
        return launches, NotRetryable, sleeps;
      }
      if b.persistent.Some? && result.IsCapacity() {
        persistentAttempt := persistentAttempt + 1;
        if persistentAttempt >= b.persistent.value {
          return launches, if result.IsOverloaded() then Overloaded(consecutive529) else CapacityExhausted, sleeps;
        }
        var delay := PersistentDelay(persistentAttempt, jitter(launches - 1));
        DelaysAreBounded(persistentAttempt, jitter(n));
        if delay.None? {
          return launches, MathRangeError, sleeps;
        }
        OneMoreRetry(true, s, b, jitter, n);
        sleeps := SleepAfter(sleeps, delay.value);
        continue;
      }
      attempt := attempt + 1;
      if attempt >= b.maxRetries {
        return launches, if result.IsOverloaded() then Overloaded(consecutive529) else RetriesExhausted, sleeps;
      }
      var delay := RetryDelay(attempt, MAX_BACKOFF, false, jitter(launches - 1));
      DelaysAreBounded(attempt, jitter(n));
      if delay.None? {
        return launches, MathRangeError, sleeps;
      }
      OneMoreRetry(true, s, b, jitter, n);
      SumOneMore(sleeps, delay.value);
      sleeps := sleeps + [delay.value];
    }
  }

  // -------------------------------------------------------------------------
  // What every run keeps
  // -------------------------------------------------------------------------

  /** The persistent launches beyond the first that a budget allows. */
  function Extra(b: Budget): nat {
    if b.persistent.Some? then b.persistent.value - 1 else 0
  }

  /** However many attempts were retried, each budget still has room. */
  lemma {:induction false} BudgetsHaveRoom(streaming: bool, s: nat -> Attempt, b: Budget, n: nat)
    requires Retried(streaming, s, b, n)
    ensures Persistent(s, b, n) <= Extra(b) && Plain(s, b, n) <= Max(1, b.maxRetries) - 1
  {
    if n > 0 {
      BudgetsHaveRoom(streaming, s, b, n - 1);
      assert Verdict(streaming, s, b, n - 1).None?;
    }
  }

  /** A run launches at most max(1, max_retries) agents, plus ceiling - 1 in persistent mode. */
  lemma LaunchesAreBounded(streaming: bool, s: nat -> Attempt, b: Budget, launches: Positive)
    requires Retried(streaming, s, b, launches - 1)
    ensures launches <= Max(1, b.maxRetries) + Extra(b)
  {
    BudgetsHaveRoom(streaming, s, b, launches - 1);
  }

  /** Some stream of failures does launch that many: ceiling - 1 rate limits, then transient errors. */
  lemma BoundIsReached(b: Budget, s: nat -> Attempt)
    requires b.maxRetries <= POW_LIMIT + 1 && (b.persistent.Some? ==> b.persistent.value <= POW_LIMIT + 1)
    requires forall i: nat :: s(i) == Failed(false, i < Extra(b), true, false)
    ensures var last := Max(1, b.maxRetries) + Extra(b) - 1;
            Retried(true, s, b, last) && Verdict(true, s, b, last) == Some(RetriesExhausted)
  {
    var last := Max(1, b.maxRetries) + Extra(b) - 1;
    forall n: nat | n <= last + 1 ensures Persistent(s, b, n) == if n < Extra(b) then n else Extra(b) {
      PersistentOfRateLimits(b, s, n);
    }
  }

  lemma {:induction false} PersistentOfRateLimits(b: Budget, s: nat -> Attempt, n: nat)
    requires forall i: nat :: s(i) == Failed(false, i < Extra(b), true, false)
    ensures Persistent(s, b, n) == if n < Extra(b) then n else Extra(b)
  {
    if n > 0 {
      PersistentOfRateLimits(b, s, n - 1);
    }
  }

  /** An error of none of the three kinds is not retried: the run ends with the first. */
  lemma UnclassifiedEndsTheRun(streaming: bool, s: nat -> Attempt, b: Budget, n: nat, launches: Positive, exit: Exit)
    requires s(n) == Failed(false, false, false, false) && n < launches
    requires Retried(streaming, s, b, launches - 1) && Verdict(streaming, s, b, launches - 1) == Some(exit)
    ensures launches == n + 1 && exit == NotRetryable
  {
    assert Verdict(streaming, s, b, n).Some?;
  }

  lemma {:induction false} CountsOfOneKind(s: nat -> Attempt, b: Budget, f: Attempt, n: nat)
    requires f.Failed? && forall i: nat :: s(i) == f
    ensures Persistent(s, b, n) == if b.persistent.Some? && (f.overloaded || f.limited) then n else 0
    ensures Trailing(s, n) == if f.overloaded then n else 0
  {
    if n > 0 {
      CountsOfOneKind(s, b, f, n - 1);
    }
  }

  /** In persistent mode 529s and rate limits are counted against the ceiling alone, however
      many plain retries are allowed. */
  lemma CapacityRunsToTheCeiling(streaming: bool, s: nat -> Attempt, b: Budget, f: Attempt)
    requires b.persistent.Some? && b.persistent.value <= POW_LIMIT + 1
    requires f.Failed? && (f.overloaded || f.limited) && !f.paralysed && forall i: nat :: s(i) == f
    ensures var ceiling := b.persistent.value;
            && Retried(streaming, s, b, ceiling - 1)
            && Verdict(streaming, s, b, ceiling - 1) == Some(if f.overloaded then Overloaded(ceiling) else CapacityExhausted)
  {
    forall n: nat {
      CountsOfOneKind(s, b, f, n);
    }
  }

  /** Without it, and for any other transient error, against max_retries alone. */
  lemma OthersRunToMaxRetries(streaming: bool, s: nat -> Attempt, b: Budget, f: Attempt)
    requires b.maxRetries <= POW_LIMIT + 1
    requires f.Failed? && (f.overloaded || f.limited || f.transient) && !f.paralysed && forall i: nat :: s(i) == f
    requires b.persistent.None? || (!f.overloaded && !f.limited)
    ensures var last := Max(1, b.maxRetries) - 1;
            && Retried(streaming, s, b, last)
            && Verdict(streaming, s, b, last) == Some(if f.overloaded then Overloaded(last + 1) else RetriesExhausted)
  {
    forall n: nat {
      CountsOfOneKind(s, b, f, n);
    }
  }

  /** All sleeps together: 40 s a plain retry, 375 s a persistent one. */
  lemma {:induction false} SleepsAreBounded(streaming: bool, s: nat -> Attempt, b: Budget, jitter: nat -> Fraction, n: nat)
    requires Retried(streaming, s, b, n)
    ensures 0.0 <= Slept(streaming, s, b, jitter, n)
            <= 40000.0 * Plain(s, b, n) as real + 375000.0 * Persistent(s, b, n) as real
  {
    if n > 0 {
      assert Verdict(streaming, s, b, n - 1).None?;
      SleepsAreBounded(streaming, s, b, jitter, n - 1);
      if b.persistent.Some? && s(n - 1).IsCapacity() {
        DelaysAreBounded(Persistent(s, b, n), jitter(n - 1));
      } else {
        DelaysAreBounded(Plain(s, b, n), jitter(n - 1));
      }
    }
  }

  lemma TotalSleepIsBounded(streaming: bool, s: nat -> Attempt, b: Budget, jitter: nat -> Fraction, n: nat)
    requires Retried(streaming, s, b, n)
    ensures Slept(streaming, s, b, jitter, n)
            <= 40000.0 * (Max(1, b.maxRetries) - 1) as real + 375000.0 * Extra(b) as real
  {
    SleepsAreBounded(streaming, s, b, jitter, n);
    BudgetsHaveRoom(streaming, s, b, n);
  }

  /** Without a paralysis kill both loops make the same decision after every attempt. */
  lemma SameDecision(s: nat -> Attempt, b: Budget, n: nat)
    requires s(n).Failed? ==> !s(n).paralysed
    ensures Verdict(true, s, b, n) == Verdict(false, s, b, n)
  {
  }

  /** Runs of the two loops on one stream of failures without a paralysis kill have
      the same number of launches, the same exit and the same delays. */
  lemma SameRun(s: nat -> Attempt, b: Budget, jitter: nat -> Fraction,
                launches: Positive, exit: Exit, launches': Positive, exit': Exit)
    requires forall i: nat :: s(i).Failed? ==> !s(i).paralysed
    requires Retried(false, s, b, launches - 1) && Verdict(false, s, b, launches - 1) == Some(exit)
    requires Retried(true, s, b, launches' - 1) && Verdict(true, s, b, launches' - 1) == Some(exit')
    ensures launches == launches' && exit == exit'
    ensures Slept(false, s, b, jitter, launches - 1) == Slept(true, s, b, jitter, launches' - 1)
  {
    SameDecision(s, b, launches - 1);
    SameDecision(s, b, launches' - 1);
    if launches == launches' {
      SameSleep(s, b, jitter, launches - 1);
    }
  }

  lemma {:induction false} SameSleep(s: nat -> Attempt, b: Budget, jitter: nat -> Fraction, n: nat)
    requires Retried(false, s, b, n) && Retried(true, s, b, n)
    ensures Slept(false, s, b, jitter, n) == Slept(true, s, b, jitter, n)
  {
    if n > 0 {
      SameSleep(s, b, jitter, n - 1);
    }
  }

  /** The overloaded outcome is reported exactly when the last failure was a 529 (no paralysis
      kill) and its budget ran out, and its counter is the length of the run of 529s at the end. */
  lemma OverloadedIff(streaming: bool, s: nat -> Attempt, b: Budget, launches: Positive, exit: Exit)
    requires Verdict(streaming, s, b, launches - 1) == Some(exit)
    ensures exit.Overloaded? <==>
              && s(launches - 1).IsOverloaded()
              && !(streaming && s(launches - 1).paralysed)
              && BudgetRanOut(s, b, launches - 1)
    ensures exit.Overloaded? ==>
              && 1 <= exit.consecutive <= launches
              && (forall i :: launches - exit.consecutive <= i < launches ==> s(i).IsOverloaded())
              && (exit.consecutive < launches ==> !s(launches - exit.consecutive - 1).IsOverloaded())
  {
    TrailingIsTheRun(s, launches);
  }

  lemma {:induction false} PlainOfTransients(s: nat -> Attempt, b: Budget, n: nat)
    requires forall i: nat :: s(i) == Failed(false, false, true, false)
    ensures Plain(s, b, n) == n
  {
    if n > 0 {
      PlainOfTransients(s, b, n - 1);
    }
  }

  lemma {:induction false} PersistentOfLimits(s: nat -> Attempt, b: Budget, n: nat)
    requires b.persistent.Some? && forall i: nat :: s(i) == Failed(false, true, true, false)
    ensures Persistent(s, b, n) == n
  {
    if n > 0 {
      PersistentOfLimits(s, b, n - 1);
    }
  }

  lemma LargeBudgetRaises(b: Budget) returns (s: nat -> Attempt)
    requires b.maxRetries > POW_LIMIT + 1 || (b.persistent.Some? && b.persistent.value > POW_LIMIT + 1)
    ensures Retried(false, s, b, POW_LIMIT) && Verdict(false, s, b, POW_LIMIT) == Some(MathRangeError)
  {
    if b.maxRetries > POW_LIMIT + 1 {
      s := i => Failed(false, false, true, false);
      forall n: nat ensures Plain(s, b, n) == n { PlainOfTransients(s, b, n); }
    } else {
      s := i => Failed(false, true, true, false);
      forall n: nat ensures Persistent(s, b, n) == n { PersistentOfLimits(s, b, n); }
    }
  }

  /** No stream of failures makes math.pow raise exactly when no budget exceeds 1025. */
  lemma NeverRaisesIff(b: Budget)
    ensures (forall s: nat -> Attempt, n: nat :: Retried(false, s, b, n) ==> Verdict(false, s, b, n) != Some(MathRangeError))
            <==> b.maxRetries <= POW_LIMIT + 1 && (b.persistent.Some? ==> b.persistent.value <= POW_LIMIT + 1)
  {
    if b.maxRetries > POW_LIMIT + 1 || (b.persistent.Some? && b.persistent.value > POW_LIMIT + 1) {
      var s := LargeBudgetRaises(b);
    }
  }
}
