/** The retry loop the model and embedding clients share (internal/llm/llm.go, internal/embed/embed.go). */
module Retry {
  import opened Prelude

  const BASE_RETRY_DELAY: Duration := 500_000_000
  const MAX_RETRY_DELAY: Duration := 10 * SECOND
  const TWO_63: int := 0x8000_0000_0000_0000
  const TWO_64: int := 0x1_0000_0000_0000_0000

  /** A duration is 64 bits and wraps. */
  function Wrap64(x: int): int {
    var m := x % TWO_64;
    if m >= TWO_63 then m - TWO_64 else m
  }

  function Pow2(n: nat): nat { if n == 0 then 1 else 2 * Pow2(n - 1) }

  datatype Failure = Api(status: nat, retryAfter: Duration) | BadResponse | WrongDimensions | Broken

  /** The Retry-After header, once read as a number of seconds. */
  function RetryAfter(seconds: Option<int>): Duration {
    if seconds.None? || seconds.value < 0 then 0 else Min(Wrap64(seconds.value * SECOND), MAX_RETRY_DELAY)
  }

  function Backoff(attempt: nat): Duration
    requires attempt > 0
  {
    Min(Wrap64(BASE_RETRY_DELAY * Pow2(attempt - 1)), MAX_RETRY_DELAY)
  }

  function RetryDelay(attempt: nat, last: Failure): Duration
    requires attempt > 0
  {
    if last.Api? && last.retryAfter > 0 then last.retryAfter else Backoff(attempt)
  }

  predicate LlmRetryable(f: Failure) {
    match f
    case Api(status, _) => status == 429 || status / 100 != 4
    case BadResponse => false
    case WrongDimensions => true
    case Broken => true
  }

  predicate EmbedRetryable(f: Failure) {
    match f
    case Api(status, _) => status != 400 && status != 413 && status != 422
    case BadResponse => false
    case WrongDimensions => false
    case Broken => true
  }

  lemma {:induction false} Pow2Grows(m: nat, n: nat)
    requires m <= n
    ensures Pow2(m) <= Pow2(n)
    decreases n
  {
    if m == n {
    } else {
      Pow2Grows(m, n - 1);
    }
  }

  lemma {:induction false} Pow2Sum(m: nat, n: nat)
    ensures Pow2(m + n) == Pow2(m) * Pow2(n)
  {
    if m == 0 {
    } else {
      Pow2Sum(m - 1, n);
    }
  }

  lemma Pow2Of34()
    ensures Pow2(34) == 17179869184
  {
    assert Pow2(1) == 2 && Pow2(2) == 4;
    Pow2Sum(2, 2);
    Pow2Sum(4, 4);
    Pow2Sum(8, 8);
    Pow2Sum(16, 16);
    Pow2Sum(32, 2);
  }

  /** Up to the thirty-fifth attempt the delay doubles from half a second to ten. */
  lemma BackoffDoublesToTheCap(attempt: nat)
    requires 0 < attempt <= 35
    ensures Backoff(attempt) == Min(BASE_RETRY_DELAY * Pow2(attempt - 1), MAX_RETRY_DELAY)
    ensures Backoff(attempt) > 0
  {
    Pow2Of34();
    Pow2Grows(attempt - 1, 34);
    Pow2Grows(0, attempt - 1);
  }

  // ---------------------------------------------------------------- where the shift wraps

  /** The 64 bits left of the shifted delay. */
  function Residue(shift: nat): int { (BASE_RETRY_DELAY * Pow2(shift)) % TWO_64 }

  lemma Doubles(shift: nat, x: int, y: int)
    requires Residue(shift) == x && y == (if 2 * x < TWO_64 then 2 * x else 2 * x - TWO_64)
    ensures Residue(shift + 1) == y
  {
    var whole := BASE_RETRY_DELAY * Pow2(shift);
    var times := whole / TWO_64;
    assert whole == times * TWO_64 + x;
    assert BASE_RETRY_DELAY * Pow2(shift + 1) == 2 * whole == (2 * times) * TWO_64 + 2 * x;
    RemainderIs(2 * times, 2 * x);
  }

  lemma RemainderIs(times: int, rest: int)
    requires 0 <= rest < 2 * TWO_64
    ensures (times * TWO_64 + rest) % TWO_64 == if rest < TWO_64 then rest else rest - TWO_64
  {
    if rest >= TWO_64 {
      assert times * TWO_64 + rest == (times + 1) * TWO_64 + (rest - TWO_64);
    }
  }

  lemma Residue34()
    ensures Residue(34) == 8589934592000000000
  {
    Pow2Of34();
  }

  /** What is left at each shift from 35 to 56; from there on it is nothing. */
  const RESIDUES: seq<int> := [
    17179869184000000000, 15912994294290448384, 13379244514871345152, 8311744956033138688,
    16623489912066277376, 14800235750423003136, 11153727427136454656, 3860710780563357696,
    7721421561126715392, 15442843122253430784, 12438942170797309952, 6431140267885068288,
    12862280535770136576, 7277816997830721536, 14555633995661443072, 10664523917613334528,
    2882303761517117440, 5764607523034234880, 11529215046068469760, 4611686018427387904,
    9223372036854775808, 0]

  lemma Residues()
    ensures forall k :: 0 <= k < |RESIDUES| ==> Residue(35 + k) == RESIDUES[k]
  {
    hide Residue;
    Residue34();
    Doubles(34, 8589934592000000000, 17179869184000000000);
    Doubles(35, 17179869184000000000, 15912994294290448384);
    Doubles(36, 15912994294290448384, 13379244514871345152);
    Doubles(37, 13379244514871345152, 8311744956033138688);
    Doubles(38, 8311744956033138688, 16623489912066277376);
    Doubles(39, 16623489912066277376, 14800235750423003136);
    Doubles(40, 14800235750423003136, 11153727427136454656);
    Doubles(41, 11153727427136454656, 3860710780563357696);
    Doubles(42, 3860710780563357696, 7721421561126715392);
    Doubles(43, 7721421561126715392, 15442843122253430784);
    Doubles(44, 15442843122253430784, 12438942170797309952);
    Doubles(45, 12438942170797309952, 6431140267885068288);
    Doubles(46, 6431140267885068288, 12862280535770136576);
    Doubles(47, 12862280535770136576, 7277816997830721536);
    Doubles(48, 7277816997830721536, 14555633995661443072);
    Doubles(49, 14555633995661443072, 10664523917613334528);
    Doubles(50, 10664523917613334528, 2882303761517117440);
    Doubles(51, 2882303761517117440, 5764607523034234880);
    Doubles(52, 5764607523034234880, 11529215046068469760);
    Doubles(53, 11529215046068469760, 4611686018427387904);
    Doubles(54, 4611686018427387904, 9223372036854775808);
    Doubles(55, 9223372036854775808, 0);
  }

  /** From shift 56 on nothing is left: the base delay is a multiple of 256 nanoseconds. */
  lemma {:induction false} NothingIsLeft(shift: nat)
    requires shift >= 56
    ensures Residue(shift) == 0
  {
    if shift == 56 {
      Residues();
      assert RESIDUES[21] == 0;
    } else {
      NothingIsLeft(shift - 1);
      hide Residue;
      Doubles(shift - 1, 0, 0);
    }
  }

  /** The attempts past the thirty-fifth at which what is left happens to be ten seconds or more. */
  const STILL_CAPPED: set<int> := {39, 43, 44, 47, 49, 52, 53, 55}

  predicate IsCappedDoubling(attempt: nat)
    requires attempt > 0
  {
    Backoff(attempt) == Min(BASE_RETRY_DELAY * Pow2(attempt - 1), MAX_RETRY_DELAY)
  }

  /** From the sixth attempt on the doubling has passed its cap. */
  lemma CapReached(attempt: nat)
    requires attempt >= 6
    ensures Min(BASE_RETRY_DELAY * Pow2(attempt - 1), MAX_RETRY_DELAY) == MAX_RETRY_DELAY
  {
    assert Pow2(1) == 2 && Pow2(2) == 4 && Pow2(3) == 8 && Pow2(4) == 16 && Pow2(5) == 32;
    Pow2Grows(5, attempt - 1);
  }

  /**
    The delay is the doubled half second, capped, up to the thirty-fifth attempt and at eight later
    ones. At the other attempts up to the fifty-sixth it is negative, and from there on zero: the
    client does not wait at all.
  */
  lemma BackoffIsTheCappedDoublingIff(attempt: nat)
    requires attempt > 0
    ensures IsCappedDoubling(attempt) <==> attempt <= 35 || attempt in STILL_CAPPED
    ensures !IsCappedDoubling(attempt) ==> Backoff(attempt) <= 0
  {
    if attempt <= 35 {
      BackoffDoublesToTheCap(attempt);
    } else {
      CapReached(attempt);
      if attempt <= 57 {
        Residues();
        assert Residue(attempt - 1) == RESIDUES[attempt - 36];
      } else {
        NothingIsLeft(attempt - 1);
      }
      WrapOf(attempt);
    }
  }

  lemma WrapOf(attempt: nat)
    requires attempt > 0
    ensures Backoff(attempt) == var m := Residue(attempt - 1); Min(if m >= TWO_63 then m - TWO_64 else m, MAX_RETRY_DELAY)
  {
  }

  /** However it comes about, no retry waits longer than ten seconds. */
  lemma NoDelayExceedsTenSeconds(attempt: nat, last: Failure, header: Option<int>)
    requires attempt > 0 && (last.Api? ==> last.retryAfter == RetryAfter(header))
    ensures RetryDelay(attempt, last) <= MAX_RETRY_DELAY
  {
  }

  /** A whole number of seconds is waited for, ten at most; none, or a negative one, asks for nothing. */
  lemma RetryAfterIsTheSeconds(seconds: int)
    ensures RetryAfter(None) == 0 && (seconds < 0 ==> RetryAfter(Some(seconds)) == 0)
    ensures 0 <= seconds <= 9_223_372_036 ==>
              RetryAfter(Some(seconds)) == if seconds < 10 then seconds * 1_000_000_000 else 10_000_000_000
  {
  }

  /** What the provider asked for, if it asked for a wait, and otherwise the back-off. */
  lemma TheProviderGoesFirst(attempt: nat, status: nat, retryAfter: Duration)
    requires attempt > 0
    ensures RetryDelay(attempt, Api(status, retryAfter)) == if retryAfter > 0 then retryAfter else Backoff(attempt)
    ensures RetryDelay(attempt, Broken) == RetryDelay(attempt, WrongDimensions) == RetryDelay(attempt, BadResponse)
            == Backoff(attempt)
  {
  }

  // ---------------------------------------------------------------- the loop

  /** One request: how long it took, its answer, and whether the caller's context was done after it. */
  datatype Attempt<T> = Attempt(took: nat, answer: Result<T, Failure>, contextDone: bool)

  datatype GaveUp = Rejected(error: Failure) | Exhausted(last: Failure) | Interrupted(last: Failure)

  ghost predicate Takes<T(!new)>(attempt: nat -> Attempt<T>, timeout: nat) {
    forall k: nat :: attempt(k).took <= timeout
      && (attempt(k).answer.Err? && attempt(k).answer.error.Api? ==> attempt(k).answer.error.retryAfter <= MAX_RETRY_DELAY)
  }

  /** The request failed in a way worth another. */
  predicate TryAgain<T(!new)>(a: Attempt<T>, retryable: Failure -> bool) {
    a.answer.Err? && retryable(a.answer.error) && !a.contextDone
  }

  /** The wait before request k, after the failure of the one before it. */
  function Wait<T>(attempt: nat -> Attempt<T>, k: nat): nat
    requires k > 0
  {
    if attempt(k - 1).answer.Err? then Max(RetryDelay(k, attempt(k - 1).answer.error), 0) else 0
  }

  /** How long `calls` requests take, with the waits between them. */
  function Elapsed<T>(attempt: nat -> Attempt<T>, calls: nat): nat {
    if calls == 0 then 0
    else Elapsed(attempt, calls - 1) + (if calls > 1 then Wait(attempt, calls - 1) else 0) + attempt(calls - 1).took
  }

  /** The context ended during the wait before request k. */
  predicate CutOff<T>(attempt: nat -> Attempt<T>, interrupt: nat -> Option<nat>, k: nat)
    requires k > 0
  {
    interrupt(k).Some? && interrupt(k).value < Wait(attempt, k)
  }

  /** Every request but the last was worth another and was followed by one; the last is why the loop stopped. */
  ghost predicate Concludes<T(!new)>(attempt: nat -> Attempt<T>, interrupt: nat -> Option<nat>, retryable: Failure -> bool,
                                     maxRetries: nat, calls: nat, r: Result<T, GaveUp>) {
    && 1 <= calls <= maxRetries + 1
    && (forall k: nat :: k < calls - 1 ==> TryAgain(attempt(k), retryable))
    && (forall k: nat :: 0 < k < calls ==> !CutOff(attempt, interrupt, k))
    && var last := attempt(calls - 1);
    match r
    case Ok(value) => last.answer == Ok(value)
    case Err(Rejected(e)) => last.answer == Err(e) && !TryAgain(last, retryable)
    case Err(Exhausted(e)) => last.answer == Err(e) && TryAgain(last, retryable) && calls == maxRetries + 1
    case Err(Interrupted(e)) => last.answer == Err(e) && TryAgain(last, retryable) && calls <= maxRetries
                                && CutOff(attempt, interrupt, calls)
  }

  /** A request's time, and after the first the wait before it, which is never negative. */
  lemma EachRequestAddsItsTime<T>(attempt: nat -> Attempt<T>, calls: nat)
    requires calls > 0 && attempt(calls - 1).answer.Err?
    ensures Elapsed(attempt, 1) == attempt(0).took
    ensures Elapsed(attempt, calls + 1) == Elapsed(attempt, calls) + attempt(calls).took
              + (var delay := RetryDelay(calls, attempt(calls - 1).answer.error); if delay > 0 then delay else 0)
  {
    assert Elapsed(attempt, 0) == 0;
  }

  /** The time cut off the last wait, when the context ended during it. */
  function CutShort<T>(interrupt: nat -> Option<nat>, calls: nat, r: Result<T, GaveUp>): nat {
    if r.Err? && r.error.Interrupted? && interrupt(calls).Some? then interrupt(calls).value else 0
  }

  /**
    Asks until an answer, a permanent failure or the last retry. `interrupt(k)` is how far into the
    wait before request k the context ended, if it did.
  */
  method Call<T(!new)>(attempt: nat -> Attempt<T>, interrupt: nat -> Option<nat>, retryable: Failure -> bool,
                       maxRetries: nat)
    returns (r: Result<T, GaveUp>, calls: nat, elapsed: nat)
    ensures Concludes(attempt, interrupt, retryable, maxRetries, calls, r)
    ensures elapsed == Elapsed(attempt, calls) + CutShort(interrupt, calls, r)
    ensures r.Err? && r.error.Interrupted? ==> elapsed == Elapsed(attempt, calls) + interrupt(calls).value
    ensures r.Ok? || !r.error.Interrupted? ==> elapsed == Elapsed(attempt, calls)
  {
    hide RetryDelay;
    elapsed, calls := 0, 0;
    var last := Broken;
    while calls <= maxRetries
      invariant calls <= maxRetries + 1
      invariant forall k: nat :: k < calls ==> TryAgain(attempt(k), retryable)
      invariant forall k: nat :: 0 < k < calls ==> !CutOff(attempt, interrupt, k)
      invariant calls > 0 ==> attempt(calls - 1).answer == Err(last)
      invariant elapsed == Elapsed(attempt, calls)
      decreases maxRetries + 1 - calls
    {
      if calls > 0 {
        var delay := RetryDelay(calls, last);
        assert attempt(calls - 1).answer == Err(last) && Wait(attempt, calls) == Max(delay, 0);
        if interrupt(calls).Some? && interrupt(calls).value < delay {
          elapsed := elapsed + interrupt(calls).value;
          return Err(Interrupted(last)), calls, elapsed;
        }
        elapsed := elapsed + Max(delay, 0);
      }
      var a := attempt(calls);
      elapsed := elapsed + a.took;
      calls := calls + 1;
      if a.answer.Ok? {
        return Ok(a.answer.value), calls, elapsed;
      }
      if !retryable(a.answer.error) || a.contextDone {
        return Err(Rejected(a.answer.error)), calls, elapsed;
      }
      last := a.answer.error;
    }
    return Err(Exhausted(last)), calls, elapsed;
  }

  // ---------------------------------------------------------------- how long it can take

  /** What one model call or embedding may take: every attempt to its timeout, and ten seconds a retry. */
  function WorstCall(timeout: nat, maxRetries: nat): nat { timeout * (1 + maxRetries) + maxRetries * MAX_RETRY_DELAY }

  lemma WaitsAreBounded<T(!new)>(attempt: nat -> Attempt<T>, timeout: nat, k: nat)
    requires Takes(attempt, timeout) && k > 0
    ensures Wait(attempt, k) <= MAX_RETRY_DELAY
  {
    var a := attempt(k - 1);
    assert a.took <= timeout;
  }

  lemma {:induction false} ElapsedIsBounded<T(!new)>(attempt: nat -> Attempt<T>, timeout: nat, calls: nat)
    requires Takes(attempt, timeout) && calls > 0
    ensures Elapsed(attempt, calls) <= calls * timeout + (calls - 1) * MAX_RETRY_DELAY
  {
    var last := attempt(calls - 1);
    assert last.took <= timeout;
    if calls == 1 {
      assert Elapsed(attempt, 0) == 0;
    } else {
      ElapsedIsBounded(attempt, timeout, calls - 1);
      WaitsAreBounded(attempt, timeout, calls - 1);
      assert calls * timeout == (calls - 1) * timeout + timeout;
    }
  }

  lemma CallsAreBounded(maxRetries: nat, calls: nat, timeout: nat)
    ensures calls <= maxRetries ==> calls * timeout + calls * MAX_RETRY_DELAY <= WorstCall(timeout, maxRetries)
    ensures 1 <= calls <= maxRetries + 1 ==>
              calls * timeout + (calls - 1) * MAX_RETRY_DELAY <= WorstCall(timeout, maxRetries)
  {
    if calls <= maxRetries + 1 {
      assert calls * timeout <= (maxRetries + 1) * timeout;
    }
  }

  /** However a call ends, it ends by its worst. */
  lemma CallsEndByTheirWorst<T(!new)>(attempt: nat -> Attempt<T>, interrupt: nat -> Option<nat>, retryable: Failure -> bool,
                                      maxRetries: nat, timeout: nat, calls: nat, r: Result<T, GaveUp>)
    requires Takes(attempt, timeout) && Concludes(attempt, interrupt, retryable, maxRetries, calls, r)
    ensures Elapsed(attempt, calls) + CutShort(interrupt, calls, r) <= WorstCall(timeout, maxRetries)
  {
    hide Elapsed, Wait, TryAgain, Takes;
    CallsAreBounded(maxRetries, calls, timeout);
    ElapsedIsBounded(attempt, timeout, calls);
    if r.Err? && r.error.Interrupted? {
      WaitsAreBounded(attempt, timeout, calls);
    }
  }

  /** A provider that answers every request at its timeout, asks for ten seconds each time, and at last succeeds. */
  function Slow<T>(timeout: nat, maxRetries: nat, value: T): nat -> Attempt<T> {
    (k: nat) => Attempt(timeout, if k < maxRetries then Err(Api(429, MAX_RETRY_DELAY)) else Ok(value), false)
  }

  lemma {:induction false} SlowTakes<T(!new)>(timeout: nat, maxRetries: nat, value: T, calls: nat)
    requires 1 <= calls <= maxRetries + 1
    ensures Elapsed(Slow(timeout, maxRetries, value), calls) == calls * timeout + (calls - 1) * MAX_RETRY_DELAY
  {
    var attempt := Slow(timeout, maxRetries, value);
    if calls == 1 {
      assert Elapsed(attempt, 0) == 0;
    } else {
      SlowTakes(timeout, maxRetries, value, calls - 1);
      assert Wait(attempt, calls - 1) == MAX_RETRY_DELAY;
      assert calls * timeout == (calls - 1) * timeout + timeout;
    }
  }

  /** A context that ends during no wait. */
  function Uninterrupted(): nat -> Option<nat> { (_: nat) => None }

  /** The worst is reached, by a call that succeeds: no smaller figure bounds them all. */
  lemma TheWorstCallHappens<T(!new)>(timeout: nat, maxRetries: nat, value: T)
    ensures var attempt, interrupt := Slow(timeout, maxRetries, value), Uninterrupted();
            && Takes(attempt, timeout)
            && Concludes(attempt, interrupt, LlmRetryable, maxRetries, maxRetries + 1, Ok(value))
            && Concludes(attempt, interrupt, EmbedRetryable, maxRetries, maxRetries + 1, Ok(value))
            && Elapsed(attempt, maxRetries + 1) == WorstCall(timeout, maxRetries)
  {
    SlowTakes(timeout, maxRetries, value, maxRetries + 1);
    assert (maxRetries + 1) * timeout == timeout * (1 + maxRetries);
  }

  // ---------------------------------------------------------------- the two clients

  /** In the source's terms: anything but a request that is wrong or a provider that is. */
  predicate WorthACall(f: Failure) {
    f != BadResponse && (f.Api? ==> f.status == 429 || f.status < 400 || f.status >= 500)
  }

  /** Anything but a document that is too long, a vector of the wrong length or a provider that is wrong. */
  predicate WorthARequest(f: Failure) { f.Broken? || (f.Api? && f.status !in {400, 413, 422}) }

  lemma WorthIsRetryable(f: Failure)
    ensures LlmRetryable(f) <==> WorthACall(f)
    ensures EmbedRetryable(f) <==> WorthARequest(f)
  {
  }

  lemma ConcludesAlike<T(!new)>(attempt: nat -> Attempt<T>, interrupt: nat -> Option<nat>, a: Failure -> bool,
                                b: Failure -> bool, maxRetries: nat, calls: nat, r: Result<T, GaveUp>)
    requires forall f :: a(f) == b(f)
    requires Concludes(attempt, interrupt, a, maxRetries, calls, r)
    ensures Concludes(attempt, interrupt, b, maxRetries, calls, r)
  {
    hide CutOff;
    forall k: nat ensures TryAgain(attempt(k), a) == TryAgain(attempt(k), b) {
    }
  }

  /**
    One model call. A failure is followed by another call exactly when it is a status of 429 or one outside
    the 400s, or a transport failure, retries are left, the context is alive and nothing ends the wait.
  */
  method Chat<T(!new)>(attempt: nat -> Attempt<T>, interrupt: nat -> Option<nat>, maxRetries: nat, ghost timeout: nat)
    returns (r: Result<T, GaveUp>, calls: nat, elapsed: nat)
    requires Takes(attempt, timeout)
    ensures Concludes(attempt, interrupt, WorthACall, maxRetries, calls, r)
    ensures elapsed <= WorstCall(timeout, maxRetries)
    ensures forall k: nat :: k < calls - 1 ==>
              attempt(k).answer.Err? && WorthACall(attempt(k).answer.error)
    ensures r.Err? && r.error.Rejected? ==>
              var e := r.error.error;
              && attempt(calls - 1).answer == Err(e)
              && (attempt(calls - 1).contextDone || e == BadResponse
                  || (e.Api? && 400 <= e.status <= 499 && e.status != 429))
    ensures r.Err? && calls <= maxRetries && !attempt(calls - 1).contextDone && !CutOff(attempt, interrupt, calls) ==>
              attempt(calls - 1).answer.Err? && !WorthACall(attempt(calls - 1).answer.error)
  {
    r, calls, elapsed := Call(attempt, interrupt, LlmRetryable, maxRetries);
    CallsEndByTheirWorst(attempt, interrupt, LlmRetryable, maxRetries, timeout, calls, r);
    forall f ensures LlmRetryable(f) == WorthACall(f) {
      WorthIsRetryable(f);
    }
    ConcludesAlike(attempt, interrupt, LlmRetryable, WorthACall, maxRetries, calls, r);
    forall k: nat | k < calls - 1 ensures attempt(k).answer.Err? && WorthACall(attempt(k).answer.error) {
      assert TryAgain(attempt(k), WorthACall);
    }
  }

  /** One embedding request: the same, with every status retried but 400, 413 and 422. */
  method EmbedBatch<T(!new)>(attempt: nat -> Attempt<T>, interrupt: nat -> Option<nat>, maxRetries: nat, ghost timeout: nat)
    returns (r: Result<T, GaveUp>, calls: nat, elapsed: nat)
    requires Takes(attempt, timeout)
    ensures Concludes(attempt, interrupt, WorthARequest, maxRetries, calls, r)
    ensures elapsed <= WorstCall(timeout, maxRetries)
    ensures forall k: nat :: k < calls - 1 ==>
              attempt(k).answer.Err? && WorthARequest(attempt(k).answer.error)
    ensures r.Err? && r.error.Rejected? ==>
              var e := r.error.error;
              && attempt(calls - 1).answer == Err(e)
              && (attempt(calls - 1).contextDone || e == BadResponse || e == WrongDimensions
                  || (e.Api? && (e.status == 400 || e.status == 413 || e.status == 422)))
    ensures r.Err? && calls <= maxRetries && !attempt(calls - 1).contextDone && !CutOff(attempt, interrupt, calls) ==>
              attempt(calls - 1).answer.Err? && !WorthARequest(attempt(calls - 1).answer.error)
  {
    r, calls, elapsed := Call(attempt, interrupt, EmbedRetryable, maxRetries);
    CallsEndByTheirWorst(attempt, interrupt, EmbedRetryable, maxRetries, timeout, calls, r);
    forall f ensures EmbedRetryable(f) == WorthARequest(f) {
      WorthIsRetryable(f);
    }
    ConcludesAlike(attempt, interrupt, EmbedRetryable, WorthARequest, maxRetries, calls, r);
    forall k: nat | k < calls - 1 ensures attempt(k).answer.Err? && WorthARequest(attempt(k).answer.error) {
      assert TryAgain(attempt(k), WorthARequest);
    }
  }
}
