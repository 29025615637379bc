/**
 * The resilient fetcher, `_request_with_retries`: up to `max_retries` GET
 * attempts; an attempt that raises, or answers with a status of 500 or more,
 * is followed by a sleep of `backoff_factor * 2^(attempt-1)` plus a random
 * jitter of up to half that, and the next attempt.
 *
 * The network is a function from the attempt number (from 1) to what the
 * server does on that attempt. The jitter (`random.uniform`) is chosen
 * nondeterministically; the sleeps are returned instead of performed.
 */
module Fetcher {
  import opened PyJson
  import opened Markup

  /** `PinterestScraperConfig`. */
  datatype ScraperConfig = ScraperConfig(
    baseUrl: string, timeout: real, maxRetries: int, backoffFactor: real, userAgent: string)

  /** The defaults of `PinterestScraperConfig`. */
  const DefaultConfig: ScraperConfig :=
    ScraperConfig("https://www.pinterest.com/search/pins/", 10.0, 3, 0.5, "PinterestSearchScraper/1.0")

  /** What one `session.get` does: raise, or answer with a response. */
  datatype Attempt = Raised | Answered(resp: Response)

  /** What `_request_with_retries` ends with: a response, None, or the
      ValueError that `time.sleep` raises for a negative duration, which
      escapes the `except` block it is called from. */
  datatype FetchResult = Fetched(resp: Response) | NoResponse | SleepRaised

  /** An attempt the loop retries: it raised, or its status is a server error. */
  predicate Retryable(a: Attempt)
  {
    a.Raised? || a.resp.status >= 500
  }

  function Pow2(n: nat): (r: nat)
    ensures r >= 1
  {
    if n == 0 then 1 else 2 * Pow2(n - 1)
  }

  /** The wait after failed attempt number `attempt`, before jitter. */
  function Backoff(factor: real, attempt: nat): (r: real)
    requires attempt >= 1
    ensures attempt == 1 ==> r == factor
  {
    factor * Pow2(attempt - 1) as real
  }

  /** Each wait is twice the one before. */
  lemma BackoffDoubles(factor: real, attempt: nat)
    requires attempt >= 1
    ensures Backoff(factor, attempt + 1) == 2.0 * Backoff(factor, attempt)
  {
    assert Pow2(attempt) as real == 2.0 * Pow2(attempt - 1) as real;
  }

  lemma BackoffSign(factor: real, attempt: nat)
    requires attempt >= 1
    ensures Backoff(factor, attempt) < 0.0 <==> factor < 0.0
  {
    var p := Pow2(attempt - 1) as real;
    assert p >= 1.0;
    if factor < 0.0 {
      assert factor * p <= factor * 1.0;
    } else {
      assert factor * p >= 0.0;
    }
  }

  /** `range(1, max_retries + 1)` has this many attempts. */
  function MaxAttempts(cfg: ScraperConfig): nat
  {
    if cfg.maxRetries > 0 then cfg.maxRetries else 0
  }

  /** Where the loop ends when it reaches attempt number `k`. */
  function FetchFrom(cfg: ScraperConfig, server: nat -> Attempt, k: nat): (r: FetchResult)
    requires k >= 1
    ensures r.Fetched? ==> r.resp.status < 500
    ensures r.SleepRaised? ==> cfg.backoffFactor < 0.0
    decreases MaxAttempts(cfg) + 1 - k
  {
    if k > MaxAttempts(cfg) then NoResponse
    else if !Retryable(server(k)) then Fetched(server(k).resp)
    else if Backoff(cfg.backoffFactor, k) < 0.0 then
      BackoffSign(cfg.backoffFactor, k);
      SleepRaised
    else FetchFrom(cfg, server, k + 1)
  }

  /** What `_request_with_retries` returns or raises. */
  function FetchSpec(cfg: ScraperConfig, server: nat -> Attempt): (r: FetchResult)
    ensures r.Fetched? ==> r.resp.status < 500
    ensures r.SleepRaised? ==> cfg.backoffFactor < 0.0
    ensures MaxAttempts(cfg) == 0 ==> r == NoResponse
  {
    FetchFrom(cfg, server, 1)
  }

  /**
   * `_request_with_retries`. Besides the result it returns the number of
   * attempts made and the duration of every sleep, in order.
   */
  method RequestWithRetries(cfg: ScraperConfig, server: nat -> Attempt)
    returns (r: FetchResult, attempts: nat, sleeps: seq<real>)
    ensures r == FetchSpec(cfg, server)
    ensures attempts <= MaxAttempts(cfg)
    ensures forall k :: 1 <= k < attempts ==> Retryable(server(k))
    ensures r.Fetched? ==>
              && attempts >= 1 && !Retryable(server(attempts))
              && r.resp == server(attempts).resp
    ensures r.NoResponse? ==>
              attempts == MaxAttempts(cfg) && forall k :: 1 <= k <= attempts ==> Retryable(server(k))
    ensures r.SleepRaised? ==> attempts == 1 && Retryable(server(1)) && cfg.backoffFactor < 0.0
    ensures |sleeps| == if r.NoResponse? then attempts else attempts - 1
    ensures forall i :: 0 <= i < |sleeps| ==>
              Backoff(cfg.backoffFactor, i + 1) <= sleeps[i] <= 1.5 * Backoff(cfg.backoffFactor, i + 1)
  {
    attempts, sleeps := 0, [];
    var attempt := 1;
    while attempt <= MaxAttempts(cfg)
      invariant 1 <= attempt <= MaxAttempts(cfg) + 1
      invariant attempts == attempt - 1
      invariant forall k :: 1 <= k < attempt ==> Retryable(server(k))
      invariant attempt > 1 ==> cfg.backoffFactor >= 0.0
      invariant FetchSpec(cfg, server) == FetchFrom(cfg, server, attempt)
      invariant |sleeps| == attempt - 1
      invariant forall i :: 0 <= i < |sleeps| ==>
                  Backoff(cfg.backoffFactor, i + 1) <= sleeps[i] <= 1.5 * Backoff(cfg.backoffFactor, i + 1)
      decreases MaxAttempts(cfg) + 1 - attempt
    {
      attempts := attempt;
      var outcome := server(attempt);
      if !Retryable(outcome) {
        r := Fetched(outcome.resp);
        return;
      }
      var wait := Backoff(cfg.backoffFactor, attempt);
      BackoffSign(cfg.backoffFactor, attempt);
      // random.uniform(0, wait / 2): a value between the two bounds
      var jitter: real :| if wait >= 0.0 then 0.0 <= jitter <= wait / 2.0 else wait / 2.0 <= jitter <= 0.0;
      var sleepFor := wait + jitter;
      if sleepFor < 0.0 {
        // time.sleep raises ValueError for a negative duration
        r := SleepRaised;
        return;
      }
      sleeps := sleeps + [sleepFor];
      attempt := attempt + 1;
    }
    r := NoResponse;
  }
}
