/** Fetching the chain list: the response-shape check and the retry loop with capped exponential backoff. */
module Api {
  import opened Wrappers
  import opened ChainTypes
  import Text

  /** What one GET of the chains URL yields. */
  datatype HttpOutcome =
    | Response(data: Option<ChainsApiResponse>)          // `response.data`, `None` when it is falsy
    | RequestError(message: string, status: Option<int>) // an HTTP client error, with the status of a response if one came back

  const InvalidFormat := "Invalid API response format"
  const DefaultMaxRetries := 3
  const BaseDelayMs := 1000
  const MaxDelayMs := 10000

  /** `error.response?.status || 'unknown status'`: a missing or zero status is unknown. */
  function StatusText(status: Option<int>): string
  {
    match status
    case Some(s) => if s == 0 then "unknown status" else Text.IntToString(s)
    case None => "unknown status"
  }

  /** `fetchChains()` for what the request yields. */
  function FetchChains(o: HttpOutcome): (r: Result<seq<Chain>, string>)
    ensures r.Success? <==> o.Response? && o.data.Some? && o.data.value.chains.Some?
    ensures r.Success? ==> r.value == o.data.value.chains.value
    ensures o.Response? && r.Failure? ==> r.error == InvalidFormat
  {
    match o
    case RequestError(msg, status) =>
      Failure("API request failed: " + msg + " (" + StatusText(status) + ")")
    case Response(data) =>
      if data.None? || data.value.chains.None? then Failure(InvalidFormat)
      else Success(data.value.chains.value)
  }

  function Pow2(n: nat): (p: nat)
    ensures p >= 1
  {
    if n == 0 then 1 else 2 * Pow2(n - 1)
  }

  /** `Math.min(1000 * 2 ** (attempt - 1), 10000)`: the wait after failed attempt `attempt`. */
  function Backoff(attempt: nat): (ms: int)
    requires attempt >= 1
    ensures BaseDelayMs <= ms <= MaxDelayMs
  {
    var raw := BaseDelayMs * Pow2(attempt - 1);
    if raw < MaxDelayMs then raw else MaxDelayMs
  }

  /** The waits taken after the first `n` failed attempts. */
  function Waits(n: nat): (w: seq<int>)
    ensures |w| == n
    ensures forall i :: 0 <= i < n ==> w[i] == Backoff(i + 1)
  {
    seq(n, i requires 0 <= i < n => Backoff(i + 1))
  }

  function ExhaustedMessage(maxRetries: int, lastError: Option<string>): string
  {
    "Failed to fetch chains after " + Text.IntToString(maxRetries) + " attempts: "
      + (match lastError case Some(m) => m case None => "undefined")
  }

  /** The rest of `fetchChainsWithRetry` from attempt `attempt` on, `lastError` holding the latest failure. */
  function RetryFrom(network: nat -> HttpOutcome, maxRetries: int, attempt: nat, lastError: Option<string>)
    : Result<seq<Chain>, string>
    requires attempt >= 1
    decreases maxRetries - attempt + 1
  {
    if attempt > maxRetries then Failure(ExhaustedMessage(maxRetries, lastError))
    else
      match FetchChains(network(attempt))
      case Success(chains) => Success(chains)
      case Failure(e) => RetryFrom(network, maxRetries, attempt + 1, Some(e))
  }

  /** `fetchChainsWithRetry(maxRetries)` where attempt `a` (from 1) yields `network(a)`. */
  function FetchWithRetry(network: nat -> HttpOutcome, maxRetries: int): Result<seq<Chain>, string>
  {
    RetryFrom(network, maxRetries, 1, None)
  }

  /**
   * The retry loop. `calls` counts the requests made and `waits` lists the
   * delays slept between them, in milliseconds.
   */
  method FetchChainsWithRetry(network: nat -> HttpOutcome, maxRetries: int)
    returns (r: Result<seq<Chain>, string>, calls: nat, waits: seq<int>)
    ensures r == FetchWithRetry(network, maxRetries)
    ensures calls <= (if maxRetries > 0 then maxRetries else 0)
    ensures forall a :: 1 <= a < calls ==> FetchChains(network(a)).Failure?
    ensures r.Success? ==> calls >= 1 && r == FetchChains(network(calls))
    ensures r.Failure? ==> calls == (if maxRetries > 0 then maxRetries else 0)
    ensures r.Failure? && calls == 0 ==> r.error == ExhaustedMessage(maxRetries, None)
    ensures r.Failure? && calls >= 1 ==>
      var last := FetchChains(network(calls));
      last.Failure? && r.error == ExhaustedMessage(maxRetries, Some(last.error))
    ensures waits == Waits(if calls == 0 then 0 else calls - 1)
  {
    var lastError: Option<string> := None;
    calls, waits := 0, [];
    var attempt := 1;
    while attempt <= maxRetries
      invariant 1 <= attempt && calls == attempt - 1
      invariant attempt > 1 ==> attempt <= maxRetries + 1
      invariant RetryFrom(network, maxRetries, attempt, lastError) == FetchWithRetry(network, maxRetries)
      invariant forall a :: 1 <= a < attempt ==> FetchChains(network(a)).Failure?
      invariant lastError == if attempt == 1 then None else Some(FetchChains(network(attempt - 1)).error)
      invariant waits == Waits(if attempt <= maxRetries then calls else if calls == 0 then 0 else calls - 1)
      decreases maxRetries - attempt + 1
    {
      calls := calls + 1;
      var fetched := FetchChains(network(attempt));
      if fetched.Success? {
        return fetched, calls, waits;
      }
      lastError := Some(fetched.error);
      if attempt < maxRetries {
        WaitsStep(calls);
        waits := waits + [Backoff(attempt)];
      }
      attempt := attempt + 1;
    }
    r := Failure(ExhaustedMessage(maxRetries, lastError));
  }

  lemma WaitsStep(n: nat)
    requires n >= 1
    ensures Waits(n - 1) + [Backoff(n)] == Waits(n)
  {
    assert (Waits(n - 1) + [Backoff(n)])[n - 1] == Waits(n)[n - 1];
  }

  lemma {:induction false} Pow2Grows(m: nat, n: nat)
    requires m <= n
    ensures Pow2(m) <= Pow2(n)
  {
    if m < n {
      Pow2Grows(m, n - 1);
    }
  }

  /**
   * The schedule doubles from one second and is capped at ten: 1000, 2000,
   * 4000, 8000 ms, then 10000 ms for every later attempt.
   */
  lemma BackoffSchedule(attempt: nat)
    requires attempt >= 1
    ensures attempt <= 4 ==> Backoff(attempt) == BaseDelayMs * Pow2(attempt - 1)
    ensures attempt >= 5 ==> Backoff(attempt) == MaxDelayMs
    ensures Backoff(1) == 1000 && Backoff(2) == 2000 && Backoff(3) == 4000 && Backoff(4) == 8000
  {
    assert Pow2(3) == 8;
    if attempt >= 5 {
      Pow2Grows(4, attempt - 1);
    } else {
      Pow2Grows(attempt - 1, 3);
    }
  }

  /** With the default three attempts all failing, the waits are exactly 1000 then 2000 ms. */
  lemma DefaultWaits()
    ensures Waits(DefaultMaxRetries - 1) == [1000, 2000]
  {
    BackoffSchedule(1);
  }
}
