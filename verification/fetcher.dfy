/** The rate-limit retry loop of `make_request`, with the HTTP client replaced
    by the server's replies and `time.sleep` by a record of the waits. */
module Fetcher {
  import opened Wrappers
  import opened PyJson

  /** One reply of the legal-data API: an HTTP status with its decoded JSON
      object body, or a `requests.RequestException` raised by the client (with
      requests 2.27 or later this includes a 200 whose body does not decode). */
  datatype Response = Reply(status: int, body: Object) | TransportError

  /** The server's reply to the k-th request (from 0) of one `make_request` call. */
  type Server = nat -> Response

  const Ok: int := 200
  /** Too Many Requests, section 4 of RFC 6585. */
  const TooManyRequests: int := 429
  /** The default arguments every caller uses. */
  const DefaultMaxRetries: nat := 5
  const DefaultInitialWait: nat := 5

  predicate RateLimited(resp: Response)
  {
    resp.Reply? && resp.status == TooManyRequests
  }

  /** A reply that ends the loop with `None` at once: a transport error or a
      status other than 200 and 429. */
  predicate Fatal(resp: Response)
  {
    resp.TransportError? || (resp.status != Ok && resp.status != TooManyRequests)
  }

  /** What one `make_request` call did: the body it returned (`None` for
      failure), how many requests it sent, and each `time.sleep` in order. */
  datatype Fetch = Fetch(body: Option<Object>, requests: nat, waits: seq<nat>)

  /** Python's `2 ** n`. */
  function Pow2(n: nat): (r: nat)
    ensures r >= 1
  {
    if n == 0 then 1 else 2 * Pow2(n - 1)
  }

  /** Seconds slept in all. */
  function TotalWait(waits: seq<nat>): nat
  {
    if |waits| == 0 then 0 else TotalWait(waits[..|waits| - 1]) + waits[|waits| - 1]
  }

  /** The loop `for attempt in range(max_retries)` from `attempt` on. */
  function Retry(server: Server, maxRetries: nat, initialWait: nat, attempt: nat): Fetch
    requires attempt <= maxRetries
    decreases maxRetries - attempt
  {
    if attempt == maxRetries then Fetch(None, 0, [])
    else
      match server(attempt)
      case TransportError => Fetch(None, 1, [])
      case Reply(status, body) =>
        if status == Ok then Fetch(Some(body), 1, [])
        else if status == TooManyRequests then
          var rest := Retry(server, maxRetries, initialWait, attempt + 1);
          Fetch(rest.body, rest.requests + 1, [initialWait * Pow2(attempt)] + rest.waits)
        else Fetch(None, 1, [])
  }

  /** `make_request(url, max_retries, initial_wait)` against `server`. */
  function MakeRequest(server: Server, maxRetries: nat, initialWait: nat): Fetch
  {
    Retry(server, maxRetries, initialWait, 0)
  }

  /** Each of `waits` answers a 429 on its attempt, counted from `from`, and
      lasts `initialWait * 2^attempt`. */
  ghost predicate BackedOff(server: Server, initialWait: nat, from: nat, waits: seq<nat>)
  {
    forall j :: 0 <= j < |waits| ==> RateLimited(server(from + j)) && waits[j] == initialWait * Pow2(from + j)
  }

  /** `r` is what the loop, started at attempt `from`, must do with these
      replies: every wait answers a 429 on the same attempt and lasts
      `initialWait * 2^attempt`; a body is returned only for a 200, right
      after the 429s; `None` comes from a fatal reply right after the 429s, or
      from 429s on every remaining attempt. */
  ghost predicate Explains(server: Server, maxRetries: nat, initialWait: nat, from: nat, r: Fetch)
  {
    && from + r.requests <= maxRetries
    && BackedOff(server, initialWait, from, r.waits)
    && match r.body
       case Some(b) =>
         r.requests == |r.waits| + 1 && server(from + |r.waits|) == Reply(Ok, b)
       case None =>
         || (r.requests == |r.waits| && from + r.requests == maxRetries)
         || (r.requests == |r.waits| + 1 && Fatal(server(from + |r.waits|)))
  }

  /** A 429 answered by a wait of `initialWait * 2^from` extends a backoff
      run by one attempt. */
  lemma BackedOffCons(server: Server, initialWait: nat, from: nat, waits: seq<nat>)
    requires RateLimited(server(from))
    requires BackedOff(server, initialWait, from + 1, waits)
    ensures BackedOff(server, initialWait, from, [initialWait * Pow2(from)] + waits)
  {
    var all := [initialWait * Pow2(from)] + waits;
    forall j | 0 <= j < |all|
      ensures RateLimited(server(from + j)) && all[j] == initialWait * Pow2(from + j)
    {
      if j != 0 {
        assert all[j] == waits[j - 1];
        assert from + j == from + 1 + (j - 1);
      }
    }
  }

  lemma {:induction false} RetryExplained(server: Server, maxRetries: nat, initialWait: nat, attempt: nat)
    requires attempt <= maxRetries
    ensures Explains(server, maxRetries, initialWait, attempt, Retry(server, maxRetries, initialWait, attempt))
    decreases maxRetries - attempt
  {
    if attempt < maxRetries && RateLimited(server(attempt)) {
      RetryExplained(server, maxRetries, initialWait, attempt + 1);
      var rest := Retry(server, maxRetries, initialWait, attempt + 1);
      var r := Retry(server, maxRetries, initialWait, attempt);
      assert r == Fetch(rest.body, rest.requests + 1, [initialWait * Pow2(attempt)] + rest.waits);
      BackedOffCons(server, initialWait, attempt, rest.waits);
      assert attempt + |r.waits| == attempt + 1 + |rest.waits|;
    }
  }

  /** Replies 429 on attempts `from`..k-1 only delay the loop: it then
      behaves as if it had started at attempt k. */
  lemma {:induction false} SkipRateLimits(server: Server, maxRetries: nat, initialWait: nat, from: nat, k: nat)
    requires from <= k <= maxRetries
    requires forall j :: from <= j < k ==> RateLimited(server(j))
    ensures var r, rest := Retry(server, maxRetries, initialWait, from), Retry(server, maxRetries, initialWait, k);
            && r.body == rest.body
            && r.requests == (k - from) + rest.requests
            && |r.waits| == (k - from) + |rest.waits|
    decreases k - from
  {
    if from < k {
      SkipRateLimits(server, maxRetries, initialWait, from + 1, k);
    }
  }

  /** Sleeping `initialWait * 2^j` before retry j, for j < n, adds up to
      `initialWait * (2^n - 1)`. */
  lemma {:induction false} GeometricWaits(waits: seq<nat>, initialWait: nat)
    requires forall j :: 0 <= j < |waits| ==> waits[j] == initialWait * Pow2(j)
    ensures TotalWait(waits) == initialWait * (Pow2(|waits|) - 1)
  {
    if |waits| != 0 {
      var n := |waits| - 1;
      GeometricWaits(waits[..n], initialWait);
      calc {
        TotalWait(waits);
        TotalWait(waits[..n]) + waits[n];
        initialWait * (Pow2(n) - 1) + initialWait * Pow2(n);
        { assert Pow2(n + 1) == 2 * Pow2(n); }
        initialWait * (Pow2(n + 1) - 1);
      }
    }
  }

  /** The complete reply-by-reply account of `make_request`, with the total
      time slept. */
  lemma MakeRequestExplained(server: Server, maxRetries: nat, initialWait: nat)
    ensures Explains(server, maxRetries, initialWait, 0, MakeRequest(server, maxRetries, initialWait))
    ensures var r := MakeRequest(server, maxRetries, initialWait);
            TotalWait(r.waits) == initialWait * (Pow2(|r.waits|) - 1)
  {
    var r := MakeRequest(server, maxRetries, initialWait);
    RetryExplained(server, maxRetries, initialWait, 0);
    GeometricWaits(r.waits, initialWait);
  }

  /** 429 on attempts 0..k-1 and a 200 on attempt k: the body comes back after
      exactly k+1 requests and `initialWait * (2^k - 1)` seconds of sleep. */
  lemma SuccessOnAttempt(server: Server, maxRetries: nat, initialWait: nat, k: nat, b: Object)
    requires k < maxRetries
    requires forall j :: 0 <= j < k ==> RateLimited(server(j))
    requires server(k) == Reply(Ok, b)
    ensures var r := MakeRequest(server, maxRetries, initialWait);
            r.body == Some(b) && r.requests == k + 1 && TotalWait(r.waits) == initialWait * (Pow2(k) - 1)
  {
    MakeRequestExplained(server, maxRetries, initialWait);
    SkipRateLimits(server, maxRetries, initialWait, 0, k);
  }

  /** 429 on attempts 0..k-1 and a transport error or any other status on
      attempt k: `None` after exactly k+1 requests, with no retry. */
  lemma StopsOnFatal(server: Server, maxRetries: nat, initialWait: nat, k: nat)
    requires k < maxRetries
    requires forall j :: 0 <= j < k ==> RateLimited(server(j))
    requires Fatal(server(k))
    ensures var r := MakeRequest(server, maxRetries, initialWait);
            r.body == None && r.requests == k + 1 && TotalWait(r.waits) == initialWait * (Pow2(k) - 1)
  {
    MakeRequestExplained(server, maxRetries, initialWait);
    SkipRateLimits(server, maxRetries, initialWait, 0, k);
  }

  /** 429 on every attempt: `None` after `maxRetries` requests, having slept
      `initialWait * (2^maxRetries - 1)`, the last sleep included. */
  lemma ExhaustedByRateLimits(server: Server, maxRetries: nat, initialWait: nat)
    requires forall j :: 0 <= j < maxRetries ==> RateLimited(server(j))
    ensures var r := MakeRequest(server, maxRetries, initialWait);
            r.body == None && r.requests == maxRetries
            && TotalWait(r.waits) == initialWait * (Pow2(maxRetries) - 1)
  {
    MakeRequestExplained(server, maxRetries, initialWait);
    SkipRateLimits(server, maxRetries, initialWait, 0, maxRetries);
  }

  /** With the default arguments, 429 on attempts 0-3 and 200 on attempt 4
      succeeds after sleeping `initialWait * (1 + 2 + 4 + 8)`. */
  lemma DefaultBackoff(server: Server, initialWait: nat, b: Object)
    requires forall j :: 0 <= j < 4 ==> RateLimited(server(j))
    requires server(4) == Reply(Ok, b)
    ensures var r := MakeRequest(server, DefaultMaxRetries, initialWait);
            r.body == Some(b) && r.requests == DefaultMaxRetries
            && TotalWait(r.waits) == initialWait * (1 + 2 + 4 + 8)
  {
    SuccessOnAttempt(server, DefaultMaxRetries, initialWait, 4, b);
    assert Pow2(4) == 16;
  }

  /** The total-wait half of `MakeRequestExplained`. */
  lemma MakeRequestTotalWait(server: Server, maxRetries: nat, initialWait: nat)
    ensures var r := MakeRequest(server, maxRetries, initialWait);
            TotalWait(r.waits) == initialWait * (Pow2(|r.waits|) - 1)
  {
    MakeRequestExplained(server, maxRetries, initialWait);
  }

  /** One more 429 adds `initialWait * 2^n` to `initialWait * (2^n - 1)`. */
  lemma DoubleWait(initialWait: nat, n: nat)
    ensures initialWait * (Pow2(n) - 1) + initialWait * Pow2(n) == initialWait * (Pow2(n + 1) - 1)
  {
    assert Pow2(n + 1) == 2 * Pow2(n);
  }

  /** The loop as the source writes it, keeping a running total of the time
      slept instead of sleeping. */
  method MakeRequestLoop(server: Server, maxRetries: nat, initialWait: nat)
    returns (body: Option<Object>, requests: nat, waited: nat)
    ensures var f := MakeRequest(server, maxRetries, initialWait);
            body == f.body && requests == f.requests && waited == TotalWait(f.waits)
  {
    MakeRequestTotalWait(server, maxRetries, initialWait);
    var attempt: nat := 0;
    waited := 0;
    while attempt < maxRetries
      invariant attempt <= maxRetries
      invariant forall j :: 0 <= j < attempt ==> RateLimited(server(j))
      invariant waited == initialWait * (Pow2(attempt) - 1)
      decreases maxRetries - attempt
    {
      var resp := server(attempt);
      if resp.TransportError? || resp.status != TooManyRequests {
        SkipRateLimits(server, maxRetries, initialWait, 0, attempt);
        if resp.TransportError? || resp.status != Ok {
          return None, attempt + 1, waited;
        }
        return Some(resp.body), attempt + 1, waited;
      }
      DoubleWait(initialWait, attempt);
      waited := waited + initialWait * Pow2(attempt);
      attempt := attempt + 1;
    }
    SkipRateLimits(server, maxRetries, initialWait, 0, attempt);
    return None, attempt, waited;
  }
}
