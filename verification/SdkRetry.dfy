/** The SDK's request loop: which of the server's replies decides the call, and how
    long the backoff can take. */
module SdkRetry {
  import opened Prelude

  datatype Reply = Response(status: int, body: string) | NetworkFailure(message: string)

  datatype RequestError =
    | AuthError(status: int, body: string) | ValidationError(body: string)
    | ApiError(status: int, body: string) | TransportError(message: string) | RetriesExhausted

  datatype Result = Success(body: string) | Failure(error: RequestError)

  predicate IsSuccess(r: Reply) {
    r.Response? && 200 <= r.status < 300
  }

  /** A reply that ends the loop at once: a success, or an error no retry can mend. */
  predicate IsDecisive(r: Reply) {
    IsSuccess(r) || (r.Response? && r.status in {400, 401, 403})
  }

  function Answer(r: Reply): Result {
    match r
    case NetworkFailure(message) => Failure(TransportError(message))
    case Response(status, body) =>
      if 200 <= status < 300 then Success(body)
      else if status == 401 || status == 403 then Failure(AuthError(status, body))
      else if status == 400 then Failure(ValidationError(body))
      else Failure(ApiError(status, body))
  }

  function Pow2(n: nat): nat {
    if n == 0 then 1 else 2 * Pow2(n - 1)
  }

  /** The pause before retry `n` = 1, 2, ...; `jitter` is the random part. */
  function Backoff(n: nat, jitter: real): real
    requires n > 0
  {
    var pause := 200.0 * Pow2(n - 1) as real + jitter;
    if pause < 3000.0 then pause else 3000.0
  }

  function TotalBackoff(jitters: seq<real>, n: nat): real
    requires n <= |jitters|
  {
    if n == 0 then 0.0 else TotalBackoff(jitters, n - 1) + Backoff(n, jitters[n - 1])
  }

  class HttpClient {
    const maxRetries: int

    constructor (maxRetries: Option<int>)
      ensures this.maxRetries == match maxRetries case None => 2 case Some(n) => n
    {
      this.maxRetries := match maxRetries case None => 2 case Some(n) => n;
    }

    /** The first decisive reply among the first maxRetries + 1 decides; with none, the last
        of them does. No further request is sent, and the pauses are the backoffs
        before the retries. Every other status is retried, 404 and 429 included,
        and not only 5xx. A negative maximum sends nothing. */
    method Request(replies: seq<Reply>, jitters: seq<real>) returns (result: Result, sent: nat, slept: real)
      requires |replies| > maxRetries && |jitters| >= maxRetries
      ensures maxRetries < 0 ==> result == Failure(RetriesExhausted) && sent == 0
      ensures maxRetries >= 0 ==>
        && 1 <= sent <= maxRetries + 1
        && result == Answer(replies[sent - 1])
        && (forall i :: 0 <= i < sent - 1 ==> !IsDecisive(replies[i]))
        && (IsDecisive(replies[sent - 1]) || sent == maxRetries + 1)
      ensures slept == if sent == 0 then 0.0 else TotalBackoff(jitters, sent - 1)
    {
      var lastError := RetriesExhausted;
      var attempt := 0;
      sent, slept := 0, 0.0;
      while attempt <= maxRetries
        invariant sent == attempt && (attempt == 0 || attempt <= maxRetries)
        invariant attempt == 0 ==> lastError == RetriesExhausted
        invariant forall i :: 0 <= i < attempt ==> !IsDecisive(replies[i])
        invariant slept == if attempt == 0 then 0.0 else TotalBackoff(jitters, attempt - 1)
        decreases maxRetries - attempt
      {
        if attempt > 0 {
          slept := slept + Backoff(attempt, jitters[attempt - 1]);
        }
        var reply := replies[attempt];
        sent := sent + 1;
        var thrown := TransportError("");
        if reply.NetworkFailure? {
          thrown := TransportError(reply.message);
        } else if reply.status >= 200 && reply.status < 300 {
          return Success(reply.body), sent, slept;
        } else if reply.status == 401 || reply.status == 403 {
          thrown := AuthError(reply.status, reply.body);
        } else if reply.status == 400 {
          thrown := ValidationError(reply.body);
        } else if reply.status >= 500 && attempt < maxRetries {
          lastError := ApiError(reply.status, reply.body);
          attempt := attempt + 1;
          continue;
        } else {
          thrown := ApiError(reply.status, reply.body);
        }
        lastError := thrown;
        if thrown.AuthError? || thrown.ValidationError? {
          return Failure(thrown), sent, slept;
        }
        if attempt >= maxRetries {
          return Failure(thrown), sent, slept;
        }
        attempt := attempt + 1;
      }
      return Failure(lastError), sent, slept;
    }
  }

  /** Over n retries the pauses add up to at most the smaller of the cap's sum and of
      the doubling pauses with full jitter, and never to less than nothing. */
  lemma {:induction false} TotalBackoffBounded(jitters: seq<real>, n: nat)
    requires n <= |jitters| && forall i :: 0 <= i < n ==> 0.0 <= jitters[i] <= 50.0
    ensures 0.0 <= TotalBackoff(jitters, n) <= 3000.0 * n as real
    ensures TotalBackoff(jitters, n) <= 200.0 * (Pow2(n) - 1) as real + 50.0 * n as real
  {
    if n > 0 {
      TotalBackoffBounded(jitters, n - 1);
      assert Pow2(n) == 2 * Pow2(n - 1);
    }
  }

  /** Which replies end a call: 2xx with success, 401 and 403 with an authentication error and
      400 with a validation error. All others are errors that are retried. */
  lemma DecisiveIff(r: Reply)
    ensures IsDecisive(r) <==> r.Response? && (200 <= r.status <= 299 || r.status in {400, 401, 403})
    ensures IsDecisive(r) <==>
      Answer(r).Success? || Answer(r).error.AuthError? || Answer(r).error.ValidationError?
    ensures r.Response? && 200 <= r.status <= 299 ==> Answer(r) == Success(r.body)
    ensures r.Response? && r.status in {401, 403} ==> Answer(r) == Failure(AuthError(r.status, r.body))
    ensures r.Response? && r.status == 400 ==> Answer(r) == Failure(ValidationError(r.body))
    ensures r.Response? && !IsDecisive(r) ==> Answer(r) == Failure(ApiError(r.status, r.body))
    ensures r.NetworkFailure? ==> Answer(r) == Failure(TransportError(r.message))
  {
  }

  /** The pauses from both sides: 200, 400, 800 and 1600 ms before the first four retries and
      3000 ms before each later one, with up to 50 ms of jitter below the cap. */
  lemma {:induction false} PausesBetween(jitters: seq<real>, n: nat)
    requires n <= |jitters| && forall i :: 0 <= i < n ==> 0.0 <= jitters[i] <= 50.0
    ensures n == 1 ==> 200.0 <= TotalBackoff(jitters, n) <= 250.0
    ensures n == 2 ==> 600.0 <= TotalBackoff(jitters, n) <= 700.0
    ensures n == 3 ==> 1400.0 <= TotalBackoff(jitters, n) <= 1550.0
    ensures n >= 4 ==>
      3000.0 + 3000.0 * (n - 4) as real <= TotalBackoff(jitters, n) <= 3200.0 + 3000.0 * (n - 4) as real
  {
    if n > 0 {
      PausesBetween(jitters, n - 1);
      SmallPowers();
      if n > 4 { PowersGrow(n - 1); }
    }
  }

  lemma SmallPowers()
    ensures Pow2(0) == 1 && Pow2(1) == 2 && Pow2(2) == 4 && Pow2(3) == 8 && Pow2(4) == 16
  {
  }

  lemma {:induction false} PowersGrow(n: nat)
    requires n >= 4
    ensures Pow2(n) >= 16
  {
    if n > 4 { PowersGrow(n - 1); } else { SmallPowers(); }
  }

  /** The jitter of a pause shows in full until the cap. */
  lemma JitterShows(n: nat, jitter: real)
    requires 1 <= n <= 4 && 0.0 <= jitter <= 50.0
    ensures Backoff(n, jitter) == Backoff(n, 0.0) + jitter
  {
    SmallPowers();
  }
}
