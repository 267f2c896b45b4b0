/** The bounded retry loop of the embedding providers: text batches, visual batches and queries run
    the same machine over different parsed responses. */
module ProviderRetry {
  import opened Text

  datatype ErrorCode = AuthError | RateLimited | Timeout | InvalidResponse | NetworkError | ProviderError

  datatype MappedError = MappedError(code: ErrorCode, retryable: bool)

  /** What one send does: the transport throws, or a response arrives whose body parses to a value or
      fails with a message. */
  datatype Reply<+T> =
    | Thrown(message: string)
    | Response(status: int, latency: nat, parsed: Result<T, string>)

  datatype Attempt = Attempt(number: nat, status: Option<int>, latency: nat, errorCode: Option<ErrorCode>, retryable: bool)

  datatype EmbedResult<+T> = Succeeded(value: T) | Failed(error: MappedError, attempts: nat)

  predicate Accepted(status: int) { 200 <= status < 300 }

  function MapProviderStatus(status: int): Option<MappedError> {
    if Accepted(status) then None
    else Some(
      if status == 401 || status == 403 then MappedError(AuthError, false)
      else if status == 429 then MappedError(RateLimited, true)
      else if status == 408 || status == 504 then MappedError(Timeout, true)
      else MappedError(ProviderError, status >= 500))
  }

  /** `timedOut` says that a message mentions a timeout or an abort. */
  function MapTransportError(timedOut: string -> bool, message: string, parseError: bool): MappedError {
    if timedOut(message) then MappedError(Timeout, true)
    else if parseError then MappedError(InvalidResponse, false)
    else MappedError(NetworkError, true)
  }

  function ErrorOf<T>(timedOut: string -> bool, reply: Reply<T>): Option<MappedError> {
    match reply
    case Thrown(message) => Some(MapTransportError(timedOut, message, false))
    case Response(status, _, parsed) =>
      if !Accepted(status) then MapProviderStatus(status)
      else match parsed
           case Success(_) => None
           case Failure(message) => Some(MapTransportError(timedOut, message, true))
  }

  predicate ParsedWell<T>(reply: Reply<T>) { reply.Response? && Accepted(reply.status) && reply.parsed.Success? }

  predicate ParseFailed<T>(reply: Reply<T>) { reply.Response? && Accepted(reply.status) && reply.parsed.Failure? }

  /** Only these are tried again: retryable errors of the transport or of the status. */
  predicate Transient<T>(timedOut: string -> bool, reply: Reply<T>) {
    !ParseFailed(reply) && ErrorOf(timedOut, reply).Some? && ErrorOf(timedOut, reply).value.retryable
  }

  function TraceOf<T>(timedOut: string -> bool, number: nat, reply: Reply<T>): Attempt {
    var error := ErrorOf(timedOut, reply);
    Attempt(number,
            if reply.Response? then Some(reply.status) else None,
            if reply.Response? then reply.latency else 0,
            if error.Some? then Some(error.value.code) else None,
            error.Some? && error.value.retryable)
  }

  function Trace<T>(timedOut: string -> bool, send: nat -> Reply<T>, n: nat): (attempts: seq<Attempt>)
    ensures |attempts| == n && forall i :: 0 <= i < n ==> attempts[i] == TraceOf(timedOut, i + 1, send(i + 1))
  {
    if n == 0 then [] else Trace(timedOut, send, n - 1) + [TraceOf(timedOut, n, send(n))]
  }

  /** Send n is where the loop stops: all earlier replies were transient, and this one is not, or it
      used the last attempt. */
  ghost predicate StopsAt<T>(timedOut: string -> bool, send: nat -> Reply<T>, maxAttempts: nat, n: nat) {
    && 1 <= n <= maxAttempts
    && (forall k :: 1 <= k < n ==> Transient(timedOut, send(k)))
    && (n == maxAttempts || !Transient(timedOut, send(n)))
  }

  function ResultOf<T>(timedOut: string -> bool, reply: Reply<T>, attempts: nat): EmbedResult<T> {
    var error := ErrorOf(timedOut, reply);
    if error.Some? then Failed(error.value, attempts) else Succeeded(reply.parsed.value)
  }

  /** `send(k)` is the reply to the k-th send. */
  method Embed<T>(timedOut: string -> bool, hasKey: bool, maxRetries: nat, send: nat -> Reply<T>)
    returns (result: EmbedResult<T>, attempts: seq<Attempt>, sends: nat)
    ensures !hasKey ==> sends == 0 && attempts == [] && result == Failed(MappedError(AuthError, false), 0)
    ensures hasKey ==> StopsAt(timedOut, send, maxRetries + 1, sends)
    ensures hasKey ==> attempts == Trace(timedOut, send, sends)
    ensures hasKey ==> result == ResultOf(timedOut, send(sends), sends)
  {
    attempts, sends := [], 0;
    if !hasKey {
      return Failed(MappedError(AuthError, false), 0), attempts, sends;
    }
    var maxAttempts := maxRetries + 1;
    var finalError: Option<MappedError> := None;
    var attempt := 1;
    while attempt <= maxAttempts
      invariant 1 <= attempt <= maxAttempts && sends == attempt - 1
      invariant attempts == Trace(timedOut, send, sends)
      invariant forall k :: 1 <= k < attempt ==> Transient(timedOut, send(k))
    {
      var reply := send(attempt);
      sends := sends + 1;
      match reply {
        case Response(status, latency, parsed) =>
          var mapped := MapProviderStatus(status);
          if mapped.None? {
            match parsed {
              case Failure(message) =>
                var error := MapTransportError(timedOut, message, true);
                attempts := attempts + [Attempt(attempt, Some(status), latency, Some(error.code), error.retryable)];
                finalError := Some(error);
                break;
              case Success(value) =>
                attempts := attempts + [Attempt(attempt, Some(status), latency, None, false)];
                return Succeeded(value), attempts, sends;
            }
          }
          attempts := attempts + [Attempt(attempt, Some(status), latency, Some(mapped.value.code), mapped.value.retryable)];
          finalError := mapped;
          if !(mapped.value.retryable && attempt < maxAttempts) {
            break;
          }
        case Thrown(message) =>
          var mapped := MapTransportError(timedOut, message, false);
          attempts := attempts + [Attempt(attempt, None, 0, Some(mapped.code), mapped.retryable)];
          finalError := Some(mapped);
          if !(mapped.retryable && attempt < maxAttempts) {
            break;
          }
      }
      attempt := attempt + 1;
    }
    result := Failed(if finalError.Some? then finalError.value else MappedError(ProviderError, false), |attempts|);
  }

  // ---- First decisive outcome ----

  /** The loop stops at exactly one send. */
  lemma StopIsUnique<T>(timedOut: string -> bool, send: nat -> Reply<T>, maxAttempts: nat, m: nat, n: nat)
    requires StopsAt(timedOut, send, maxAttempts, m) && StopsAt(timedOut, send, maxAttempts, n)
    ensures m == n
  {
    hide Transient;
    assert m < n ==> Transient(timedOut, send(m));
    assert n < m ==> Transient(timedOut, send(n));
  }

  /** Success exactly when the first reply that is not transient comes in time and parses. */
  lemma SuccessIffFirstDecisiveParses<T>(timedOut: string -> bool, send: nat -> Reply<T>, maxAttempts: nat, n: nat)
    requires StopsAt(timedOut, send, maxAttempts, n)
    ensures ResultOf(timedOut, send(n), n).Succeeded? <==>
      exists k :: 1 <= k <= maxAttempts && ParsedWell(send(k)) && forall j :: 1 <= j < k ==> Transient(timedOut, send(j))
  {
    assert ResultOf(timedOut, send(n), n).Succeeded? ==> ParsedWell(send(n));
    if exists k :: 1 <= k <= maxAttempts && ParsedWell(send(k)) && forall j :: 1 <= j < k ==> Transient(timedOut, send(j)) {
      var k :| 1 <= k <= maxAttempts && ParsedWell(send(k)) && forall j :: 1 <= j < k ==> Transient(timedOut, send(j));
      assert !Transient(timedOut, send(k));
      StopIsUnique(timedOut, send, maxAttempts, k, n);
    }
  }

  /** A response that was accepted but cannot be parsed is never followed by another send. */
  lemma ParseFailureEndsRun<T>(timedOut: string -> bool, send: nat -> Reply<T>, maxAttempts: nat, n: nat, k: nat)
    requires StopsAt(timedOut, send, maxAttempts, n) && 1 <= k <= n && ParseFailed(send(k))
    ensures k == n && ResultOf(timedOut, send(n), n).Failed?
  {
  }

  /** Every attempt before the last is recorded as retryable. A last attempt recorded as retryable
      with attempts left happens exactly when its response could not be parsed and the parser's
      message mentions a timeout: it is mapped like a transport timeout, but not retried. */
  lemma RetryableYetLast<T>(timedOut: string -> bool, send: nat -> Reply<T>, maxAttempts: nat, n: nat)
    requires StopsAt(timedOut, send, maxAttempts, n)
    ensures forall i :: 0 <= i < n - 1 ==> Trace(timedOut, send, n)[i].retryable && Trace(timedOut, send, n)[i].errorCode.Some?
    ensures Trace(timedOut, send, n)[n - 1].retryable && n < maxAttempts
        <==> n < maxAttempts && ParseFailed(send(n)) && timedOut(send(n).parsed.error)
  {
    forall i | 0 <= i < n - 1 ensures Trace(timedOut, send, n)[i].retryable && Trace(timedOut, send, n)[i].errorCode.Some? {
      assert Transient(timedOut, send(i + 1));
    }
  }
}
