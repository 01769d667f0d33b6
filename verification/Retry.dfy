/** The retry loop with exponential backoff (packages/esign-node/src/http.ts). */
module Retry {
  import opened Common

  datatype CallError = HttpError(status: int) | NetworkError

  datatype Attempt<T> = Success(value: T) | Failure(error: CallError)

  // What the caller of withRetry sees. With no attempt allowed it throws the
  // initial null, here None.
  datatype Ended<T> = Returned(value: T) | Threw(error: Option<CallError>)

  // Network errors, 5xx and 429.
  predicate ShouldRetry(error: CallError) {
    error.HttpError? ==> error.status >= 500 || error.status == 429
  }

  predicate Stops<T>(attempt: Attempt<T>) {
    attempt.Success? || !ShouldRetry(attempt.error)
  }

  function EndOf<T>(attempt: Attempt<T>): Ended<T> {
    match attempt
    case Success(value) => Returned(value)
    case Failure(error) => Threw(Some(error))
  }

  function Pow2(n: nat): nat {
    if n == 0 then 1 else 2 * Pow2(n - 1)
  }

  // The first attempt that ends the loop by itself.
  ghost predicate FirstStop<T(!new)>(fn: nat -> Attempt<T>, k: nat) {
    Stops(fn(k)) && forall i: nat :: i < k ==> !Stops(fn(i))
  }

  // fn(k) is how attempt k ends; `slept` adds up the delays.
  method WithRetry<T(!new)>(fn: nat -> Attempt<T>, maxAttempts: nat, baseDelay: nat)
    returns (ended: Ended<T>, attempts: nat, slept: nat)
    ensures forall k: nat :: FirstStop(fn, k) ==> attempts == if k < maxAttempts then k + 1 else maxAttempts
    ensures (forall k: nat :: k < maxAttempts ==> !Stops(fn(k))) ==> attempts == maxAttempts
    ensures ended == if attempts == 0 then Threw(None) else EndOf(fn(attempts - 1))
    ensures forall i: nat :: i < attempts - 1 ==>
              fn(i).Failure? && (fn(i).error == NetworkError || fn(i).error.status == 429 || fn(i).error.status >= 500)
    ensures 0 < attempts < maxAttempts && fn(attempts - 1).Failure? ==>
              fn(attempts - 1).error.HttpError? && fn(attempts - 1).error.status < 500 && fn(attempts - 1).error.status != 429
    ensures attempts > 0 ==> slept == baseDelay * (Pow2(attempts - 1) - 1)
    ensures attempts == 0 ==> maxAttempts == 0 && slept == 0
  {
    var lastError := None;
    slept := 0;
    attempts := 0;
    while attempts < maxAttempts
      invariant 0 <= attempts <= maxAttempts
      invariant forall i: nat :: i < attempts ==> !Stops(fn(i))
      invariant attempts == 0 ==> lastError == None && slept == 0
      invariant attempts > 0 ==> EndOf(fn(attempts - 1)) == Threw(lastError)
      invariant slept == baseDelay * (Pow2(if attempts < maxAttempts then attempts else if attempts == 0 then 0 else attempts - 1) - 1)
    {
      var attempt := fn(attempts);
      attempts := attempts + 1;
      match attempt
      case Success(value) => return Returned(value), attempts, slept;
      case Failure(error) =>
        lastError := Some(error);
        if !ShouldRetry(error) {
          return Threw(lastError), attempts, slept;
        }
        if attempts < maxAttempts {
          DelaysAddUp(baseDelay, attempts - 1);
          slept := slept + baseDelay * Pow2(attempts - 1);
        }
    }
    ended := Threw(lastError);
  }

  lemma DelaysAddUp(baseDelay: nat, n: nat)
    ensures baseDelay * (Pow2(n) - 1) + baseDelay * Pow2(n) == baseDelay * (Pow2(n + 1) - 1)
  {
    calc {
      baseDelay * (Pow2(n) - 1) + baseDelay * Pow2(n);
      baseDelay * (Pow2(n) - 1 + Pow2(n));
      baseDelay * (Pow2(n + 1) - 1);
    }
  }
}
