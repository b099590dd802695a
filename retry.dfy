/**
 * `make_api_request`: up to NETWORK_RETRY_COUNT attempts at a private API
 * request, sleeping 2**attempt seconds after every failed attempt but the
 * last.  The request is an oracle telling, per attempt, whether the call
 * returned or raised; the sleeps are recorded instead of taken.
 */
module Retry {
  import opened PyValues

  const NetworkRetryCount: nat := 5

  function Pow2(n: nat): (r: nat)
    ensures r >= 1
  {
    if n == 0 then 1 else 2 * Pow2(n - 1)
  }

  /** The waits after the first n failures: 1, 2, 4, ... */
  function Backoff(n: nat): (r: seq<nat>)
    ensures |r| == n
    ensures forall k :: 0 <= k < n ==> r[k] == Pow2(k)
  {
    if n == 0 then [] else Backoff(n - 1) + [Pow2(n - 1)]
  }

  function Sum(s: seq<nat>): nat {
    if s == [] then 0 else Sum(s[..|s| - 1]) + s[|s| - 1]
  }

  /** After n failures the bot has slept 2**n - 1 seconds in all. */
  lemma {:induction false} BackoffTotal(n: nat)
    ensures Sum(Backoff(n)) == Pow2(n) - 1
  {
    if n > 0 {
      BackoffTotal(n - 1);
      assert Backoff(n)[..n - 1] == Backoff(n - 1);
    }
  }

  lemma {:induction false} Pow2Monotone(m: nat, n: nat)
    requires m <= n
    ensures Pow2(m) <= Pow2(n)
  {
    if m < n {
      Pow2Monotone(m, n - 1);
    }
  }

  /** The longest a request can spend waiting: 1 + 2 + 4 + 8 = 15 seconds,
      after four failures, the fifth failing without a wait.  A request
      sleeps `Backoff(calls - 1)` with fewer than NETWORK_RETRY_COUNT waits,
      so no request waits longer. */
  lemma WorstCaseWait()
    ensures Sum(Backoff(NetworkRetryCount - 1)) == 15
    ensures forall n :: 0 <= n < NetworkRetryCount ==> Sum(Backoff(n)) <= 15
  {
    BackoffTotal(NetworkRetryCount - 1);
    forall n | 0 <= n < NetworkRetryCount
      ensures Sum(Backoff(n)) <= 15
    {
      BackoffTotal(n);
      Pow2Monotone(n, NetworkRetryCount - 1);
    }
  }

  /** The attempts to make: the response of the first that returns, or None
      after NETWORK_RETRY_COUNT failures.  `calls` counts the requests sent
      and `waits` lists the sleeps in order. */
  method MakeApiRequest(request: nat -> Outcome<Value>) returns (response: Option<Value>, calls: nat, waits: seq<nat>)
    ensures 1 <= calls <= NetworkRetryCount
    ensures forall a :: 0 <= a < calls - 1 ==> request(a).Raised?
    ensures response.Some? <==> request(calls - 1).Ok?
    ensures response.Some? ==> response.value == request(calls - 1).value
    ensures response.None? ==> calls == NetworkRetryCount
    ensures waits == Backoff(calls - 1)
  {
    var attempt := 0;
    waits := [];
    while attempt < NetworkRetryCount
      invariant 0 <= attempt <= NetworkRetryCount - 1
      invariant forall a :: 0 <= a < attempt ==> request(a).Raised?
      invariant waits == Backoff(attempt)
      decreases NetworkRetryCount - attempt
    {
      match request(attempt)
      case Ok(r) =>
        return Some(r), attempt + 1, waits;
      case Raised =>
        if attempt < NetworkRetryCount - 1 {
          waits := waits + [Pow2(attempt)];
        } else {
          return None, attempt + 1, waits;
        }
      attempt := attempt + 1;
    }
  }
}
