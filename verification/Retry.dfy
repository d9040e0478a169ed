/** Retrying webhooks: dispatcher/utils/retry.py and dispatcher/orchestrator/delivery.py. */
module Retry {

  const MAX_ATTEMPTS: nat := 3
  const BASE_DELAY_MS: nat := 2000
  const MAX_DELAY_MS: nat := 300000

  /** A JSON value; only numbers are looked into. */
  datatype Value = Number(n: int) | Text(s: string) | Other(id: nat)
  type Payload = map<string, Value>

  /** `payload.get("attempt", 0)` for payloads whose attempt, if any, is a number. */
  function Attempt(p: Payload): int {
    if "attempt" in p && p["attempt"].Number? then p["attempt"].n else 0
  }

  predicate ShouldRetry(attempt: int) {
    attempt + 1 < MAX_ATTEMPTS
  }

  /***** The delay before a retry *****/

  function Pow2(n: nat): nat {
    if n == 0 then 1 else 2 * Pow2(n - 1)
  }

  function RawDelay(attempt: nat): nat { BASE_DELAY_MS * Pow2(attempt) }

  function CappedDelay(attempt: nat): nat {
    if MAX_DELAY_MS < RawDelay(attempt) then MAX_DELAY_MS else RawDelay(attempt)
  }

  datatype Backoff = Delay(ms: int) | NegativeAttempt

  function Clamp(x: real): real {
    if x < 0.0 then 0.0 else if x > MAX_DELAY_MS as real then MAX_DELAY_MS as real else x
  }

  function Jittered(capped: real, u: real): real {
    capped + u * (capped * 0.2)
  }

  /** `u` is where in its range the random jitter falls, from -1 to 1. */
  function ComputeBackoff(attempt: int, u: real): Backoff {
    if attempt < 0 then NegativeAttempt
    else
      Delay(Clamp(Jittered(CappedDelay(attempt) as real, u)).Floor)
  }

  predicate Jitter(u: real) { -1.0 <= u <= 1.0 }

  lemma JitteredBetween(c: real, u: real)
    requires Jitter(u) && 0.0 <= c
    ensures c * 0.8 <= Jittered(c, u) <= c * 1.2
  {
    var r := c * 0.2;
    ProductIsPositive(1.0 - u, r);
    ProductIsPositive(1.0 + u, r);
    assert (1.0 - u) * r == r - u * r && (1.0 + u) * r == r + u * r;
  }

  lemma ProductIsPositive(x: real, y: real)
    requires 0.0 <= x && 0.0 <= y
    ensures 0.0 <= x * y
  {
  }

  lemma JitteredEnds(c: real)
    ensures Jittered(c, -1.0) == c * 0.8 && Jittered(c, 1.0) == c * 1.2
  {
  }

  /** Four fifths of the delay that doubles from 2000, and of the cap once that is lower. */
  function Least(attempt: nat): int { if attempt <= 7 then 1600 * Pow2(attempt) else 240000 }

  /** Six fifths of it, but never more than the cap. */
  function Greatest(attempt: nat): int { if attempt <= 6 then 2400 * Pow2(attempt) else 300000 }

  lemma CappedIs(attempt: nat)
    ensures CappedDelay(attempt) == if attempt <= 7 then 2000 * Pow2(attempt) else 300000
  {
    assert Pow2(7) == 128 && Pow2(8) == 256;
    if attempt <= 7 { PowIsMonotone(attempt, 7); } else { PowIsMonotone(8, attempt); }
  }

  lemma EndsOfRange(attempt: nat)
    ensures (CappedDelay(attempt) as real * 0.8).Floor == Least(attempt)
    ensures (if (CappedDelay(attempt) as real * 1.2).Floor > 300000 then 300000 else (CappedDelay(attempt) as real * 1.2).Floor) == Greatest(attempt)
  {
    CappedIs(attempt);
    assert Pow2(7) == 128 && Pow2(6) == 64;
    if attempt <= 6 { PowIsMonotone(attempt, 6); }
    var n := Pow2(attempt);
    assert (2000 * n) as real * 0.8 == (1600 * n) as real && (2000 * n) as real * 1.2 == (2400 * n) as real;
  }

  /** Whatever the jitter, the delay stays within a fifth of the capped one and under the
      cap; and both ends of that range are reached.  A negative attempt has none. */
  lemma BackoffRange(attempt: nat, u: real)
    requires Jitter(u)
    ensures ComputeBackoff(attempt, u).Delay?
    ensures Least(attempt) <= ComputeBackoff(attempt, u).ms <= Greatest(attempt) <= 300000
    ensures ComputeBackoff(attempt, -1.0).ms == Least(attempt)
    ensures ComputeBackoff(attempt, 1.0).ms == Greatest(attempt)
    ensures forall k: int, v: real | k < 0 :: ComputeBackoff(k, v) == NegativeAttempt
  {
    EndsOfRange(attempt);
    var c := CappedDelay(attempt) as real;
    JitteredBetween(c, u);
    JitteredEnds(c);
    hide Jittered;
    ClampKeepsOrder(c * 0.8, Jittered(c, u));
    ClampKeepsOrder(Jittered(c, u), c * 1.2);
    ClampOfScaled(CappedDelay(attempt));
  }

  lemma ClampOfScaled(c: nat)
    requires c <= MAX_DELAY_MS
    ensures Clamp(c as real * 0.8) == c as real * 0.8
    ensures Clamp(c as real * 1.2).Floor == if (c as real * 1.2).Floor > MAX_DELAY_MS then MAX_DELAY_MS else (c as real * 1.2).Floor
  {
  }

  lemma ClampKeepsOrder(x: real, y: real)
    requires x <= y
    ensures Clamp(x).Floor <= Clamp(y).Floor
  {
  }

  lemma {:induction false} PowIsPositive(n: nat)
    ensures 1 <= Pow2(n)
  {
    if n > 0 { PowIsPositive(n - 1); }
  }

  /** Each retry waits longer than the one before, whatever the two jitters, if and only if the
      next delay is not capped yet, which it is from 2000 * 256 on. */
  lemma BackoffGrows(attempt: nat)
    ensures (forall u, v :: Jitter(u) && Jitter(v) ==> ComputeBackoff(attempt, u).ms < ComputeBackoff(attempt + 1, v).ms)
            <==> attempt <= 6
  {
    if attempt <= 6 {
      PowIsPositive(attempt);
      assert Pow2(attempt + 1) == 2 * Pow2(attempt);
      forall u, v | Jitter(u) && Jitter(v) ensures ComputeBackoff(attempt, u).ms < ComputeBackoff(attempt + 1, v).ms {
        BackoffRange(attempt, u);
        BackoffRange(attempt + 1, v);
      }
    } else {
      BackoffRange(attempt, 1.0);
      BackoffRange(attempt + 1, -1.0);
      assert Pow2(7) == 128;
      assert Jitter(1.0) && Jitter(-1.0);
    }
  }

  lemma {:induction false} PowIsMonotone(m: nat, n: nat)
    requires m <= n
    ensures Pow2(m) <= Pow2(n)
  {
    if m < n { PowIsMonotone(m, n - 1); }
  }

  /***** Messages *****/

  function BuildRetryMessage(original: Payload, attempt: int): Payload {
    original["attempt" := Number(attempt + 1)]
  }

  function BuildDeadLetter(original: Payload, error: string, now: int): Payload {
    original["final_error" := Text(error)]["failed_at" := Number(now)]["attempts_made" := Number(Attempt(original) + 1)]
  }

  /** What the payload has become after `n` retries. */
  function Retried(p: Payload, n: nat): Payload {
    if n == 0 then p else BuildRetryMessage(Retried(p, n - 1), Attempt(Retried(p, n - 1)))
  }

  /** Along a chain of retries nothing changes but the attempt, which counts them; so the
      dead letter at its end says how many attempts were made. */
  lemma {:induction false} RetriesKeepThePayload(p: Payload, n: nat, error: string, now: int)
    ensures Attempt(Retried(p, n)) == Attempt(p) + n
    ensures forall k :: k != "attempt" ==> (k in Retried(p, n) <==> k in p) && (k in p ==> Retried(p, n)[k] == p[k])
    ensures var m := BuildDeadLetter(Retried(p, n), error, now);
            m["attempts_made"] == Number(Attempt(p) + n + 1) && m["final_error"] == Text(error) && m["failed_at"] == Number(now)
    ensures forall k :: k in p && k !in ["attempt", "final_error", "failed_at", "attempts_made"] ==>
              k in BuildDeadLetter(Retried(p, n), error, now) && BuildDeadLetter(Retried(p, n), error, now)[k] == p[k]
  {
    if n > 0 { RetriesKeepThePayload(p, n - 1, error, now); }
  }

  /***** delivery.py *****/

  /** Timeout: ConnectError, ConnectTimeout or ReadTimeout; Broken: any other httpx error. */
  datatype Reply = Status(code: int) | Timeout | Broken

  datatype Attempted = Delivered | Retryable | Permanent | Unhandled

  function AttemptDelivery(r: Reply): Attempted {
    match r
    case Timeout => Retryable
    case Broken => Unhandled
    case Status(code) =>
      if 300 <= code < 429 then Permanent
      else if code == 429 || code >= 500 then Retryable
      else if 200 <= code < 300 then Delivered
      else Unhandled  // raise_for_status
  }
}
