/**
 * `sendN8NWebhook` (n8n-webhook.ts:32-88): up to three POSTs of the payment notification,
 * stopping at the first ok response, with a pause between attempts. What each attempt
 * meets is a parameter `post`, indexed by the attempt number; the pauses are recorded in
 * the returned trace instead of being waited out.
 */
module N8nWebhook {

  const MAX_RETRIES: nat := 3
  /** Each attempt is aborted after this many milliseconds (n8n-webhook.ts:34, 42). */
  const TIMEOUT_MS: nat := 10000
  const RETRY_DELAYS: seq<nat> := [1000, 3000, 9000]

  /** What one POST met: a response with its status, a thrown error, or the abort after `TIMEOUT_MS`. */
  datatype PostOutcome = Response(status: nat) | Threw | TimedOut

  /** A step the sender takes: a POST (numbered from 0) or a pause of `ms` milliseconds. */
  datatype WebhookAction = Post(attempt: nat) | Sleep(ms: nat)

  /** `response.ok`: the only outcome that ends the retries. */
  predicate IsDelivered(outcome: PostOutcome) {
    outcome.Response? && 200 <= outcome.status <= 299
  }

  /** The number of the first attempt that is delivered, or 3 when none of the three is. */
  function FirstDelivered(post: nat -> PostOutcome): (f: nat)
    ensures f <= MAX_RETRIES
    ensures forall i :: 0 <= i < f ==> !IsDelivered(post(i))
    ensures f < MAX_RETRIES ==> IsDelivered(post(f))
  {
    if IsDelivered(post(0)) then 0
    else if IsDelivered(post(1)) then 1
    else if IsDelivered(post(2)) then 2
    else 3
  }

  /** Every step the sender can take, in order; a run is a prefix of it. */
  const SCHEDULE: seq<WebhookAction> := [Post(0), Sleep(1000), Post(1), Sleep(3000), Post(2)]

  /**
   * `sendN8NWebhook`: `sent` is true exactly when one of the three attempts is delivered.
   * The attempts made are 0 up to the first delivered one (all three when none is), and
   * there is a pause between consecutive attempts and none after the last.
   */
  method SendN8nWebhook(post: nat -> PostOutcome) returns (sent: bool, trace: seq<WebhookAction>)
    ensures sent <==> FirstDelivered(post) < MAX_RETRIES
    ensures var f := FirstDelivered(post);
      trace == SCHEDULE[..2 * (if f < MAX_RETRIES then f else MAX_RETRIES - 1) + 1]
  {
    trace := [];
    for attempt := 0 to MAX_RETRIES
      invariant forall i :: 0 <= i < attempt ==> !IsDelivered(post(i))
      invariant trace == SCHEDULE[..if attempt < MAX_RETRIES then 2 * attempt else 5]
    {
      trace := trace + [Post(attempt)];
      if IsDelivered(post(attempt)) {
        return true, trace;
      }
      if attempt < MAX_RETRIES - 1 {
        var delay := RETRY_DELAYS[attempt];
        trace := trace + [Sleep(delay)];
      }
    }
    sent := false;
  }

  /** At most three POSTs, the longest pause is 3000 ms, and the 9000 ms delay is never taken. */
  lemma ScheduleBounds(n: nat)
    requires n <= |SCHEDULE|
    ensures forall k :: 0 <= k < n && SCHEDULE[..n][k].Post? ==> SCHEDULE[..n][k].attempt < MAX_RETRIES
    ensures forall k :: 0 <= k < n && SCHEDULE[..n][k].Sleep? ==> SCHEDULE[..n][k].ms <= 3000
    ensures Sleep(RETRY_DELAYS[2]) !in SCHEDULE[..n]
    ensures n % 2 == 1 ==> SCHEDULE[..n][n - 1].Post?
  {
  }
}
