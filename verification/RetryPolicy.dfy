/** retry_policy.c: delays, templates and thresholds. */
module RetryPolicy {
  import opened Words

  const SHORT_GENERIC_DELAY := 3
  const DEFAULT_DELAY := 60
  const RECONNECT_THRESHOLD := 6
  const JLU_EXTRA_INTERVAL := 10

  const WRONG_PASS: byte := 0x03
  const UPDATE_CLIENT: byte := 0x15

  datatype ExtraKind = NoExtra | FirstExtra | PeriodicExtra

  function NormalizeDelay(seconds: int): int {
    if seconds > 0 then seconds else DEFAULT_DELAY
  }

  function DelayForReply(code: byte, length: nat, retryAfter: int): int {
    if code == WRONG_PASS && length <= 5 then SHORT_GENERIC_DELAY
    else if code == UPDATE_CLIENT && retryAfter > 0 then retryAfter
    else DEFAULT_DELAY
  }

  function NextFailureCount(failures: int, succeeded: bool): int {
    if succeeded then 0 else (if failures < 0 then 0 else failures) + 1
  }

  predicate ShouldReconnect(failures: int) {
    failures >= RECONNECT_THRESHOLD
  }

  /** The template of a login attempt; true stands for the JLU one. */
  predicate JluTemplate(jluMode: bool, failedAttempts: int) {
    jluMode || (failedAttempts > 2 && failedAttempts % 2 != 0)
  }

  function ExtraPacketKind(completedRounds: int): ExtraKind {
    if completedRounds <= 0 then FirstExtra
    else if completedRounds % JLU_EXTRA_INTERVAL == 0 then PeriodicExtra
    else NoExtra
  }

  /** The extra packet that the keepalive loop asks for in each of the two modes. */
  function ExtraOfRound(jluMode: bool, rounds: nat): ExtraKind {
    if jluMode then ExtraPacketKind(rounds) else if rounds == 0 then FirstExtra else NoExtra
  }

  /** Generic mode starts with the standard template three times and then strictly alternates,
      beginning with the JLU one; JLU mode never leaves its template. */
  lemma TemplateOrder(n: nat)
    ensures JluTemplate(true, n)
    ensures n < 3 ==> !JluTemplate(false, n)
    ensures JluTemplate(false, 3)
    ensures n >= 3 ==> JluTemplate(false, n + 1) == !JluTemplate(false, n)
  {
  }

  /** The keepalive counter after k rounds without a failure: two exchanges in each round and one
      more where an extra packet is due. */
  function CounterAfter(jluMode: bool, k: nat): nat {
    if k == 0 then 0
    else CounterAfter(jluMode, k - 1) + (if ExtraOfRound(jluMode, k - 1).NoExtra? then 2 else 3)
  }

  lemma {:induction false} CounterClosedForm(k: nat)
    ensures CounterAfter(true, k) == 2 * k + (k + 9) / 10
    ensures k >= 1 ==> CounterAfter(false, k) == 2 * k + 1
  {
    if k > 0 {
      CounterClosedForm(k - 1);
      if (k - 1) % 10 == 0 {
        assert (k + 9) / 10 == (k + 8) / 10 + 1;
      } else {
        assert (k + 9) / 10 == (k + 8) / 10;
      }
    }
  }
}
