/**
  The bounded retry loop of `send_alert`, shared by both notifier revisions:
  at most MAX_RETRY delivery sessions; each session's failure is classified by
  the revision's `except` chain as terminal (raise at once) or retryable
  (sleep for the enforced delay, count the retry); after MAX_RETRY retryable
  failures the process exits with status 1.

  `Run` states the loop as a function of the classified outcomes of the
  sessions; each notifier's imperative `SendAlert` is proved equal to it, and
  the lemmas below characterise it completely.
  */
module Retry {

  const MAX_RETRY: nat := 6

  /** How an `except` chain treats one session. */
  datatype Verdict<E> = Sent | Abort(error: E) | Retry

  /** How one `send_alert` call ends. */
  datatype Outcome<E> =
    | Delivered
    | Raised(error: E)     // a terminal failure, re-raised as the revision's own error
    | InvalidRecipient     // ValueError from create_email, before any session
    | SleepRejected        // ValueError from time.sleep, given a negative delay
    | Exit(status: int)    // sys.exit after MAX_RETRY retryable failures

  /** What a call did: its outcome, the number of delivery sessions it opened,
      and the delays it slept, in order. */
  datatype Transcript<E> = Transcript(outcome: Outcome<E>, attempts: nat, sleeps: seq<int>)

  /**
    The loop from `retryCount` on, with `sleeps` already slept. The session
    numbered `retryCount` is judged by `verdicts(retryCount)`; `wait` is the
    enforced delay.
    */
  function Run<E>(verdicts: nat -> Verdict<E>, wait: int, retryCount: nat, sleeps: seq<int>): (t: Transcript<E>)
    requires retryCount <= MAX_RETRY
    ensures retryCount <= t.attempts <= MAX_RETRY
    ensures |sleeps| <= |t.sleeps| && t.sleeps[..|sleeps|] == sleeps
    ensures |t.sleeps| - |sleeps| <= t.attempts - retryCount
    ensures retryCount < MAX_RETRY ==> retryCount < t.attempts
    ensures !t.outcome.InvalidRecipient?
    decreases MAX_RETRY - retryCount
  {
    if retryCount == MAX_RETRY then
      Transcript(Exit(1), retryCount, sleeps)
    else
      match verdicts(retryCount)
      case Sent => Transcript(Delivered, retryCount + 1, sleeps)
      case Abort(e) => Transcript(Raised(e), retryCount + 1, sleeps)
      case Retry =>
        if wait < 0 then Transcript(SleepRejected, retryCount + 1, sleeps)
        else
          var t := Run(verdicts, wait, retryCount + 1, sleeps + [wait]);
          assert (sleeps + [wait])[..|sleeps|] == sleeps;
          assert t.sleeps[..|sleeps|] == t.sleeps[..|sleeps| + 1][..|sleeps|];
          t
  }

  /** The whole call: the message is built first (it may fail on the
      recipient), then the loop runs from zero. */
  function Delivery<E>(recipientValid: bool, verdicts: nat -> Verdict<E>, wait: int): (d: Transcript<E>)
    ensures d.outcome.InvalidRecipient? <==> !recipientValid
    ensures !recipientValid ==> d.attempts == 0 && d.sleeps == []
    ensures recipientValid ==> 1 <= d.attempts <= MAX_RETRY
  {
    if !recipientValid then Transcript(InvalidRecipient, 0, []) else Run(verdicts, wait, 0, [])
  }

  /** n copies of the delay x. */
  function Repeat(x: int, n: nat): (s: seq<int>)
    ensures |s| == n
    ensures forall i :: 0 <= i < n ==> s[i] == x
  {
    seq(n, _ => x)
  }

  /** Sessions lo..hi-1 all failed retryably. */
  predicate AllRetry<E>(verdicts: nat -> Verdict<E>, lo: nat, hi: nat)
  {
    forall j: nat :: lo <= j < hi ==> verdicts(j).Retry?
  }

  /** The outcome a non-retryable verdict settles the call with. */
  function Settle<E>(v: Verdict<E>): Outcome<E>
    requires !v.Retry?
  {
    if v.Sent? then Delivered else Raised(v.error)
  }

  lemma RepeatSnoc(x: int, n: nat)
    ensures Repeat(x, n) + [x] == Repeat(x, n + 1)
  {
  }

  /** From `i`, with non-negative delay: the first non-retryable session k
      settles the call, after one sleep for each of sessions i..k-1. */
  lemma {:induction false} RunSettlesAt<E>(verdicts: nat -> Verdict<E>, wait: int, i: nat, sleeps: seq<int>, k: nat)
    requires wait >= 0 && i <= k < MAX_RETRY
    requires AllRetry(verdicts, i, k) && !verdicts(k).Retry?
    ensures Run(verdicts, wait, i, sleeps) == Transcript(Settle(verdicts(k)), k + 1, sleeps + Repeat(wait, k - i))
    decreases k - i
  {
    if i == k {
      assert sleeps + Repeat(wait, 0) == sleeps;
    } else {
      assert verdicts(i).Retry?;
      RunSettlesAt(verdicts, wait, i + 1, sleeps + [wait], k);
      RepeatSnoc(wait, k - i - 1);
      assert sleeps + [wait] + Repeat(wait, k - (i + 1)) == sleeps + ([wait] + Repeat(wait, k - i - 1));
      assert [wait] + Repeat(wait, k - i - 1) == Repeat(wait, k - i);
    }
  }

  /** From `i`, with non-negative delay and only retryable failures ahead,
      the loop exits with status 1 after sleeping once per remaining session. */
  lemma {:induction false} RunExhausts<E>(verdicts: nat -> Verdict<E>, wait: int, i: nat, sleeps: seq<int>)
    requires wait >= 0 && i <= MAX_RETRY
    requires AllRetry(verdicts, i, MAX_RETRY)
    ensures Run(verdicts, wait, i, sleeps) == Transcript(Exit(1), MAX_RETRY, sleeps + Repeat(wait, MAX_RETRY - i))
    decreases MAX_RETRY - i
  {
    if i == MAX_RETRY {
      assert sleeps + Repeat(wait, 0) == sleeps;
    } else {
      assert verdicts(i).Retry?;
      RunExhausts(verdicts, wait, i + 1, sleeps + [wait]);
      assert sleeps + [wait] + Repeat(wait, MAX_RETRY - (i + 1)) == sleeps + ([wait] + Repeat(wait, MAX_RETRY - i - 1));
      assert [wait] + Repeat(wait, MAX_RETRY - i - 1) == Repeat(wait, MAX_RETRY - i);
    }
  }

  /** The loop exits the process exactly when every remaining session fails
      retryably and the delay can be slept. */
  lemma {:induction false} RunExitsIff<E>(verdicts: nat -> Verdict<E>, wait: int, i: nat, sleeps: seq<int>)
    requires i < MAX_RETRY
    ensures Run(verdicts, wait, i, sleeps).outcome.Exit? <==> wait >= 0 && AllRetry(verdicts, i, MAX_RETRY)
    ensures Run(verdicts, wait, i, sleeps).outcome.Exit? ==> Run(verdicts, wait, i, sleeps).outcome.status == 1
    decreases MAX_RETRY - i
  {
    if verdicts(i).Retry? && wait >= 0 && i + 1 < MAX_RETRY {
      RunExitsIff(verdicts, wait, i + 1, sleeps + [wait]);
      if AllRetry(verdicts, i + 1, MAX_RETRY) {
        forall j: nat | i <= j < MAX_RETRY ensures verdicts(j).Retry? {
          if j > i { assert i + 1 <= j; }
        }
      }
    } else if !verdicts(i).Retry? {
      assert !AllRetry(verdicts, i, MAX_RETRY) by { assert !verdicts(i).Retry?; }
    }
  }

  /** Every slept delay is the enforced delay, and it is never negative. */
  lemma {:induction false} RunSleepsWait<E>(verdicts: nat -> Verdict<E>, wait: int, i: nat, sleeps: seq<int>)
    requires i <= MAX_RETRY
    ensures forall j :: |sleeps| <= j < |Run(verdicts, wait, i, sleeps).sleeps| ==> Run(verdicts, wait, i, sleeps).sleeps[j] == wait
    ensures |Run(verdicts, wait, i, sleeps).sleeps| > |sleeps| ==> wait >= 0
    decreases MAX_RETRY - i
  {
    if i < MAX_RETRY && verdicts(i).Retry? && wait >= 0 {
      var longer := sleeps + [wait];
      RunSleepsWait(verdicts, wait, i + 1, longer);
      var t := Run(verdicts, wait, i + 1, longer);
      assert Run(verdicts, wait, i, sleeps) == t;
      assert t.sleeps[..|longer|] == longer;
      forall j | |sleeps| <= j < |t.sleeps| ensures t.sleeps[j] == wait {
        if j == |sleeps| {
          assert t.sleeps[j] == t.sleeps[..|longer|][j] == longer[j];
        }
      }
    }
  }

  // ---- properties of a whole call ----

  /** A call opens at most MAX_RETRY sessions, sleeps at most once per
      session, and only ever sleeps the given non-negative delay. */
  lemma DeliveryBounded<E>(recipientValid: bool, verdicts: nat -> Verdict<E>, wait: int)
    ensures var t := Delivery(recipientValid, verdicts, wait);
      && t.attempts <= MAX_RETRY
      && |t.sleeps| <= t.attempts
      && (forall j :: 0 <= j < |t.sleeps| ==> t.sleeps[j] == wait && 0 <= wait)
  {
    if recipientValid {
      RunSleepsWait(verdicts, wait, 0, []);
    }
  }

  /** The first session that does not fail retryably decides the call: it
      returns at once on success, or raises on that attempt, with one sleep for
      each earlier session and no further sessions. */
  lemma FirstSettledSessionDecides<E>(verdicts: nat -> Verdict<E>, wait: int, k: nat)
    requires wait >= 0 && k < MAX_RETRY
    requires AllRetry(verdicts, 0, k) && !verdicts(k).Retry?
    ensures Delivery(true, verdicts, wait) == Transcript(Settle(verdicts(k)), k + 1, Repeat(wait, k))
  {
    RunSettlesAt(verdicts, wait, 0, [], k);
    assert [] + Repeat(wait, k) == Repeat(wait, k);
  }

  /** MAX_RETRY retryable failures in a row: exit with status 1 after exactly
      MAX_RETRY sessions and MAX_RETRY sleeps, never a seventh session. */
  lemma RetryableFailuresExit<E>(verdicts: nat -> Verdict<E>, wait: int)
    requires wait >= 0 && AllRetry(verdicts, 0, MAX_RETRY)
    ensures Delivery(true, verdicts, wait) == Transcript(Exit(1), MAX_RETRY, Repeat(wait, MAX_RETRY))
  {
    RunExhausts(verdicts, wait, 0, []);
    assert [] + Repeat(wait, MAX_RETRY) == Repeat(wait, MAX_RETRY);
  }

  /** The call exits the process iff the message could be built, the delay can
      be slept and all MAX_RETRY sessions fail retryably. */
  lemma DeliveryExitsIff<E>(recipientValid: bool, verdicts: nat -> Verdict<E>, wait: int)
    ensures Delivery(recipientValid, verdicts, wait).outcome.Exit? <==>
              recipientValid && wait >= 0 && AllRetry(verdicts, 0, MAX_RETRY)
  {
    if recipientValid {
      RunExitsIff(verdicts, wait, 0, []);
    }
  }

  /** A negative delay: the first retryable failure ends the call, unslept. */
  lemma NegativeDelayRejected<E>(verdicts: nat -> Verdict<E>, wait: int)
    requires wait < 0
    ensures var t := Delivery(true, verdicts, wait);
      && t.attempts == 1 && t.sleeps == []
      && t.outcome == if verdicts(0).Retry? then SleepRejected else Settle(verdicts(0))
  {
  }
}
