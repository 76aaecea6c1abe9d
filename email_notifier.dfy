/**
  The current notifier (class Notifier of the notification_alerts package):
  every terminal SMTP failure is re-raised as one SMTPError, differing only in
  its message, and the cooldown tracker starts empty.
  */
module EmailNotifier {
  import Smtp
  import Retry
  import Cooldown
  import TimeManager

  /** Which message the raised SMTPError carries. */
  datatype Reason = BadCredentials | ServerSettings | RecipientRefused

  /** The error type `send_alert` raises for a terminal failure. */
  datatype SmtpError = SMTPError(reason: Reason)

  /**
    The `except` chain of `send_alert`, clause by clause in source order:
    authentication first (it is also a response exception), then connect,
    disconnect and any response exception, then refused recipients; every
    remaining failure is an SMTPException or an OSError and is retried.
    */
  function Classify(c: Smtp.Class): (v: Retry.Verdict<SmtpError>)
    ensures v.Retry? <==> c == Smtp.SMTPException || c == Smtp.OSError
    ensures v == Retry.Abort(SMTPError(BadCredentials)) <==> c == Smtp.SMTPAuthenticationError
    ensures v == Retry.Abort(SMTPError(ServerSettings)) <==>
              (Smtp.Catches(Smtp.SMTPResponseException, c) && c != Smtp.SMTPAuthenticationError)
              || c == Smtp.SMTPServerDisconnected
    ensures !v.Sent?
  {
    if Smtp.Catches(Smtp.SMTPAuthenticationError, c) then
      Retry.Abort(SMTPError(BadCredentials))
    else if Smtp.Catches(Smtp.SMTPConnectError, c) || Smtp.Catches(Smtp.SMTPServerDisconnected, c)
         || Smtp.Catches(Smtp.SMTPResponseException, c) then
      Retry.Abort(SMTPError(ServerSettings))
    else if Smtp.Catches(Smtp.SMTPRecipientsRefused, c) then
      Retry.Abort(SMTPError(RecipientRefused))
    else
      assert Smtp.Catches(Smtp.SMTPException, c) || Smtp.Catches(Smtp.OSError, c);
      Retry.Retry
  }

  /** How the loop judges one session. */
  function Judge(a: Smtp.Attempt): Retry.Verdict<SmtpError>
  {
    match a
    case Accepted => Retry.Sent
    case Raises(c) => Classify(c)
  }

  /** The verdicts on the sessions of a transport; session i ends as transport(i). */
  function Verdicts(transport: nat -> Smtp.Attempt): nat -> Retry.Verdict<SmtpError>
  {
    (i: nat) => Judge(transport(i))
  }

  /** The call `send_alert` makes, as a transcript. */
  function SendSpec(recipientValid: bool, transport: nat -> Smtp.Attempt, retryDelay: int): Retry.Transcript<SmtpError>
  {
    Retry.Delivery(recipientValid, Verdicts(transport), TimeManager.EnforceMaxWaitTime(retryDelay))
  }

  const MAX_RETRY: nat := Retry.MAX_RETRY

  class Notifier {
    /** alerts_send_tracker: resource name to the time its last alert went out. */
    var alertsSendTracker: map<string, int>

    constructor ()
      ensures alertsSendTracker == map[]
    {
      alertsSendTracker := map[];
    }

    /**
      send_alert. `recipientValid` is the email validator's verdict on the
      recipient, `transport(i)` how the i-th SMTP session ends, and
      `retryDelay` the configured email_retry_delay. Returns how the call
      ends, how many sessions it opened, and the delays it slept.
      */
    method SendAlert(recipientValid: bool, transport: nat -> Smtp.Attempt, retryDelay: int)
      returns (outcome: Retry.Outcome<SmtpError>, attempts: nat, ghost sleeps: seq<int>)
      ensures Retry.Transcript(outcome, attempts, sleeps) == SendSpec(recipientValid, transport, retryDelay)
      ensures attempts <= MAX_RETRY
      ensures outcome.Exit? ==> attempts == MAX_RETRY && outcome.status == 1
    {
      sleeps := [];
      if !recipientValid {
        return Retry.InvalidRecipient, 0, sleeps;
      }
      ghost var verdicts := Verdicts(transport);
      ghost var wait := TimeManager.EnforceMaxWaitTime(retryDelay);
      var retryCount: nat := 0;
      while retryCount < MAX_RETRY
        invariant retryCount <= MAX_RETRY
        invariant Retry.Run(verdicts, wait, 0, []) == Retry.Run(verdicts, wait, retryCount, sleeps)
      {
        var verdict := Judge(transport(retryCount));
        assert verdict == verdicts(retryCount);
        match verdict
        case Sent =>
          return Retry.Delivered, retryCount + 1, sleeps;
        case Abort(e) =>
          return Retry.Raised(e), retryCount + 1, sleeps;
        case Retry =>
          var waitTime := TimeManager.EnforceMaxWaitTime(retryDelay);
          if waitTime < 0 {
            return Retry.SleepRejected, retryCount + 1, sleeps;
          }
          sleeps := sleeps + [waitTime];
          retryCount := retryCount + 1;
      }
      return Retry.Exit(1), retryCount, sleeps;
    }

    /**
      alert_format for `resourceName`. The clock reads at the gate and after
      the send are `now` and `after`; `cooldownTime` is alert_cooldown_time.
      The device name and threshold only fill the message templates.
      */
    method AlertFormat(deviceName: string, resourceName: string, threshold: int,
                       cooldownTime: int, now: int, after: int,
                       recipientValid: bool, transport: nat -> Smtp.Attempt, retryDelay: int)
      returns (gate: Cooldown.Gate<SmtpError>)
      modifies this
      ensures Cooldown.Step(alertsSendTracker, gate) ==
                Cooldown.AlertStep(old(alertsSendTracker), resourceName, now, cooldownTime,
                                   SendSpec(recipientValid, transport, retryDelay).outcome, after)
    {
      if resourceName !in alertsSendTracker {
        alertsSendTracker := alertsSendTracker[resourceName := 0];
      }
      if now - alertsSendTracker[resourceName] > cooldownTime {
        var outcome, attempts;
        ghost var sleeps;
        outcome, attempts, sleeps := SendAlert(recipientValid, transport, retryDelay);
        if outcome.Delivered? {
          alertsSendTracker := alertsSendTracker[resourceName := after];
        }
        gate := Cooldown.Attempted(outcome);
      } else {
        gate := Cooldown.Suppressed;
      }
    }
  }

  // ---- properties of send_alert in this revision ----

  /** Authentication, connection, disconnection, response and recipient
      failures each raise SMTPError on the session they occur in: no sleep
      for it and no further session. */
  lemma TerminalFailureRaises(transport: nat -> Smtp.Attempt, retryDelay: int, k: nat)
    requires 0 <= retryDelay && k < MAX_RETRY
    requires forall j: nat :: j < k ==> transport(j).Raises? && Classify(transport(j).exception).Retry?
    requires transport(k).Raises? && !Classify(transport(k).exception).Retry?
    ensures var t := SendSpec(true, transport, retryDelay);
      && t.outcome == Retry.Raised(Classify(transport(k).exception).error)
      && t.outcome.error.SMTPError?
      && t.attempts == k + 1
      && |t.sleeps| == k
  {
    var verdicts := Verdicts(transport);
    var wait := TimeManager.EnforceMaxWaitTime(retryDelay);
    assert Retry.AllRetry(verdicts, 0, k) by {
      forall j: nat | 0 <= j < k ensures verdicts(j).Retry? { assert verdicts(j) == Judge(transport(j)); }
    }
    assert verdicts(k) == Classify(transport(k).exception);
    Retry.FirstSettledSessionDecides(verdicts, wait, k);
  }

  /** The first accepted session returns at once, after one sleep per
      earlier retryable failure. */
  lemma FirstSuccessReturns(transport: nat -> Smtp.Attempt, retryDelay: int, k: nat)
    requires 0 <= retryDelay && k < MAX_RETRY
    requires forall j: nat :: j < k ==> transport(j).Raises? && Classify(transport(j).exception).Retry?
    requires transport(k) == Smtp.Accepted
    ensures SendSpec(true, transport, retryDelay) ==
              Retry.Transcript(Retry.Delivered, k + 1, Retry.Repeat(TimeManager.EnforceMaxWaitTime(retryDelay), k))
  {
    var verdicts := Verdicts(transport);
    var wait := TimeManager.EnforceMaxWaitTime(retryDelay);
    assert Retry.AllRetry(verdicts, 0, k) by {
      forall j: nat | 0 <= j < k ensures verdicts(j).Retry? { assert verdicts(j) == Judge(transport(j)); }
    }
    assert verdicts(k) == Retry.Sent;
    Retry.FirstSettledSessionDecides(verdicts, wait, k);
  }

  /** Six generic SMTP or OS failures: exit(1) after exactly six sleeps of
      the enforced delay, each at most 12 hours, and no seventh session. */
  lemma RetryableFailuresExit(transport: nat -> Smtp.Attempt, retryDelay: int)
    requires 0 <= retryDelay
    requires forall j: nat :: j < MAX_RETRY ==> transport(j) == Smtp.Raises(Smtp.SMTPException) || transport(j) == Smtp.Raises(Smtp.OSError)
    ensures var t := SendSpec(true, transport, retryDelay);
      && t.outcome == Retry.Exit(1)
      && t.attempts == MAX_RETRY
      && t.sleeps == Retry.Repeat(TimeManager.EnforceMaxWaitTime(retryDelay), MAX_RETRY)
      && forall j :: 0 <= j < |t.sleeps| ==> t.sleeps[j] <= TimeManager.MAX_WAIT_TIME
  {
    var verdicts := Verdicts(transport);
    var wait := TimeManager.EnforceMaxWaitTime(retryDelay);
    assert Retry.AllRetry(verdicts, 0, MAX_RETRY) by {
      forall j: nat | 0 <= j < MAX_RETRY ensures verdicts(j).Retry? { assert verdicts(j) == Judge(transport(j)); }
    }
    Retry.RetryableFailuresExit(verdicts, wait);
  }

  /** An authentication failure on the first session: one session, no sleep. */
  lemma AuthFailureOnFirstSession(transport: nat -> Smtp.Attempt, retryDelay: int)
    requires transport(0) == Smtp.Raises(Smtp.SMTPAuthenticationError)
    ensures SendSpec(true, transport, retryDelay) == Retry.Transcript(Retry.Raised(SMTPError(BadCredentials)), 1, [])
  {
    assert Verdicts(transport)(0) == Judge(transport(0));
  }
}
