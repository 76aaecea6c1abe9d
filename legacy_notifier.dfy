/**
  The older notifier (notifier.py at the top of the repository): each terminal
  SMTP failure class is re-raised as its own error type, the cooldown tracker
  starts with the six resource names at 0, and the class carries its own
  copies of the wait-time helpers.
  */
module LegacyNotifier {
  import Smtp
  import Retry
  import Cooldown
  import TimeManager
  import EmailNotifier

  /** The error types `send_alert` raises (all subclasses of SMTPError). */
  datatype NotifierError =
    | SMTPAuthError
    | SMTPConnectError
    | SMTPResponseError
    | SMTPRecipientsRefusedError

  /**
    The `except` chain of `send_alert` in source order: authentication, then
    connect or disconnect, then any other response exception, then refused
    recipients; every remaining failure is an SMTPException or an OSError and
    is retried.
    */
  function Classify(c: Smtp.Class): (v: Retry.Verdict<NotifierError>)
    ensures v.Retry? <==> c == Smtp.SMTPException || c == Smtp.OSError
    ensures v == Retry.Abort(SMTPAuthError) <==> c == Smtp.SMTPAuthenticationError
    ensures v == Retry.Abort(SMTPConnectError) <==> c == Smtp.SMTPConnectError || c == Smtp.SMTPServerDisconnected
    ensures v == Retry.Abort(SMTPResponseError) <==> c == Smtp.SMTPResponseException
    ensures v == Retry.Abort(SMTPRecipientsRefusedError) <==> c == Smtp.SMTPRecipientsRefused
  {
    if Smtp.Catches(Smtp.SMTPAuthenticationError, c) then
      Retry.Abort(SMTPAuthError)
    else if Smtp.Catches(Smtp.SMTPConnectError, c) || Smtp.Catches(Smtp.SMTPServerDisconnected, c) then
      Retry.Abort(SMTPConnectError)
    else if Smtp.Catches(Smtp.SMTPResponseException, c) then
      Retry.Abort(SMTPResponseError)
    else if Smtp.Catches(Smtp.SMTPRecipientsRefused, c) then
      Retry.Abort(SMTPRecipientsRefusedError)
    else
      assert Smtp.Catches(Smtp.SMTPException, c) || Smtp.Catches(Smtp.OSError, c);
      Retry.Retry
  }

  function Judge(a: Smtp.Attempt): Retry.Verdict<NotifierError>
  {
    match a
    case Accepted => Retry.Sent
    case Raises(c) => Classify(c)
  }

  function Verdicts(transport: nat -> Smtp.Attempt): nat -> Retry.Verdict<NotifierError>
  {
    (i: nat) => Judge(transport(i))
  }

  /** format_wait_time, the notifier's own copy; the magnitude is the exact
      quotient, where Python's `/` gives the correctly rounded float. */
  function FormatWaitTime(waitTime: int): (d: TimeManager.Display)
    ensures d == TimeManager.FormatWaitTime(waitTime)
  {
    if waitTime < 60 then
      TimeManager.Display(waitTime as real, TimeManager.Seconds)
    else if waitTime < 3600 then
      TimeManager.Display(waitTime as real / 60.0, TimeManager.Minutes)
    else
      TimeManager.Display(waitTime as real / 3600.0, TimeManager.Hours)
  }

  /** enforce_max_wait_time, the notifier's own copy. */
  function EnforceMaxWaitTime(waitTime: int): (w: int)
    ensures w == TimeManager.EnforceMaxWaitTime(waitTime)
  {
    if waitTime > 43200 then 3600 else waitTime
  }

  function SendSpec(recipientValid: bool, transport: nat -> Smtp.Attempt, retryDelay: int): Retry.Transcript<NotifierError>
  {
    Retry.Delivery(recipientValid, Verdicts(transport), EnforceMaxWaitTime(retryDelay))
  }

  /** The resource names last_alert_times starts with, all at time 0. */
  const INITIAL_LAST_ALERT_TIMES: map<string, int> :=
    map["CPU" := 0, "RAM" := 0, "Disks" := 0, "GPU Usage" := 0, "GPU Memory Usage" := 0, "GPU Temperature" := 0]

  class Notifier {
    /** last_alert_times: resource name to the time its last alert went out. */
    var lastAlertTimes: map<string, int>

    constructor ()
      ensures lastAlertTimes == INITIAL_LAST_ALERT_TIMES
      ensures lastAlertTimes.Keys == {"CPU", "RAM", "Disks", "GPU Usage", "GPU Memory Usage", "GPU Temperature"}
      ensures forall k :: k in lastAlertTimes ==> lastAlertTimes[k] == 0
    {
      lastAlertTimes := INITIAL_LAST_ALERT_TIMES;
    }

    /** send_alert; see EmailNotifier.Notifier.SendAlert for the parameters. */
    method SendAlert(recipientValid: bool, transport: nat -> Smtp.Attempt, retryDelay: int)
      returns (outcome: Retry.Outcome<NotifierError>, attempts: nat, ghost sleeps: seq<int>)
      ensures Retry.Transcript(outcome, attempts, sleeps) == SendSpec(recipientValid, transport, retryDelay)
      ensures attempts <= 6
      ensures outcome.Exit? ==> attempts == 6 && outcome.status == 1
    {
      sleeps := [];
      if !recipientValid {
        return Retry.InvalidRecipient, 0, sleeps;
      }
      ghost var verdicts := Verdicts(transport);
      ghost var wait := EnforceMaxWaitTime(retryDelay);
      var retryCount: nat := 0;
      while retryCount < 6
        invariant retryCount <= Retry.MAX_RETRY
        invariant Retry.Run(verdicts, wait, 0, []) == Retry.Run(verdicts, wait, retryCount, sleeps)
      {
        var verdict := Judge(transport(retryCount));
        assert verdict == verdicts(retryCount);
        match verdict
        case Sent =>
          return Retry.Delivered, retryCount + 1, sleeps;
        case Abort(e) =>
          return Retry.Raised(e), retryCount + 1, sleeps;
        case Retry =>
          var waitTime := EnforceMaxWaitTime(retryDelay);
          if waitTime < 0 {
            return Retry.SleepRejected, retryCount + 1, sleeps;
          }
          sleeps := sleeps + [waitTime];
          retryCount := retryCount + 1;
      }
      return Retry.Exit(1), retryCount, sleeps;
    }

    /** alert_format over last_alert_times; see EmailNotifier.Notifier.AlertFormat. */
    method AlertFormat(deviceName: string, resourceName: string, threshold: int,
                       cooldownTime: int, now: int, after: int,
                       recipientValid: bool, transport: nat -> Smtp.Attempt, retryDelay: int)
      returns (gate: Cooldown.Gate<NotifierError>)
      modifies this
      ensures Cooldown.Step(lastAlertTimes, gate) ==
                Cooldown.AlertStep(old(lastAlertTimes), resourceName, now, cooldownTime,
                                   SendSpec(recipientValid, transport, retryDelay).outcome, after)
    {
      if resourceName !in lastAlertTimes {
        lastAlertTimes := lastAlertTimes[resourceName := 0];
      }
      if now - lastAlertTimes[resourceName] > cooldownTime {
        var outcome, attempts;
        ghost var sleeps;
        outcome, attempts, sleeps := SendAlert(recipientValid, transport, retryDelay);
        if outcome.Delivered? {
          lastAlertTimes := lastAlertTimes[resourceName := after];
        }
        gate := Cooldown.Attempted(outcome);
      } else {
        gate := Cooldown.Suppressed;
      }
    }
  }

  // ---- properties of send_alert in this revision ----

  /** Each terminal class raises its own error type on the session it occurs
      in, without sleeping and without another session. */
  lemma TerminalFailureRaisesOwnType(transport: nat -> Smtp.Attempt, retryDelay: int, k: nat)
    requires 0 <= retryDelay && k < Retry.MAX_RETRY
    requires forall j: nat :: j < k ==> transport(j).Raises? && Classify(transport(j).exception).Retry?
    requires transport(k).Raises? && !Classify(transport(k).exception).Retry?
    ensures var c := transport(k).exception;
      var t := SendSpec(true, transport, retryDelay);
      && t.attempts == k + 1
      && |t.sleeps| == k
      && (c == Smtp.SMTPAuthenticationError ==> t.outcome == Retry.Raised(SMTPAuthError))
      && (c == Smtp.SMTPConnectError || c == Smtp.SMTPServerDisconnected ==> t.outcome == Retry.Raised(SMTPConnectError))
      && (c == Smtp.SMTPResponseException ==> t.outcome == Retry.Raised(SMTPResponseError))
      && (c == Smtp.SMTPRecipientsRefused ==> t.outcome == Retry.Raised(SMTPRecipientsRefusedError))
  {
    var verdicts := Verdicts(transport);
    var wait := EnforceMaxWaitTime(retryDelay);
    assert Retry.AllRetry(verdicts, 0, k) by {
      forall j: nat | 0 <= j < k ensures verdicts(j).Retry? { assert verdicts(j) == Judge(transport(j)); }
    }
    assert verdicts(k) == Classify(transport(k).exception);
    Retry.FirstSettledSessionDecides(verdicts, wait, k);
  }

  /** Six generic SMTP or OS failures: exit(1) after six sleeps of the
      enforced delay, each at most 12 hours. */
  lemma RetryableFailuresExit(transport: nat -> Smtp.Attempt, retryDelay: int)
    requires 0 <= retryDelay
    requires forall j: nat :: j < 6 ==> transport(j) == Smtp.Raises(Smtp.SMTPException) || transport(j) == Smtp.Raises(Smtp.OSError)
    ensures var t := SendSpec(true, transport, retryDelay);
      && t.outcome == Retry.Exit(1)
      && t.attempts == 6
      && t.sleeps == Retry.Repeat(EnforceMaxWaitTime(retryDelay), 6)
      && forall j :: 0 <= j < |t.sleeps| ==> t.sleeps[j] <= 43200
  {
    var verdicts := Verdicts(transport);
    var wait := EnforceMaxWaitTime(retryDelay);
    assert Retry.AllRetry(verdicts, 0, Retry.MAX_RETRY) by {
      forall j: nat | 0 <= j < Retry.MAX_RETRY ensures verdicts(j).Retry? { assert verdicts(j) == Judge(transport(j)); }
    }
    Retry.RetryableFailuresExit(verdicts, wait);
  }

  /** The two revisions agree on which failures are retried and which raise;
      they differ only in the error raised. */
  lemma RevisionsAgreeOnRetry(c: Smtp.Class)
    ensures Classify(c).Retry? <==> EmailNotifier.Classify(c).Retry?
    ensures Classify(c).Abort? <==> EmailNotifier.Classify(c).Abort?
  {
  }

  /** The authentication error is a response exception, yet it is reported as
      an authentication error because its clause comes first; likewise the
      connect error is not reported as a response error. */
  lemma ClauseOrderDecides()
    ensures Smtp.Catches(Smtp.SMTPResponseException, Smtp.SMTPAuthenticationError)
    ensures Classify(Smtp.SMTPAuthenticationError) == Retry.Abort(SMTPAuthError)
    ensures Smtp.Catches(Smtp.SMTPResponseException, Smtp.SMTPConnectError)
    ensures Classify(Smtp.SMTPConnectError) == Retry.Abort(SMTPConnectError)
  {
  }
}
