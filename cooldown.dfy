/**
  The cooldown gate of `alert_format`, shared by both notifier revisions: a
  map from resource name to the time the last alert for it was sent. A name
  not seen before is entered with time 0; an alert goes out only when strictly
  more than the cooldown has passed; the entry is overwritten with the clock
  read after the send, and only when the send returned normally.
  */
module Cooldown {
  import Retry

  /** Whether the gate let the alert through, and how the send ended. */
  datatype Gate<E> = Suppressed | Attempted(outcome: Retry.Outcome<E>)

  datatype Step<E> = Step(tracker: map<string, int>, gate: Gate<E>)

  /** The time the tracker holds for a name, 0 for a name it has not seen. */
  function LastSent(tracker: map<string, int>, name: string): int
  {
    if name in tracker then tracker[name] else 0
  }

  /**
    One `alert_format` call for `name` at clock `now`, where `send` is how
    `send_alert` would end and `after` is the clock read once it returned.
    */
  function AlertStep<E>(tracker: map<string, int>, name: string, now: int, cooldownTime: int,
                        send: Retry.Outcome<E>, after: int): (s: Step<E>)
    ensures s.tracker.Keys == tracker.Keys + {name}
    ensures forall k :: k in tracker && k != name ==> s.tracker[k] == tracker[k]
    ensures s.gate.Attempted? <==> now - LastSent(tracker, name) > cooldownTime
    ensures s.gate.Attempted? ==> s.gate.outcome == send
    ensures s.tracker[name] == if s.gate == Attempted(Retry.Delivered) then after else LastSent(tracker, name)
  {
    var t := if name in tracker then tracker else tracker[name := 0];
    if now - t[name] > cooldownTime then
      Step(if send.Delivered? then t[name := after] else t, Attempted(send))
    else
      Step(t, Suppressed)
  }

  /** After an alert was delivered and recorded at `after`, a later call for the
      same name is suppressed while at most the cooldown has passed since, and
      goes through once strictly more has. */
  lemma {:induction false} NoRealertWithinCooldown<E>(tracker: map<string, int>, name: string, now: int,
                                                      cooldownTime: int, after: int,
                                                      now2: int, send2: Retry.Outcome<E>, after2: int)
    requires now - LastSent(tracker, name) > cooldownTime
    ensures var s: Step<E> := AlertStep(tracker, name, now, cooldownTime, Retry.Delivered, after);
      && (now2 - after <= cooldownTime ==> AlertStep(s.tracker, name, now2, cooldownTime, send2, after2).gate == Suppressed)
      && (now2 - after > cooldownTime ==> AlertStep(s.tracker, name, now2, cooldownTime, send2, after2).gate == Attempted(send2))
  {
    var s: Step<E> := AlertStep(tracker, name, now, cooldownTime, Retry.Delivered, after);
    assert s.gate == Attempted(Retry.Delivered);
    assert LastSent(s.tracker, name) == after;
  }

  /** A send that raised or exited leaves the previous time in place, so the
      next call for that name is judged against the old time again. */
  lemma FailedSendNotRecorded<E>(tracker: map<string, int>, name: string, now: int, cooldownTime: int,
                                 send: Retry.Outcome<E>, after: int)
    requires !send.Delivered?
    ensures LastSent(AlertStep(tracker, name, now, cooldownTime, send, after).tracker, name) == LastSent(tracker, name)
  {
  }

  /** A suppressed call changes the tracker only by entering an unseen name at 0. */
  lemma SuppressedOnlyInitialises<E>(tracker: map<string, int>, name: string, now: int, cooldownTime: int,
                                     send: Retry.Outcome<E>, after: int)
    requires now - LastSent(tracker, name) <= cooldownTime
    ensures AlertStep(tracker, name, now, cooldownTime, send, after).tracker ==
              if name in tracker then tracker else tracker[name := 0]
  {
  }
}
