/**
  Wait-time policy of the monitor (class TimeManager). The two revisions of
  the repository carry byte-identical copies of this class, so one module
  models both.
  */
module TimeManager {

  const SECONDS_IN_MINUTE: int := 60
  const SECONDS_IN_HOUR: int := 3600
  /** 12 hours in seconds: the longest accepted delay. */
  const MAX_WAIT_TIME: int := 43200

  datatype Unit = Seconds | Minutes | Hours

  /** A delay as shown to a human: a magnitude in some unit. */
  datatype Display = Display(magnitude: real, unit: Unit)

  /** Number of seconds in one unit. */
  function UnitSeconds(u: Unit): (n: int)
    ensures n > 0
  {
    match u
    case Seconds => 1
    case Minutes => SECONDS_IN_MINUTE
    case Hours => SECONDS_IN_HOUR
  }

  /** The duration a display denotes, in seconds (the inverse of formatting). */
  function ToSeconds(d: Display): real
  {
    d.magnitude * UnitSeconds(d.unit) as real
  }

  /**
    format_wait_time: choose the unit by the two bounds and divide. The
    magnitude here is the exact quotient, where Python's `/` gives the
    correctly rounded float. Below a minute the value is returned unchanged.
    */
  function FormatWaitTime(waitTime: int): (d: Display)
    ensures ToSeconds(d) == waitTime as real
    ensures d.unit == Seconds <==> waitTime < SECONDS_IN_MINUTE
    ensures d.unit == Minutes <==> SECONDS_IN_MINUTE <= waitTime < SECONDS_IN_HOUR
    ensures d.unit == Hours <==> SECONDS_IN_HOUR <= waitTime
    ensures d.unit == Seconds ==> d.magnitude == waitTime as real
    ensures d.unit == Minutes ==> 1.0 <= d.magnitude < 60.0
    ensures d.unit == Hours ==> 1.0 <= d.magnitude
  {
    if waitTime < SECONDS_IN_MINUTE then
      Display(waitTime as real, Seconds)
    else if waitTime < SECONDS_IN_HOUR then
      Display(waitTime as real / SECONDS_IN_MINUTE as real, Minutes)
    else
      Display(waitTime as real / SECONDS_IN_HOUR as real, Hours)
  }

  /**
    enforce_max_wait_time: a delay above 12 hours is not clamped but replaced
    by the 1-hour default; anything else, negative values included, passes.
    */
  function EnforceMaxWaitTime(waitTime: int): (w: int)
    ensures w <= MAX_WAIT_TIME
    ensures waitTime <= MAX_WAIT_TIME ==> w == waitTime
    ensures waitTime > MAX_WAIT_TIME ==> w == SECONDS_IN_HOUR
  {
    if waitTime > MAX_WAIT_TIME then SECONDS_IN_HOUR else waitTime
  }

  /** Enforcing the limit twice is the same as enforcing it once. */
  lemma EnforceIdempotent(waitTime: int)
    ensures EnforceMaxWaitTime(EnforceMaxWaitTime(waitTime)) == EnforceMaxWaitTime(waitTime)
  {
  }

  /** The substitute is the 1-hour default, never the 12-hour ceiling itself. */
  lemma EnforceSubstitutesDefault(waitTime: int)
    requires waitTime > MAX_WAIT_TIME
    ensures EnforceMaxWaitTime(waitTime) == 3600 && EnforceMaxWaitTime(waitTime) != MAX_WAIT_TIME
  {
  }

  /** The unit boundaries and the documented examples. */
  lemma FormatExamples()
    ensures FormatWaitTime(30) == Display(30.0, Seconds)
    ensures FormatWaitTime(59) == Display(59.0, Seconds)
    ensures FormatWaitTime(60) == Display(1.0, Minutes)
    ensures FormatWaitTime(120) == Display(2.0, Minutes)
    ensures FormatWaitTime(3599).unit == Minutes
    ensures FormatWaitTime(3600) == Display(1.0, Hours)
    ensures FormatWaitTime(7200) == Display(2.0, Hours)
    ensures EnforceMaxWaitTime(50000) == 3600
    ensures EnforceMaxWaitTime(43200) == 43200
    ensures EnforceMaxWaitTime(1000) == 1000
  {
  }

  /** Formatting an enforced delay always lands in a unit no larger than hours
      and at most 12 of them. */
  lemma EnforcedDisplayAtMostTwelveHours(waitTime: int)
    ensures ToSeconds(FormatWaitTime(EnforceMaxWaitTime(waitTime))) <= MAX_WAIT_TIME as real
    ensures FormatWaitTime(EnforceMaxWaitTime(waitTime)).unit == Hours ==>
              FormatWaitTime(EnforceMaxWaitTime(waitTime)).magnitude <= 12.0
  {
  }
}
