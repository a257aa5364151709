/** The timings a client may be configured with, and what the session makes of them. Durations are whole nanoseconds. */
module Config {
  import opened Sequences
  import opened Numbers

  const SECOND: nat := 1_000_000_000
  const MILLI: nat := 1_000_000

  /** The largest `Duration`: 2^64 - 1 seconds and 999,999,999 nanoseconds. */
  const DURATION_MAX: nat := U64_MAX * SECOND + 999_999_999

  const MAX_TIMING: nat := 365 * 24 * 60 * 60 * SECOND

  type Duration = d: int | 0 <= d <= DURATION_MAX

  type Attempts = n: int | 0 < n <= U32_MAX witness 1

  datatype RetryPolicy = RetryPolicy(initial: Duration, max: Duration, maxAttempts: Option<Attempts>)

  datatype Timings = Timings(
    openTimeout: Duration, keepaliveSlack: Duration, keepaliveHint: Option<Duration>, inactivity: Option<Duration>,
    retry: RetryPolicy)

  datatype ConfigError =
    | ZeroDuration(field: string)
    | DurationTooLarge(field: string)
    | RetryCeilingBelowInitial(initial: Duration, max: Duration)

  function RequirePositive(field: string, d: Duration): Result<(), ConfigError> {
    if d == 0 then Err(ZeroDuration(field)) else Ok(())
  }

  function RequireWithinMaximum(field: string, d: Duration): Result<(), ConfigError> {
    if d > MAX_TIMING then Err(DurationTooLarge(field)) else Ok(())
  }

  function RequireMillis(field: string, d: Duration): Result<(), ConfigError> {
    if d / MILLI > U64_MAX then Err(DurationTooLarge(field)) else Ok(())
  }

  function RequireOptional(field: string, d: Option<Duration>): Result<(), ConfigError> {
    match d
    case None => Ok(())
    case Some(value) =>
      var _ :- RequirePositive(field, value);
      var _ :- RequireWithinMaximum(field, value);
      RequireMillis(field, value)
  }

  /** The timing checks of `ClientConfigBuilder::build`, in the order in which it makes them. */
  function Build(t: Timings): Result<Timings, ConfigError> {
    var _ :- RequirePositive("open_timeout", t.openTimeout);
    var _ :- RequireWithinMaximum("open_timeout", t.openTimeout);
    var _ :- RequireWithinMaximum("keepalive_slack", t.keepaliveSlack);
    var _ :- RequireOptional("keepalive_hint", t.keepaliveHint);
    var _ :- RequireOptional("inactivity_commitment", t.inactivity);
    var _ :- RequirePositive("retry.initial_delay", t.retry.initial);
    var _ :- RequireWithinMaximum("retry.initial_delay", t.retry.initial);
    var _ :- RequireWithinMaximum("retry.max_delay", t.retry.max);
    if t.retry.max < t.retry.initial then Err(RetryCeilingBelowInitial(t.retry.initial, t.retry.max)) else Ok(t)
  }

  /** A year. */
  const LIMIT := 31_536_000 * SECOND

  /** What an accepted configuration guarantees the timers. */
  predicate Sound(t: Timings) {
    && 0 < t.openTimeout <= LIMIT && t.keepaliveSlack <= LIMIT
    && (t.keepaliveHint.Some? ==> 0 < t.keepaliveHint.value <= LIMIT)
    && (t.inactivity.Some? ==> 0 < t.inactivity.value <= LIMIT)
    && 0 < t.retry.initial <= t.retry.max <= LIMIT
  }

  /** What must not be, in the order in which it is checked, and how it is reported. */
  function Faults(t: Timings): seq<(bool, ConfigError)> {
    [ (t.openTimeout == 0, ZeroDuration("open_timeout")),
      (t.openTimeout > LIMIT, DurationTooLarge("open_timeout")),
      (t.keepaliveSlack > LIMIT, DurationTooLarge("keepalive_slack")),
      (t.keepaliveHint == Some(0), ZeroDuration("keepalive_hint")),
      (t.keepaliveHint.Some? && t.keepaliveHint.value > LIMIT, DurationTooLarge("keepalive_hint")),
      (t.inactivity == Some(0), ZeroDuration("inactivity_commitment")),
      (t.inactivity.Some? && t.inactivity.value > LIMIT, DurationTooLarge("inactivity_commitment")),
      (t.retry.initial == 0, ZeroDuration("retry.initial_delay")),
      (t.retry.initial > LIMIT, DurationTooLarge("retry.initial_delay")),
      (t.retry.max > LIMIT, DurationTooLarge("retry.max_delay")),
      (t.retry.max < t.retry.initial, RetryCeilingBelowInitial(t.retry.initial, t.retry.max)) ]
  }

  /** The first fault. */
  predicate FirstFault(t: Timings, i: nat) {
    i < |Faults(t)| && Faults(t)[i].0 && forall j :: 0 <= j < i ==> !Faults(t)[j].0
  }

  /**
   * Exactly the sound configurations are accepted, unchanged; the check that milliseconds fit never refuses one. Any
   * other is refused with its first fault.
   */
  lemma BuildAcceptsExactlySound(t: Timings)
    ensures Build(t).Ok? <==> Sound(t)
    ensures Build(t).Ok? ==> Build(t).value == t
    ensures forall i: nat :: FirstFault(t, i) ==> Build(t) == Err(Faults(t)[i].1)
    ensures Build(t).Err? ==> exists i: nat :: FirstFault(t, i)
  {
    assert forall d: Duration :: d <= MAX_TIMING ==> d / MILLI <= U64_MAX;
    hide Faults;
    BuildIs(t);
    FaultsFound(t, 0);
  }

  /** The first fault from a place on. */
  function Found(t: Timings, from: nat): Result<Timings, ConfigError>
    requires from <= |Faults(t)|
    decreases |Faults(t)| - from
  {
    if from == |Faults(t)| then Ok(t)
    else if Faults(t)[from].0 then Err(Faults(t)[from].1)
    else Found(t, from + 1)
  }

  lemma {:induction false} FaultsFound(t: Timings, from: nat)
    requires from <= |Faults(t)| && forall j :: 0 <= j < from ==> !Faults(t)[j].0
    ensures forall i: nat :: FirstFault(t, i) ==> i >= from && Found(t, from) == Err(Faults(t)[i].1)
    ensures Found(t, from).Err? ==> exists i: nat :: FirstFault(t, i)
    decreases |Faults(t)| - from
  {
    hide Faults;
    if from < |Faults(t)| {
      if Faults(t)[from].0 {
        assert FirstFault(t, from);
      } else {
        FaultsFound(t, from + 1);
      }
    }
  }

  lemma BuildIs(t: Timings)
    ensures Build(t) == Found(t, 0)
  {
    assert forall d: Duration :: d <= MAX_TIMING ==> d / MILLI <= U64_MAX;
    var f := Faults(t);
    assert Found(t, 11) == Ok(t);
    assert Found(t, 9) == if f[9].0 then Err(f[9].1) else if f[10].0 then Err(f[10].1) else Ok(t);
    assert Found(t, 7) == if f[7].0 then Err(f[7].1) else if f[8].0 then Err(f[8].1) else Found(t, 9);
    assert Found(t, 5) == if f[5].0 then Err(f[5].1) else if f[6].0 then Err(f[6].1) else Found(t, 7);
    assert Found(t, 3) == if f[3].0 then Err(f[3].1) else if f[4].0 then Err(f[4].1) else Found(t, 5);
    assert Found(t, 1) == if f[1].0 then Err(f[1].1) else if f[2].0 then Err(f[2].1) else Found(t, 3);
  }

  /** `as_millis`. */
  function AsMillis(d: Duration): U64 {
    if d / MILLI <= U64_MAX then d / MILLI else U64_MAX
  }

  /** `from_client_config` and `heartbeat_interval` on a streaming connection: half of the milliseconds committed to. */
  function HeartbeatInterval(t: Timings): Option<Duration> {
    match t.inactivity
    case None => None
    case Some(commitment) => Some(AsMillis(commitment) * MILLI / 2)
  }

  /** On a sound configuration the interval is at most half the commitment, on the wire and as configured. */
  lemma HeartbeatWithinHalf(t: Timings)
    requires Sound(t) && t.inactivity.Some?
    ensures HeartbeatInterval(t).Some? && 2 * HeartbeatInterval(t).value <= AsMillis(t.inactivity.value) * MILLI
    ensures 2 * HeartbeatInterval(t).value <= t.inactivity.value
  {
    assert t.inactivity.value / MILLI <= U64_MAX;
  }

  /**
   * And there is none larger: it is half of the whole milliseconds in the commitment; without one there is no
   * interval.
   */
  lemma HeartbeatIsHalf(t: Timings, millis: nat)
    requires Sound(t)
    ensures HeartbeatInterval(t).None? <==> t.inactivity.None?
    ensures t.inactivity.Some? && millis * 1_000_000 <= t.inactivity.value < (millis + 1) * 1_000_000 ==>
              && AsMillis(t.inactivity.value) == millis
              && forall d: nat :: 2 * d <= millis * 1_000_000 <==> d <= HeartbeatInterval(t).value
  {
  }

  /**
   * A positive commitment does not make a positive interval: one below a millisecond is accepted, goes on the wire as
   * zero, and makes a heartbeat due at every instant. The interval is positive exactly from one millisecond on.
   */
  lemma HeartbeatPositiveExactly(t: Timings)
    requires Build(t).Ok? && t.inactivity.Some?
    ensures HeartbeatInterval(t).value > 0 <==> t.inactivity.value >= 1_000_000
  {
    BuildAcceptsExactlySound(t);
    assert t.inactivity.value / MILLI <= U64_MAX;
  }

  lemma SubMillisecondCommitmentIsAccepted()
    ensures
      var t := Timings(10 * SECOND, 3 * SECOND, None, Some(500_000), RetryPolicy(MILLI, SECOND, None));
      Build(t) == Ok(t) && HeartbeatInterval(t) == Some(0)
  {
  }
}
