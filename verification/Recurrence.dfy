/** Relative and fixed-rate deadlines (`src/domain/recurrence.rs`). */
module Recurrence {
  import opened Wrappers
  import opened Primitives

  datatype DeadlineError = Overflow

  function CheckedI128(value: int): (r: Option<int>) {
    if I128_MIN <= value <= I128_MAX then Some(value) else None
  }

  function ToTimestamp(value: int): (r: Result<UtcTimestamp, DeadlineError>) {
    if MIN_TIMESTAMP <= value <= MAX_TIMESTAMP then Ok(value) else Err(Overflow)
  }

  /** The next occurrence after `now`. The checks follow the source's order; the periods
      division never sees a zero divisor or a negative dividend. */
  function NextFixedRateUtc(anchor: UtcTimestamp, now: UtcTimestamp, interval: DurationSeconds)
    : (r: Result<UtcTimestamp, DeadlineError>)
  {
    if now < anchor then Ok(anchor) else
      match CheckedI128(interval * NANOS_PER_SECOND)
      case None => Err(Overflow)
      case Some(step) =>
        match CheckedI128(now - anchor)
        case None => Err(Overflow)
        case Some(elapsed) =>
          match CheckedI128(elapsed / step + 1)
          case None => Err(Overflow)
          case Some(periods) =>
            match CheckedI128(periods * step)
            case None => Err(Overflow)
            case Some(offset) =>
              match CheckedI128(anchor + offset)
              case None => Err(Overflow)
              case Some(next) => ToTimestamp(next)
  }

  function CheckedAddSeconds(at: ElapsedInstant, duration: DurationSeconds)
    : (r: Result<ElapsedInstant, DeadlineError>)
  {
    var nanos := duration * NANOS_PER_SECOND;
    if nanos <= U128_MAX && at + nanos <= U128_MAX then Ok(at + nanos) else Err(Overflow)
  }

  datatype RelativeDeadline = RelativeDeadline(elapsedDue: ElapsedInstant, persistedDue: UtcTimestamp)

  function RelativeDeadlineFrom(wallNow: UtcTimestamp, elapsedNow: ElapsedInstant, duration: DurationSeconds)
    : (r: Result<RelativeDeadline, DeadlineError>)
  {
    match ToTimestamp(wallNow + duration * NANOS_PER_SECOND)
    case Err(e) => Err(e)
    case Ok(due) =>
      match CheckedAddSeconds(elapsedNow, duration)
      case Err(e) => Err(e)
      case Ok(elapsed) => Ok(RelativeDeadline(elapsed, due))
  }

  /** `t` is the anchor or lies a whole number of intervals after it. */
  ghost predicate OnGrid(anchor: int, interval: DurationSeconds, t: int) {
    exists k: nat :: t == anchor + k * (interval * NANOS_PER_SECOND)
  }

  /** The exact value when nothing overflows, written without machine arithmetic. */
  ghost function LeastOccurrence(anchor: int, now: int, interval: DurationSeconds): (r: int) {
    if now < anchor then anchor
    else anchor + ((now - anchor) / (interval * NANOS_PER_SECOND) + 1) * (interval * NANOS_PER_SECOND)
  }

  lemma Distribute(a: int, b: int, step: int)
    ensures (a + b) * step == a * step + b * step
  {}

  lemma ProductAtLeast(a: nat, step: int)
    requires 1 <= step
    ensures a <= a * step
  {}

  lemma DivisionBounds(n: int, step: int)
    requires 0 <= n && 0 < step
    ensures 0 <= n / step <= n
    ensures n / step * step <= n < (n / step + 1) * step
  {
    var q, r := n / step, n % step;
    assert n == step * q + r;
    assert 0 <= q;
    ProductAtLeast(q, step);
    Distribute(q, 1, step);
  }

  lemma MultipleOrder(a: nat, b: nat, step: int)
    requires 0 < step
    ensures a * step < b * step <==> a < b
  {
    Distribute(a, b - a, step);
    if a < b { ProductAtLeast(b - a, step); } else { Distribute(b, a - b, step); ProductAtLeast(a - b, step); }
  }

  /** `LeastOccurrence` is the least grid point strictly after `now`. */
  lemma LeastOccurrenceIsLeast(anchor: int, now: int, interval: DurationSeconds)
    ensures OnGrid(anchor, interval, LeastOccurrence(anchor, now, interval))
    ensures now < LeastOccurrence(anchor, now, interval)
    ensures forall t :: OnGrid(anchor, interval, t) && now < t ==> LeastOccurrence(anchor, now, interval) <= t
  {
    var step := interval * NANOS_PER_SECOND;
    var least := LeastOccurrence(anchor, now, interval);
    if now < anchor {
      assert least == anchor + 0 * step;
      forall t | OnGrid(anchor, interval, t) && now < t ensures least <= t {
        var k: nat :| t == anchor + k * step;
        MultipleOrder(k, 0, step);
      }
    } else {
      var periods := (now - anchor) / step;
      DivisionBounds(now - anchor, step);
      assert least == anchor + (periods + 1) * step;
      forall t | OnGrid(anchor, interval, t) && now < t ensures least <= t {
        var k: nat :| t == anchor + k * step;
        MultipleOrder(periods, k, step);
        MultipleOrder(k, periods + 1, step);
      }
    }
  }

  /** For timestamps in range no intermediate check can fire: the call fails exactly when the
      next occurrence itself is past the last representable instant. */
  lemma OnlyTheFinalConversionFails(anchor: UtcTimestamp, now: UtcTimestamp, interval: DurationSeconds)
    ensures NextFixedRateUtc(anchor, now, interval)
         == ToTimestamp(LeastOccurrence(anchor, now, interval))
    ensures NextFixedRateUtc(anchor, now, interval).Err?
       <==> LeastOccurrence(anchor, now, interval) > MAX_TIMESTAMP
  {
    var step := interval * NANOS_PER_SECOND;
    if anchor <= now {
      DivisionBounds(now - anchor, step);
      var periods := (now - anchor) / step + 1;
      assert periods * step == (now - anchor) / step * step + step;
    }
  }

  /** What a successful call returns, and exactly when it succeeds: it is the least grid point
      strictly after `now`. */
  lemma NextIsLeastAfterNow(anchor: UtcTimestamp, now: UtcTimestamp, interval: DurationSeconds, next: UtcTimestamp)
    ensures NextFixedRateUtc(anchor, now, interval) == Ok(next)
       <==> (OnGrid(anchor, interval, next) && now < next
             && forall t :: OnGrid(anchor, interval, t) && now < t ==> next <= t)
  {
    OnlyTheFinalConversionFails(anchor, now, interval);
    LeastOccurrenceIsLeast(anchor, now, interval);
  }

  /** Later clocks never give an earlier occurrence, and a later clock that succeeds implies that
      an earlier one does. */
  lemma NextIsMonotone(anchor: UtcTimestamp, early: UtcTimestamp, late: UtcTimestamp, interval: DurationSeconds)
    requires early <= late
    requires NextFixedRateUtc(anchor, late, interval).Ok?
    ensures NextFixedRateUtc(anchor, early, interval).Ok?
    ensures NextFixedRateUtc(anchor, early, interval).value <= NextFixedRateUtc(anchor, late, interval).value
  {
    OnlyTheFinalConversionFails(anchor, early, interval);
    OnlyTheFinalConversionFails(anchor, late, interval);
    LeastOccurrenceIsLeast(anchor, early, interval);
    LeastOccurrenceIsLeast(anchor, late, interval);
  }

  /** A relative deadline keeps both clocks in step: it fails only when one of them would leave its
      range, and otherwise both move by the same number of nanoseconds. */
  lemma RelativeDeadlineMovesBothClocks(wallNow: UtcTimestamp, elapsedNow: ElapsedInstant, duration: DurationSeconds)
    ensures var r := RelativeDeadlineFrom(wallNow, elapsedNow, duration);
      && (r.Ok? <==> wallNow + duration * NANOS_PER_SECOND <= MAX_TIMESTAMP
                     && elapsedNow + duration * NANOS_PER_SECOND <= U128_MAX)
      && (r.Ok? ==> r.value.persistedDue - wallNow == r.value.elapsedDue - elapsedNow
                    == duration * NANOS_PER_SECOND)
  {}
}
