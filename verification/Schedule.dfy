/** Instants in nanoseconds, the microsecond column they are stored in, and the first fire of a schedule. */
module Schedule {
  import opened Results
  import opened Text

  /** Nanoseconds since the Unix epoch. */
  type Time = int

  const SECOND: int := 1_000_000_000

  /** `OffsetDateTime` holds the years -9999 to 9999. */
  const MIN_TIME: Time := -377_705_116_800 * SECOND
  const MAX_TIME: Time := 253_402_300_800 * SECOND - 1

  predicate Representable(t: Time) {
    MIN_TIME <= t <= MAX_TIME
  }

  function CheckedAddSeconds(t: Time, seconds: int): Option<Time> {
    if Representable(t + seconds * SECOND) then Some(t + seconds * SECOND) else None
  }

  /** A TIMESTAMPTZ column keeps whole microseconds. */
  function Stored(t: Time): Time {
    t - t % 1000
  }

  predicate Aligned(t: Time) {
    t % 1000 == 0
  }

  function StoredOption(t: Option<Time>): Option<Time> {
    match t
    case None => None
    case Some(t) => Some(Stored(t))
  }

  /** Text that should be an RFC 3339 timestamp: the instant it denotes, or text that does not parse. */
  datatype TimeText = Instant(at: Time) | Malformed

  /** Rust's `/` on `i64` truncates toward zero; the dividend here is never negative. */
  function TruncatedQuotient(a: nat, b: int): int
    requires b != 0
  {
    if b > 0 then a / b else -(a / -b)
  }

  function SaturatingSuccessor(n: int): int {
    if n >= I64_MAX then I64_MAX else n + 1
  }

  function CheckedProduct(a: int, b: int): Option<int> {
    InI64(a * b)
  }

  /** The first fire of an enabled schedule, `now` being the process clock.
      A zero interval panics on division in the source, which drops the transaction. */
  function FirstFire(interval: int, startAt: Option<TimeText>, now: Time): Result<Time> {
    match startAt
    case None => OrInvalid(CheckedAddSeconds(now, interval))
    case Some(Malformed) => Err(InvalidRequest)
    case Some(Instant(start)) =>
      if start > now then Ok(start)
      else if interval == 0 then Err(Runtime)
      else
        var elapsedIntervals := TruncatedQuotient((now - start) / SECOND, interval);
        match CheckedProduct(interval, SaturatingSuccessor(elapsedIntervals))
        case None => Err(InvalidRequest)
        case Some(seconds) => OrInvalid(CheckedAddSeconds(start, seconds))
  }

  function OrInvalid(t: Option<Time>): Result<Time> {
    match t
    case None => Err(InvalidRequest)
    case Some(t) => Ok(t)
  }

  /** The k-th slot of a schedule that starts at `start`. */
  function Slot(start: Time, interval: int, k: int): Time {
    start + (k * interval) * SECOND
  }

  /** The validator's bounds: one minute to one year. */
  predicate ValidInterval(interval: int) {
    60 <= interval <= 31_536_000
  }

  lemma Quotient(a: nat, b: int) returns (q: nat)
    requires b > 0
    ensures q == TruncatedQuotient(a, b) && q <= a
    ensures q * b <= a < q * b + b
    ensures b * (q + 1) == (q + 1) * b == q * b + b
  {
    q := a / b;
    QuotientBounds(a, b, q);
    Successor(q, b);
  }

  lemma QuotientBounds(a: nat, b: int, q: int)
    requires b > 0 && q == a / b
    ensures 0 <= q <= a && q * b <= a < q * b + b
  {
    assert a == b * q + a % b;
    assert q <= b * q by { AtLeast(q, b); }
  }

  lemma AtLeast(q: int, b: int)
    requires b > 0
    ensures q >= 0 ==> q <= b * q
    ensures q < 0 ==> b * q < 0
  {
    if q >= 0 {
      assert b * q == q + (b - 1) * q;
    }
  }

  lemma Successor(q: int, b: int)
    ensures b * (q + 1) == (q + 1) * b == q * b + b
  {
  }

  /** The arithmetic behind the lemmas below, with every checked or saturating operation resolved. */
  lemma FirstFireFromPast(interval: int, start: Time, now: Time) returns (slot: nat)
    requires ValidInterval(interval) && Representable(start) && Representable(now) && start <= now
    ensures FirstFire(interval, Some(Instant(start)), now)
            == OrInvalid(if Representable(Slot(start, interval, slot)) then Some(Slot(start, interval, slot)) else None)
    ensures slot > 0 && Slot(start, interval, slot - 1) <= now < Slot(start, interval, slot)
  {
    var elapsed := (now - start) / SECOND;
    var q := Quotient(elapsed, interval);
    slot := q + 1;
    ghost var n := q * interval;
    assert CheckedProduct(interval, SaturatingSuccessor(q)) == Some(n + interval);
    assert Slot(start, interval, slot) == start + (n + interval) * SECOND;
    assert Slot(start, interval, slot - 1) == start + n * SECOND;
  }

  lemma SlotsAreOrdered(start: Time, interval: int, j: int, k: int)
    requires interval > 0 && j <= k
    ensures Slot(start, interval, j) <= Slot(start, interval, k)
  {
    assert j * interval <= k * interval;
  }

  /** Without a start the first fire is one interval from now. */
  lemma FirstFireFromNow(interval: int, now: Time, t: Time)
    ensures FirstFire(interval, None, now) == Ok(t) <==> t == now + interval * SECOND && Representable(t)
    ensures FirstFire(interval, None, now).Err? ==> FirstFire(interval, None, now) == Err(InvalidRequest)
  {
  }

  /** A future start is itself the first fire. */
  lemma FirstFireOfFutureStart(interval: int, start: Time, now: Time)
    requires start > now
    ensures FirstFire(interval, Some(Instant(start)), now) == Ok(start)
  {
  }

  /** For a past start the first fire is the least slot after `now`, although the elapsed time is
      cut to whole seconds before it is divided; and neither the product nor the successor overflows,
      so the only failure is a slot past the last representable instant. */
  lemma FirstFireIsLeastFutureSlot(interval: int, start: Time, now: Time, t: Time)
    requires ValidInterval(interval) && Representable(start) && Representable(now) && start <= now
    ensures FirstFire(interval, Some(Instant(start)), now) == Ok(t)
            <==> && Representable(t)
                 && IsSlot(start, interval, t) && now < t
                 && (forall u :: IsSlot(start, interval, u) && now < u ==> t <= u)
    ensures FirstFire(interval, Some(Instant(start)), now) == Ok(t) ==> t <= now + interval * SECOND
    ensures FirstFire(interval, Some(Instant(start)), now).Err?
            ==> FirstFire(interval, Some(Instant(start)), now).failure.InvalidRequest?
  {
    var slot := FirstFireFromPast(interval, start, now);
    var first := Slot(start, interval, slot);
    assert IsSlot(start, interval, first);
    forall u | IsSlot(start, interval, u) && now < u ensures first <= u {
      var k: nat :| u == Slot(start, interval, k);
      if k < slot {
        SlotsAreOrdered(start, interval, k, slot - 1);
      } else {
        SlotsAreOrdered(start, interval, slot, k);
      }
    }
    assert first == Slot(start, interval, slot - 1) + interval * SECOND by {
      assert slot * interval == (slot - 1) * interval + interval;
    }
  }

  ghost predicate IsSlot(start: Time, interval: int, t: Time) {
    exists k: nat :: t == Slot(start, interval, k)
  }

  /** The instant a schedule first fires at: one interval from now without a start, at a start still to come, and at
      the least slot after now once it has started. */
  ghost predicate IsFirstFire(interval: int, startAt: Option<TimeText>, now: Time, t: Time) {
    match startAt
    case None => t == now + interval * SECOND
    case Some(Malformed) => false
    case Some(Instant(start)) =>
      if now < start then t == start
      else IsSlot(start, interval, t) && now < t && forall u :: IsSlot(start, interval, u) && now < u ==> t <= u
  }

  /** A valid schedule has that first fire if the instant can be represented, and else none. */
  lemma FirstFireIff(interval: int, startAt: Option<TimeText>, now: Time, t: Time)
    requires ValidInterval(interval) && Representable(now) && Representable(Base(startAt, now))
    ensures FirstFire(interval, startAt, now) == Ok(t) <==> Representable(t) && IsFirstFire(interval, startAt, now, t)
    ensures FirstFire(interval, startAt, now).Err? ==> FirstFire(interval, startAt, now) == Err(InvalidRequest)
  {
    hide IsSlot, Representable;
    match startAt
    case None => FirstFireFromNow(interval, now, t);
    case Some(Malformed) =>
    case Some(Instant(start)) =>
      if now < start {
        FirstFireOfFutureStart(interval, start, now);
      } else {
        FirstFireIsLeastFutureSlot(interval, start, now, t);
      }
  }

  lemma WholeSecondsKeepAlignment(t: Time, seconds: int)
    ensures Aligned(t + seconds * SECOND) <==> Aligned(t)
  {
    assert t + seconds * SECOND == t + (seconds * 1_000_000) * 1000;
    MultipleOf1000(t, seconds * 1_000_000);
  }

  lemma MultipleOf1000(t: int, m: int)
    ensures (t + m * 1000) % 1000 == t % 1000
  {
  }

  /** The instant a first fire is counted from. */
  function Base(startAt: Option<TimeText>, now: Time): Time {
    if startAt.Some? && startAt.value.Instant? then startAt.value.at else now
  }

  /** Storage keeps the fire time exactly when the instant it was counted from is microsecond-aligned. */
  lemma FirstFireAligned(interval: int, startAt: Option<TimeText>, now: Time)
    requires ValidInterval(interval) && Representable(now) && Representable(Base(startAt, now))
    requires FirstFire(interval, startAt, now).Ok?
    ensures Stored(FirstFire(interval, startAt, now).value) == FirstFire(interval, startAt, now).value
            <==> Aligned(Base(startAt, now))
  {
    var base := Base(startAt, now);
    var seconds := 0;
    if startAt.None? {
      seconds := interval;
    } else if base <= now {
      var slot := FirstFireFromPast(interval, base, now);
      seconds := slot * interval;
    }
    WholeSecondsKeepAlignment(base, seconds);
  }
}
