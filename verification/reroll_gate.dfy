/** The scheduled reroll of `load_cache`: a load turns into a fresh
    randomization once the configured number of hours has passed since the
    last one. Instants are whole seconds since the Unix epoch. */
module RerollGate {
  import opened Wrappers
  import opened Themes

  /** Days from 1970-01-01 to the given day of the proleptic Gregorian
      calendar (month 1 to 12); negative before the epoch. */
  function DaysFromCivil(year: int, month: int, day: int): int
    requires 1 <= month <= 12 && 1 <= day <= 31
  {
    var y := if month <= 2 then year - 1 else year;
    var era := y / 400;
    var yearOfEra := y - era * 400;
    var shiftedMonth := if month > 2 then month - 3 else month + 9;
    var dayOfYear := (153 * shiftedMonth + 2) / 5 + day - 1;
    var dayOfEra := yearOfEra * 365 + yearOfEra / 4 - yearOfEra / 100 + dayOfYear;
    era * 146097 + dayOfEra - 719468
  }

  /** The range of a UTC date-time in chrono: 1 January of year -262143 to the
      last second of year 262142 (`DateRangeFromCalendar`). */
  const MinUtc: int := -8334601228800
  const MaxUtc: int := 8210266876799
  type Timestamp = t: int | MinUtc <= t <= MaxUtc

  /** Rust's `i64::MAX`. */
  const I64Max: int := 0x7FFF_FFFF_FFFF_FFFF

  /** The largest whole-second span chrono's `TimeDelta` can hold: `i64::MAX`
      milliseconds. */
  const MaxDeltaSeconds: int := I64Max / 1000

  /** The range bounds are the first and last second of chrono's first and
      last representable days, counted from the Unix epoch. */
  lemma DateRangeFromCalendar()
    ensures DaysFromCivil(1970, 1, 1) == 0
    ensures MinUtc == DaysFromCivil(-262143, 1, 1) * 86400
    ensures MaxUtc == DaysFromCivil(262142, 12, 31) * 86400 + 86399
  {
  }

  /** `TimeDelta::new(secs, 0)`: `None` outside the representable span. */
  function TimeDeltaNew(secs: int): Option<int> {
    if -MaxDeltaSeconds <= secs <= MaxDeltaSeconds then Some(secs) else None
  }

  /** `checked_add_signed`: `None` when the sum leaves the date-time range. */
  function CheckedAdd(t: Timestamp, delta: int): Option<Timestamp> {
    if MinUtc <= t + delta <= MaxUtc then Some(t + delta) else None
  }

  /** The product `hours * 3600` is only computed for positive hours, and
      must then fit in an `i32`. */
  predicate GateDefined(hours: I32) {
    hours <= 0 || hours * 3600 <= I32Max
  }

  /** The gate as the source chains it: positive hours, a representable
      interval, a representable cutoff, and a cutoff strictly before now. */
  function ShouldReroll(hours: I32, last: Timestamp, now: Timestamp): (b: bool)
    requires GateDefined(hours)
    ensures hours <= 0 ==> !b
  {
    if hours <= 0 then false
    else match TimeDeltaNew(hours * 3600)
      case None => false
      case Some(delta) =>
        match CheckedAdd(last, delta)
        case None => false
        case Some(cutoff) => cutoff < now
  }

  /** The gate in closed form: it opens exactly when hours are positive and
      now lies strictly after `last` plus that many hours. An interval whose
      cutoff overflows the date-time range never opens it, which agrees with
      the closed form because no representable `now` lies beyond that range. */
  lemma ShouldRerollIff(hours: I32, last: Timestamp, now: Timestamp)
    requires GateDefined(hours)
    ensures ShouldReroll(hours, last, now) <==> hours > 0 && last + hours * 3600 < now
  {
  }

  /** The comparison is strict: exactly at the cutoff nothing happens, one
      second later the gate is open. */
  lemma CutoffIsExclusive(hours: I32, last: Timestamp)
    requires hours > 0 && GateDefined(hours)
    requires last + hours * 3600 < MaxUtc
    ensures !ShouldReroll(hours, last, last + hours * 3600)
    ensures ShouldReroll(hours, last, last + hours * 3600 + 1)
  {
  }

  /** A cutoff beyond the date-time range keeps the gate shut for every now. */
  lemma OverflowNeverRerolls(hours: I32, last: Timestamp, now: Timestamp)
    requires hours > 0 && GateDefined(hours)
    requires last + hours * 3600 > MaxUtc
    ensures !ShouldReroll(hours, last, now)
  {
  }

  /** Once open the gate stays open as time moves on. */
  lemma GateMonotoneInNow(hours: I32, last: Timestamp, now: Timestamp, later: Timestamp)
    requires GateDefined(hours) && now <= later
    requires ShouldReroll(hours, last, now)
    ensures ShouldReroll(hours, last, later)
  {
  }
}
