/** The start of the look-back window that every indicator asks the quote
    provider for: `from = now - period * unit`, where the watcher's interval
    selects a unit of one day, one week (7 days) or one month (30 days).
    Times are milliseconds since the epoch; the wall clock is a parameter. */
module Window {

  const MsPerDay: int := 24 * 60 * 60 * 1000

  /** The largest magnitude a JavaScript Date may hold (100 000 000 days);
      outside it `new Date(t)` is an invalid date. */
  const MaxTimeValue: int := 8_640_000_000_000_000

  /** What `from` holds when the history is requested.
      Undefined: the interval is none of 'd', 'w' and 'm', so no branch
      assigns the hoisted variable.
      InvalidDate: the offset or the start lies outside the Date range. */
  datatype From = Start(ms: int) | Undefined | InvalidDate

  predicate KnownInterval(interval: string)
  {
    interval == "d" || interval == "w" || interval == "m"
  }

  function UnitDays(interval: string): (days: nat)
    requires KnownInterval(interval)
    ensures days in {1, 7, 30}
  {
    if interval == "d" then 1 else if interval == "w" then 7 else 30
  }

  /** A time value a Date can hold. */
  predicate IsTimeValue(t: int)
  {
    -MaxTimeValue <= t <= MaxTimeValue
  }

  /** The window start of app.js:105-110. The offset `period * unit` is
      first wrapped in a Date, so it must itself be a valid time value, and
      so must the difference. */
  function WindowStart(interval: string, period: int, now: int): (from: From)
    requires IsTimeValue(now)
    ensures from.Undefined? <==> !KnownInterval(interval)
    ensures from.Start? ==> now - from.ms == period * UnitDays(interval) * MsPerDay
    ensures from.Start? ==> IsTimeValue(from.ms)
    ensures from.Start? <==> (KnownInterval(interval)
                              && IsTimeValue(period * UnitDays(interval) * MsPerDay)
                              && IsTimeValue(now - period * UnitDays(interval) * MsPerDay))
  {
    if !KnownInterval(interval) then Undefined
    else
      var span := period * UnitDays(interval) * MsPerDay;
      if IsTimeValue(span) && IsTimeValue(now - span) then Start(now - span) else InvalidDate
  }

  /** A non-negative period never starts the window after now, and a longer
      period starts it no later than a shorter one. */
  lemma WindowOrdered(interval: string, p: int, q: int, now: int)
    requires IsTimeValue(now)
    requires 0 <= p <= q
    requires WindowStart(interval, p, now).Start? && WindowStart(interval, q, now).Start?
    ensures WindowStart(interval, q, now).ms <= WindowStart(interval, p, now).ms <= now
  {
  }

  /** A week is seven days and a month thirty, whatever the period. */
  lemma UnitsInDays(period: int, now: int)
    requires IsTimeValue(now)
    ensures WindowStart("w", period, now) == WindowStart("d", 7 * period, now)
    ensures WindowStart("m", period, now) == WindowStart("d", 30 * period, now)
  {
  }

  /** Any period of up to 100 000 units, asked for at a non-negative time,
      gives a window start. */
  lemma WindowDefined(interval: string, period: int, now: int)
    requires KnownInterval(interval)
    requires 0 <= period <= 100_000
    requires 0 <= now <= MaxTimeValue
    ensures WindowStart(interval, period, now).Start?
  {
  }
}
