/** The peak-hours classifier of the dashboard (track.js, isPeakHours).

    A timestamp is a count of milliseconds of LOCAL time since the epoch, so
    that a calendar day is a run of exactly MsPerDay milliseconds starting at a
    multiple of MsPerDay. `Date.setHours(h, m, s, ms)` keeps the calendar day of
    its receiver and replaces the time of day; here it is SetHours. */
module PeakHours {

  type Timestamp = int

  const MsPerSecond: nat := 1000
  const MsPerMinute: nat := 60 * MsPerSecond
  const MsPerHour: nat := 60 * MsPerMinute
  const MsPerDay: nat := 24 * MsPerHour

  /** Hour at which peak hours start (inclusive) and end (exclusive). */
  const PeakStartHour: nat := 10
  const PeakEndHour: nat := 18

  /** Milliseconds since midnight of the clock reading h:m:s.ms. */
  function ClockTime(h: nat, m: nat, s: nat, ms: nat): nat
  {
    h * MsPerHour + m * MsPerMinute + s * MsPerSecond + ms
  }

  /** Milliseconds elapsed since local midnight of t's calendar day. */
  function TimeOfDay(t: Timestamp): (r: nat)
    ensures r < MsPerDay
    ensures (t - r) % MsPerDay == 0
  {
    t % MsPerDay
  }

  /** The first instant of t's calendar day. */
  function DayStart(t: Timestamp): (r: Timestamp)
    ensures r <= t < r + MsPerDay
    ensures r % MsPerDay == 0
  {
    t - TimeOfDay(t)
  }

  /** `new Date(t)` followed by `setHours(h, m, s, ms)`: same day as t, clock reading h:m:s.ms. */
  function SetHours(t: Timestamp, h: nat, m: nat, s: nat, ms: nat): (r: Timestamp)
    ensures ClockTime(h, m, s, ms) < MsPerDay ==>
              DayStart(r) == DayStart(t) && TimeOfDay(r) == ClockTime(h, m, s, ms)
  {
    DayStart(t) + ClockTime(h, m, s, ms)
  }

  /** isPeakHours(now): now lies between 10:00:00.000 and 18:00:00.000 of its own day. */
  function IsPeakHours(now: Timestamp): bool
  {
    var startPeak := SetHours(now, PeakStartHour, 0, 0, 0);
    var endPeak := SetHours(now, PeakEndHour, 0, 0, 0);
    now >= startPeak && now < endPeak
  }

  /** The classifier is exactly the half-open time-of-day window [10:00, 18:00). */
  lemma PeakHoursWindow(now: Timestamp)
    ensures IsPeakHours(now) <==>
              ClockTime(PeakStartHour, 0, 0, 0) <= TimeOfDay(now) < ClockTime(PeakEndHour, 0, 0, 0)
  {
  }

  /** The timestamp of clock reading `tod` on calendar day `day`. */
  function At(day: int, tod: nat): (t: Timestamp)
    requires tod < MsPerDay
    ensures TimeOfDay(t) == tod
    ensures DayStart(t) == day * MsPerDay
  {
    day * MsPerDay + tod
  }

  /** On any day, 10:00:00.000 is peak and 18:00:00.000 is not; the instants
      just around the two boundaries fall on the expected sides. */
  lemma PeakBoundaries(day: int)
    ensures IsPeakHours(At(day, ClockTime(10, 0, 0, 0)))
    ensures !IsPeakHours(At(day, ClockTime(9, 59, 59, 999)))
    ensures IsPeakHours(At(day, ClockTime(17, 59, 59, 999)))
    ensures !IsPeakHours(At(day, ClockTime(18, 0, 0, 0)))
  {
    PeakHoursWindow(At(day, ClockTime(10, 0, 0, 0)));
    PeakHoursWindow(At(day, ClockTime(9, 59, 59, 999)));
    PeakHoursWindow(At(day, ClockTime(17, 59, 59, 999)));
    PeakHoursWindow(At(day, ClockTime(18, 0, 0, 0)));
  }

  /** The classification depends only on the time of day: it repeats every day. */
  lemma PeakHoursDaily(now: Timestamp, days: int)
    ensures IsPeakHours(now + days * MsPerDay) == IsPeakHours(now)
  {
    var tod := TimeOfDay(now);
    var day := DayStart(now) / MsPerDay;
    assert now == At(day, tod);
    assert now + days * MsPerDay == (day + days) * MsPerDay + tod;
    assert now + days * MsPerDay == At(day + days, tod);
    PeakHoursWindow(now);
    PeakHoursWindow(now + days * MsPerDay);
  }
}
