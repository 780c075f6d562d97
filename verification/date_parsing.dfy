/** How the handlers turn a stored `YYYY-MM-DD` expiry date into a day count, instant by
    instant: the date-only string is read as midnight UTC, and that instant is then cut back
    to midnight of its LOCAL calendar day. `today` is midnight of the local current day. */
module DateParsing {
  import opened Expiry

  const MinutesPerDay: int := 1440

  /** The local calendar day of an instant (minutes since the epoch, UTC) in a zone
      `offset` minutes ahead of UTC. */
  function LocalDay(instant: int, offset: int): Date {
    (instant + offset) / MinutesPerDay
  }

  /** Days remaining as the code computes them: the expiry string parsed as UTC midnight,
      truncated to its local day, minus the local current day. */
  function DaysRemainingAsWritten(expiry: Date, today: Date, offset: int): (d: int)
    ensures 0 <= offset ==> DaysRemaining(expiry, today) <= d
    ensures offset < 0 ==> d < DaysRemaining(expiry, today)
  {
    LocalDay(expiry * MinutesPerDay, offset) - today
  }

  /** East of UTC (or at UTC) the code counts calendar days correctly. */
  lemma AsWrittenEastOfUtc(expiry: Date, today: Date, offset: int)
    requires 0 <= offset < MinutesPerDay
    ensures DaysRemainingAsWritten(expiry, today, offset) == DaysRemaining(expiry, today)
  {
  }

  /** West of UTC the code counts one day fewer than the calendar does. */
  lemma AsWrittenWestOfUtc(expiry: Date, today: Date, offset: int)
    requires -MinutesPerDay < offset < 0
    ensures DaysRemainingAsWritten(expiry, today, offset) == DaysRemaining(expiry, today) - 1
  {
    var n := expiry * MinutesPerDay + offset;
    assert (expiry - 1) * MinutesPerDay <= n < expiry * MinutesPerDay;
  }

  /** At UTC-3, on its own expiry day a record is reported expired, where the calendar count
      (zero days left) makes it urgent. */
  lemma ExpiryDayReportedExpired(today: Date)
    ensures Classify(DaysRemainingAsWritten(today, today, -180)) == Vencido
    ensures StatusOf(today, today) == Urgente
  {
    AsWrittenWestOfUtc(today, today, -180);
  }
}
