/** Expiry status of a licence or an extinguisher, from its expiry date and the current date.
    Dates are calendar days counted from a fixed epoch; the current date is always passed in. */
module Expiry {

  /** A calendar date, as a day number. */
  type Date = int

  /** The four urgency levels shown for a record. */
  datatype Status = Vencido | Urgente | Proximo | Ok

  /** Whole days from `today` until `expiry`; negative once the date has passed. */
  function DaysRemaining(expiry: Date, today: Date): (d: int)
    ensures d < 0 <==> expiry < today
    ensures d == 0 <==> expiry == today
  {
    expiry - today
  }

  /** The status bands: below 0 expired, 0..7 urgent, 8..15 near, above 15 fine.
      The four bands cover every integer and do not overlap. */
  function Classify(days: int): (s: Status)
    ensures s == Vencido <==> days < 0
    ensures s == Urgente <==> 0 <= days <= 7
    ensures s == Proximo <==> 8 <= days <= 15
    ensures s == Ok <==> 15 < days
  {
    if days < 0 then Vencido
    else if days <= 7 then Urgente
    else if days <= 15 then Proximo
    else Ok
  }

  /** The status of a record expiring on `expiry`, seen on `today`. */
  function StatusOf(expiry: Date, today: Date): (s: Status)
    ensures s == Vencido <==> expiry < today
    ensures s == Urgente <==> today <= expiry <= today + 7
    ensures s == Proximo <==> today + 8 <= expiry <= today + 15
    ensures s == Ok <==> today + 15 < expiry
  {
    Classify(DaysRemaining(expiry, today))
  }

  /** A record is expired exactly when its days remaining are negative, and the four
      bands of the status are the four ranges of days remaining. */
  lemma StatusMatchesDaysRemaining(expiry: Date, today: Date)
    ensures StatusOf(expiry, today) == Vencido <==> DaysRemaining(expiry, today) < 0
    ensures StatusOf(expiry, today) in {Urgente, Proximo} <==> 0 <= DaysRemaining(expiry, today) <= 15
    ensures StatusOf(expiry, today) == Ok <==> DaysRemaining(expiry, today) > 15
  {
  }

  /** The boundary days of the bands: -1/0, 7/8 and 15/16. */
  lemma BandBoundaries(today: Date)
    ensures StatusOf(today - 1, today) == Vencido
    ensures StatusOf(today, today) == Urgente
    ensures StatusOf(today + 7, today) == Urgente
    ensures StatusOf(today + 8, today) == Proximo
    ensures StatusOf(today + 15, today) == Proximo
    ensures StatusOf(today + 16, today) == Ok
  {
  }
}
