/** The stand-alone booking details component of BookingDetailsModal.tsx:
    its day count, its total with a missing vehicle's rate read as 0, the
    "day"/"days" label and the status badge. No screen imports this
    component; the booking table opens its own dialog instead
    (BookingManagement.ViewDetails). */
module BookingDetails {
  import opened Js
  import opened Pricing
  import opened BookingManagement

  /** `(booking.vehicle?.dailyRate ?? 0) * days`, with `days` the rounded-up
      whole days between start and end. */
  function DetailsTotal(b: Booking): (total: int)
    ensures b.vehicle.None? ==> total == 0
    ensures b.vehicle.Some? && b.vehicle.value.dailyRate >= 0 ==> total >= 0
  {
    (if b.vehicle.Some? then b.vehicle.value.dailyRate else 0) * CalculateDays(b.startMs, b.endMs)
  }

  /** This component's amount is the corrected row amount, and it agrees
      with the table row whenever the row's amount is a number. */
  lemma DetailsMatchesRow(b: Booking)
    ensures DetailsTotal(b) == RowTotal(b)
    ensures RowTotalAsWritten(b).Num? ==> RowTotalAsWritten(b) == Num(DetailsTotal(b) as real)
  {
  }

  /** `day{days > 1 && "s"}`. */
  function DayLabel(days: nat): (unit: string)
    ensures unit == "days" <==> days > 1
    ensures unit == "day" <==> days <= 1
  {
    if days > 1 then "days" else "day"
  }

  /** This component and the table agree on the label except for a
      zero-day booking, which the component calls "0 day" and the table
      (like its own dialog) "0 days". */
  lemma LabelsDifferOnlyAtZero(days: nat)
    ensures DayLabel(days) == RowDayUnit(days) <==> days != 0
  {
  }

  /** The badge of a status given as text: "Active" green, "Completed"
      grey, and any other text red. */
  function Badge(status: string): (color: BadgeColor)
    ensures color == Green <==> status == "Active"
    ensures color == Gray <==> status == "Completed"
  {
    if status == "Active" then Green
    else if status == "Completed" then Gray
    else Red
  }

  /** For the three statuses the dialog's badge is the table's. */
  lemma BadgeMatchesTable(status: BookingStatus)
    ensures Badge(status.Name()) == StatusColor(status)
  {
  }

  /** Text other than the three exact names, such as a lower-case
      "active", is shown red. */
  lemma LowerCaseStatusIsRed()
    ensures Badge("active") == Red
  {
  }
}
