/** The "Add Booking" dialog: today's date, the ordered validation of its
    four fields, the start-date picker that pulls the end date along, and
    what a submit posts. */
module AddBookingForm {
  import opened Js
  import opened Pricing

  /** `new Date().toISOString().slice(0, 10)`: the UTC calendar date of the
      clock reading `nowMs`, as a day number. */
  function GetToday(nowMs: int): (today: int)
    ensures DayStartMs(today) <= nowMs < DayStartMs(today + 1)
  {
    nowMs / MsPerDay
  }

  /** The date input starts at the first instant of today. */
  lemma TodayStartsToday(day: int)
    ensures GetToday(DayStartMs(day)) == day
  {
    assert DayStartMs(day) / MsPerDay == day;
  }

  datatype FormError = AllFieldsRequired | StartAfterEnd | StartInPast

  function Message(e: FormError): string
  {
    match e
    case AllFieldsRequired => "All fields are required"
    case StartAfterEnd => "Start date must be before end date"
    case StartInPast => "Start date cannot be in the past"
  }

  predicate AllFilled(clientId: string, vehicleId: string, startDate: DateField, endDate: DateField)
  {
    clientId != "" && vehicleId != "" && startDate.OnDay? && endDate.OnDay?
  }

  /** `validate()`: the first failing check decides the message. A start on
      the end date, and a start on today, are both accepted. */
  function Validate(clientId: string, vehicleId: string, startDate: DateField, endDate: DateField, today: int)
    : (r: Option<FormError>)
    ensures r == Some(AllFieldsRequired) <==> !AllFilled(clientId, vehicleId, startDate, endDate)
    ensures r == Some(StartAfterEnd) <==>
              AllFilled(clientId, vehicleId, startDate, endDate) && startDate.day > endDate.day
    ensures r == Some(StartInPast) <==>
              AllFilled(clientId, vehicleId, startDate, endDate) && startDate.day <= endDate.day &&
              startDate.day < today
    ensures r == None <==>
              AllFilled(clientId, vehicleId, startDate, endDate) && today <= startDate.day <= endDate.day
  {
    if !AllFilled(clientId, vehicleId, startDate, endDate) then Some(AllFieldsRequired)
    else if startDate.day > endDate.day then Some(StartAfterEnd)
    else if startDate.day < today then Some(StartInPast)
    else None
  }

  /** A start in the past that is also after the end is reported as the
      date order, the earlier check. */
  lemma OrderCheckedBeforePast(today: int)
    ensures Validate("c", "v", OnDay(today - 1), OnDay(today - 2), today) == Some(StartAfterEnd)
  {
  }

  /** The body of `POST /bookings`. */
  datatype BookingPost = BookingPost(client: string, vehicle: string, startDate: int, endDate: int)

  const AddFailed: string := "Failed to add booking"
  const AddThrew: string := "Failed to add booking. Please check for overlapping bookings or try again."
  const AddedMessage: string := "Booking added successfully!"

  /** The dialog's state. */
  class BookingForm {
    var clientId: string
    var vehicleId: string
    var startDate: DateField
    var endDate: DateField
    var error: string
    var successMsg: string
    var loading: bool

    /** The dialog opens with the start date on today and the rest empty. */
    constructor (nowMs: int)
      ensures clientId == "" && vehicleId == "" && startDate == OnDay(GetToday(nowMs)) && endDate == NoDate
      ensures error == "" && successMsg == "" && !loading
    {
      clientId := "";
      vehicleId := "";
      startDate := OnDay(GetToday(nowMs));
      endDate := NoDate;
      error := "";
      successMsg := "";
      loading := false;
    }

    /** The start-date input's `onChange`: a start later than the chosen end
        moves the end to it, so the two stay in order. */
    method SetStartDate(v: DateField)
      modifies this
      ensures startDate == v
      ensures endDate == if v.OnDay? && old(endDate).OnDay? && v.day > old(endDate).day then v else old(endDate)
      ensures v.OnDay? && endDate.OnDay? ==> startDate.day <= endDate.day
      ensures clientId == old(clientId) && vehicleId == old(vehicleId)
      ensures error == old(error) && successMsg == old(successMsg) && loading == old(loading)
    {
      startDate := v;
      if v.OnDay? && endDate.OnDay? && v.day > endDate.day {
        endDate := v;
      }
    }

    /** The end-date input's `onChange`. */
    method SetEndDate(v: DateField)
      modifies this
      ensures endDate == v
      ensures clientId == old(clientId) && vehicleId == old(vehicleId) && startDate == old(startDate)
      ensures error == old(error) && successMsg == old(successMsg) && loading == old(loading)
    {
      endDate := v;
    }

    /** `handleSubmit` on the day `today`: an invalid form shows the first
        failing check's message and posts nothing; a valid one posts
        exactly its four fields, and the reply decides the message shown. */
    method Submit(today: int, reply: PostReply) returns (posted: Option<BookingPost>)
      modifies this
      ensures var check := Validate(old(clientId), old(vehicleId), old(startDate), old(endDate), today);
              (check.Some? <==> posted.None?) &&
              (check.Some? ==> error == Message(check.value) && successMsg == "" && loading == old(loading)) &&
              (check.None? ==>
                 posted == Some(BookingPost(old(clientId), old(vehicleId), old(startDate).day, old(endDate).day)) &&
                 !loading)
      ensures posted.Some? && reply.Succeeded? ==> successMsg == AddedMessage && error == ""
      ensures posted.Some? && reply.NotSucceeded? ==> successMsg == "" && error == ErrorText(reply.message, AddFailed)
      ensures posted.Some? && reply.Threw? ==> successMsg == "" && error == ErrorText(reply.message, AddThrew)
      ensures clientId == old(clientId) && vehicleId == old(vehicleId)
      ensures startDate == old(startDate) && endDate == old(endDate)
    {
      error := "";
      successMsg := "";
      var check := Validate(clientId, vehicleId, startDate, endDate, today);
      if check.Some? {
        error := Message(check.value);
        return None;
      }
      loading := true;
      posted := Some(BookingPost(clientId, vehicleId, startDate.day, endDate.day));
      match reply {
        case Succeeded =>
          successMsg := AddedMessage;
        case NotSucceeded(m) =>
          error := ErrorText(m, AddFailed);
        case Threw(m) =>
          error := ErrorText(m, AddThrew);
      }
      loading := false;
    }
  }
}
