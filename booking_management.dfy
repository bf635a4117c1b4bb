/** The booking list screen: its search and status filter, the status
    drop-down and delete on each row, the amount shown on a row, and the
    inline "Create New Booking" form with its summary. */
module BookingManagement {
  import opened Js
  import opened Text
  import opened Lists
  import opened Pricing

  datatype BookingStatus = Active | Completed | Cancelled
  {
    /** The status as the API and the table show it. */
    function Name(): string
    {
      match this
      case Active => "Active"
      case Completed => "Completed"
      case Cancelled => "Cancelled"
    }
  }

  datatype ClientInfo = ClientInfo(id: string, fullName: string, phone: string, address: Option<string>)

  datatype VehicleInfo = VehicleInfo(
    id: string, make: string, model: string, licensePlate: string, dailyRate: int, color: Option<string>)

  /** A booking as the list receives it, with its client and vehicle
      populated (either may be missing). Timestamps are in milliseconds. */
  datatype Booking = Booking(
    id: string,
    client: Option<ClientInfo>,
    vehicle: Option<VehicleInfo>,
    startMs: int,
    endMs: int,
    status: BookingStatus,
    createdAtMs: int)

  // ---------------------------------------------------------------------
  // Search and status filter
  // ---------------------------------------------------------------------

  function ClientName(b: Booking): string
  {
    if b.client.Some? then b.client.value.fullName else ""
  }

  function VehicleMake(b: Booking): string
  {
    if b.vehicle.Some? then b.vehicle.value.make else ""
  }

  function VehicleModel(b: Booking): string
  {
    if b.vehicle.Some? then b.vehicle.value.model else ""
  }

  function VehiclePlate(b: Booking): string
  {
    if b.vehicle.Some? then b.vehicle.value.licensePlate else ""
  }

  /** The lower-cased search term occurs in the lower-cased client name,
      make, model or plate; a missing field counts as empty. */
  predicate MatchesSearch(b: Booking, searchTerm: string)
  {
    var term := Lower(searchTerm);
    Contains(Lower(ClientName(b)), term) || Contains(Lower(VehicleMake(b)), term) ||
    Contains(Lower(VehicleModel(b)), term) || Contains(Lower(VehiclePlate(b)), term)
  }

  datatype StatusFilter = AllStatuses | OnlyStatus(status: BookingStatus)

  predicate MatchesStatus(b: Booking, statusFilter: StatusFilter)
  {
    statusFilter.AllStatuses? || b.status == statusFilter.status
  }

  function Shown(searchTerm: string, statusFilter: StatusFilter): Booking -> bool
  {
    (b: Booking) => MatchesSearch(b, searchTerm) && MatchesStatus(b, statusFilter)
  }

  /** `filteredBookings`. */
  function FilteredBookings(bookings: seq<Booking>, searchTerm: string, statusFilter: StatusFilter): seq<Booking>
  {
    Filter(bookings, Shown(searchTerm, statusFilter))
  }

  /** A booking is listed iff it is in the list and matches both the search
      and the status filter; the listed bookings keep their order. */
  lemma FilteredBookingsSpec(bookings: seq<Booking>, searchTerm: string, statusFilter: StatusFilter, b: Booking)
    ensures b in FilteredBookings(bookings, searchTerm, statusFilter) <==>
              b in bookings && MatchesSearch(b, searchTerm) && MatchesStatus(b, statusFilter)
    ensures IsSubsequence(FilteredBookings(bookings, searchTerm, statusFilter), bookings)
  {
    FilterMember(bookings, Shown(searchTerm, statusFilter), b);
    FilterIsSubsequence(bookings, Shown(searchTerm, statusFilter));
  }

  /** An empty search with "All Status" lists every booking. */
  lemma EmptySearchListsAll(bookings: seq<Booking>)
    ensures FilteredBookings(bookings, "", AllStatuses) == bookings
  {
    LowerEmpty();
    forall i | 0 <= i < |bookings| ensures Shown("", AllStatuses)(bookings[i]) {
      ContainsEmpty(Lower(ClientName(bookings[i])));
    }
    FilterAll(bookings, Shown("", AllStatuses));
  }

  // ---------------------------------------------------------------------
  // Status change and delete
  // ---------------------------------------------------------------------

  /** `prev.map(b => b._id === bookingId ? { ...b, status } : b)`. */
  function SetStatus(bookings: seq<Booking>, bookingId: string, newStatus: BookingStatus): (r: seq<Booking>)
    ensures |r| == |bookings|
  {
    if bookings == [] then []
    else
      var b := bookings[0];
      [if b.id == bookingId then b.(status := newStatus) else b] + SetStatus(bookings[1..], bookingId, newStatus)
  }

  /** Only bookings with the chosen id change, and only in their status;
      any status may be set whatever the current one is. */
  lemma {:induction false} SetStatusAt(bookings: seq<Booking>, bookingId: string, newStatus: BookingStatus, i: int)
    requires 0 <= i < |bookings|
    ensures bookings[i].id == bookingId ==> SetStatus(bookings, bookingId, newStatus)[i] == bookings[i].(status := newStatus)
    ensures bookings[i].id != bookingId ==> SetStatus(bookings, bookingId, newStatus)[i] == bookings[i]
  {
    if i > 0 {
      SetStatusAt(bookings[1..], bookingId, newStatus, i - 1);
    }
  }

  function NotId(bookingId: string): Booking -> bool
  {
    (b: Booking) => b.id != bookingId
  }

  /** `prev.filter(b => b._id !== bookingId)`. */
  function RemoveBooking(bookings: seq<Booking>, bookingId: string): seq<Booking>
  {
    Filter(bookings, NotId(bookingId))
  }

  /** Delete drops exactly the bookings with the chosen id: every other
      booking stays, as often as it was there, in its order. */
  lemma RemoveBookingSpec(bookings: seq<Booking>, bookingId: string, b: Booking)
    ensures multiset(RemoveBooking(bookings, bookingId))[b] ==
              if b.id == bookingId then 0 else multiset(bookings)[b]
    ensures IsSubsequence(RemoveBooking(bookings, bookingId), bookings)
  {
    FilterCount(bookings, NotId(bookingId), b);
    FilterIsSubsequence(bookings, NotId(bookingId));
  }

  /** A status change touches nothing but the chosen bookings: with those
      set aside, the list is what it was. */
  lemma {:induction false} SetStatusOnlyTarget(bookings: seq<Booking>, bookingId: string, newStatus: BookingStatus)
    ensures RemoveBooking(SetStatus(bookings, bookingId, newStatus), bookingId) == RemoveBooking(bookings, bookingId)
  {
    if bookings != [] {
      SetStatusOnlyTarget(bookings[1..], bookingId, newStatus);
      var r := SetStatus(bookings, bookingId, newStatus);
      assert r[1..] == SetStatus(bookings[1..], bookingId, newStatus);
    }
  }

  // ---------------------------------------------------------------------
  // The amount on a row
  // ---------------------------------------------------------------------

  /** `days * booking.vehicle?.dailyRate` as written: without a vehicle the
      product is `undefined * days`, which is NaN. */
  function RowTotalAsWritten(b: Booking): Number
  {
    if b.vehicle.Some? then Num((CalculateDays(b.startMs, b.endMs) * b.vehicle.value.dailyRate) as real) else NaN
  }

  /** A booking whose vehicle is gone shows "KSH NaN". */
  lemma RowTotalAsWrittenIsNaN(b: Booking)
    requires b.vehicle.None?
    ensures RowTotalAsWritten(b) == NaN
  {
  }

  /** The row amount with a missing vehicle's rate read as 0: always a
      number, equal to the row as
      written whenever that is a number, and never negative for a
      non-negative rate. */
  function RowTotal(b: Booking): (total: int)
    ensures b.vehicle.None? ==> total == 0
    ensures b.vehicle.Some? ==> RowTotalAsWritten(b) == Num(total as real)
    ensures b.vehicle.Some? && b.vehicle.value.dailyRate >= 0 ==> total >= 0
  {
    var rate := if b.vehicle.Some? then b.vehicle.value.dailyRate else 0;
    Total(CalculateDays(b.startMs, b.endMs), rate)
  }

  /** "day" or "days" after the count on a row (`days !== 1`). */
  function RowDayUnit(days: nat): string
  {
    if days != 1 then "days" else "day"
  }

  datatype BadgeColor = Green | Gray | Red

  /** `getStatusColor`. */
  function StatusColor(status: BookingStatus): BadgeColor
  {
    match status
    case Active => Green
    case Completed => Gray
    case Cancelled => Red
  }

  // ---------------------------------------------------------------------
  // The details dialog that a row's View button opens
  // ---------------------------------------------------------------------

  /** What the dialog shows: the day count, the total, whether the unit
      is plural, and the badge colour. */
  datatype DetailsView = DetailsView(days: nat, total: Number, plural: bool, color: BadgeColor)

  /** The dialog declared in the same file as the table: it recomputes the
      amount as `days * booking.vehicle?.dailyRate`, writes "days" when the
      count is not 1, and colours the badge by comparing the status text
      with "Active" and "Completed". It shows exactly what the row shows,
      including NaN for a booking without a vehicle. */
  function ViewDetails(b: Booking): (v: DetailsView)
    ensures v.days == CalculateDays(b.startMs, b.endMs)
    ensures v.total == RowTotalAsWritten(b)
    ensures b.vehicle.None? ==> v.total == NaN
    ensures b.vehicle.Some? ==> v.total == Num(RowTotal(b) as real)
    ensures (if v.plural then "days" else "day") == RowDayUnit(v.days)
    ensures v.color == StatusColor(b.status)
  {
    var days := CalculateDays(b.startMs, b.endMs);
    var total := if b.vehicle.Some? then Num((days * b.vehicle.value.dailyRate) as real) else NaN;
    var name := b.status.Name();
    var color := if name == "Active" then Green else if name == "Completed" then Gray else Red;
    DetailsView(days, total, days != 1, color)
  }

  // ---------------------------------------------------------------------
  // The inline "Create New Booking" form
  // ---------------------------------------------------------------------

  datatype NewBookingForm = NewBookingForm(client: string, vehicle: string, startDate: DateField, endDate: DateField)

  const FillAllFields: string := "Please fill in all required fields"
  const CreateFailed: string := "Failed to create booking"
  const CreateThrew: string := "Failed to create booking. Please try again."

  /** What a submit of the inline form leads to: the body it posts, if
      any, the error it shows (`""` for none), and whether the form closes. */
  datatype InlineOutcome = InlineOutcome(posted: Option<NewBookingForm>, error: string, closed: bool)

  predicate InlineComplete(f: NewBookingForm)
  {
    f.client != "" && f.vehicle != "" && f.startDate.OnDay? && f.endDate.OnDay?
  }

  /** `handleSubmit` of the inline form: it posts the form data exactly
      when the four fields are filled, without comparing the two dates, and
      closes only on a successful reply. */
  function InlineSubmit(f: NewBookingForm, reply: PostReply): (o: InlineOutcome)
    ensures o.posted.Some? <==> InlineComplete(f)
    ensures o.posted.Some? ==> o.posted.value == f
    ensures o.posted.None? ==> o.error == FillAllFields && !o.closed
    ensures o.closed <==> o.posted.Some? && reply.Succeeded?
    ensures o.posted.Some? && reply.Succeeded? ==> o.error == ""
    ensures o.posted.Some? && reply.NotSucceeded? ==> o.error == ErrorText(reply.message, CreateFailed)
    ensures o.posted.Some? && reply.Threw? ==> o.error == ErrorText(reply.message, CreateThrew)
  {
    if !InlineComplete(f) then InlineOutcome(None, FillAllFields, false)
    else
      match reply
      case Succeeded => InlineOutcome(Some(f), "", true)
      case NotSucceeded(m) => InlineOutcome(Some(f), ErrorText(m, CreateFailed), false)
      case Threw(m) => InlineOutcome(Some(f), ErrorText(m, CreateThrew), false)
  }

  /** An end date before the start date is posted as it is. */
  lemma InlineIgnoresDateOrder(client: string, vehicle: string, s: int, e: int, reply: PostReply)
    requires client != "" && vehicle != "" && e < s
    ensures InlineSubmit(NewBookingForm(client, vehicle, OnDay(s), OnDay(e)), reply).posted.Some?
  {
  }

  function HasVehicleId(id: string): VehicleInfo -> bool
  {
    (v: VehicleInfo) => v.id == id
  }

  /** `vehicles.find(v => v._id === id)`: the first vehicle with the id, if
      there is one. */
  function FindVehicle(vehicles: seq<VehicleInfo>, id: string): (r: Option<VehicleInfo>)
    ensures r.None? <==> forall i :: 0 <= i < |vehicles| ==> vehicles[i].id != id
    ensures r.Some? ==> r.value.id == id && r.value in vehicles
  {
    var i := FirstIndex(vehicles, HasVehicleId(id));
    if i < |vehicles| then Some(vehicles[i]) else None
  }

  /** The summary's day count: 0 until both dates are chosen. */
  function SummaryDays(f: NewBookingForm): nat
  {
    if f.startDate.OnDay? && f.endDate.OnDay? then
      CalculateDays(DayStartMs(f.startDate.day), DayStartMs(f.endDate.day))
    else 0
  }

  /** `days * (selectedVehicle?.dailyRate || 0)`. */
  function SummaryTotal(f: NewBookingForm, vehicles: seq<VehicleInfo>): int
  {
    var selected := FindVehicle(vehicles, f.vehicle);
    Total(SummaryDays(f), if selected.Some? then selected.value.dailyRate else 0)
  }

  /** The summary total is 0 while a date or the vehicle is missing, and is
      otherwise the number of days between the dates times the selected
      vehicle's current rate. */
  lemma SummaryTotalSpec(f: NewBookingForm, vehicles: seq<VehicleInfo>)
    ensures f.startDate.NoDate? || f.endDate.NoDate? ==> SummaryTotal(f, vehicles) == 0
    ensures FindVehicle(vehicles, f.vehicle).None? ==> SummaryTotal(f, vehicles) == 0
    ensures f.startDate.OnDay? && f.endDate.OnDay? && FindVehicle(vehicles, f.vehicle).Some? ==>
              SummaryTotal(f, vehicles) ==
                Abs(f.endDate.day - f.startDate.day) * FindVehicle(vehicles, f.vehicle).value.dailyRate
  {
    if f.startDate.OnDay? && f.endDate.OnDay? {
      DaysBetweenDates(f.startDate.day, f.endDate.day);
    }
  }

  /** The booking summary appears once the dates are a day or more apart
      and the chosen vehicle is in the list. */
  predicate SummaryShown(f: NewBookingForm, vehicles: seq<VehicleInfo>)
  {
    SummaryDays(f) > 0 && FindVehicle(vehicles, f.vehicle).Some?
  }

  // ---------------------------------------------------------------------
  // Screen state
  // ---------------------------------------------------------------------

  /** The state of the booking list screen that its handlers update. */
  class BookingsScreen {
    var bookings: seq<Booking>
    var searchTerm: string
    var statusFilter: StatusFilter
    var selected: Option<Booking>
    var showDeleteConfirm: bool
    var showDetailsModal: bool
    var error: string

    constructor ()
      ensures bookings == [] && searchTerm == "" && statusFilter == AllStatuses
      ensures selected == None && !showDeleteConfirm && !showDetailsModal && error == ""
    {
      bookings := [];
      searchTerm := "";
      statusFilter := AllStatuses;
      selected := None;
      showDeleteConfirm := false;
      showDetailsModal := false;
      error := "";
    }

    /** The rows of the table. */
    function Rows(): seq<Booking>
      reads this
    {
      FilteredBookings(bookings, searchTerm, statusFilter)
    }

    /** `handleStatusChange`: after the PUT resolves, the chosen booking
        takes the new status; if it fails, the list is untouched and the
        error is shown. */
    method ChangeStatus(bookingId: string, newStatus: BookingStatus, put: ApiOutcome)
      modifies this
      ensures put.Resolved? ==> bookings == SetStatus(old(bookings), bookingId, newStatus) && error == old(error)
      ensures put.Rejected? ==>
                bookings == old(bookings) && error == ErrorText(put.message, "Failed to update booking status")
      ensures searchTerm == old(searchTerm) && statusFilter == old(statusFilter) && selected == old(selected)
      ensures showDeleteConfirm == old(showDeleteConfirm) && showDetailsModal == old(showDetailsModal)
    {
      if put.Resolved? {
        bookings := SetStatus(bookings, bookingId, newStatus);
      } else {
        error := ErrorText(put.message, "Failed to update booking status");
      }
    }

    /** `handleDeleteClick`. */
    method AskDelete(b: Booking)
      modifies this
      ensures selected == Some(b) && showDeleteConfirm
      ensures bookings == old(bookings) && searchTerm == old(searchTerm) && statusFilter == old(statusFilter)
      ensures showDetailsModal == old(showDetailsModal) && error == old(error)
    {
      selected := Some(b);
      showDeleteConfirm := true;
    }

    /** `handleDeleteBooking`: with no selection nothing happens; after the
        DELETE resolves, the selected booking's id leaves the list and the
        dialogs close; if it fails, only the error changes. */
    method DeleteSelected(del: ApiOutcome)
      modifies this
      ensures old(selected).None? ==>
                bookings == old(bookings) && selected == old(selected) && error == old(error) &&
                showDeleteConfirm == old(showDeleteConfirm) && showDetailsModal == old(showDetailsModal)
      ensures old(selected).Some? && del.Resolved? ==>
                bookings == RemoveBooking(old(bookings), old(selected).value.id) &&
                selected == None && !showDeleteConfirm && !showDetailsModal && error == old(error)
      ensures old(selected).Some? && del.Rejected? ==>
                bookings == old(bookings) && selected == old(selected) &&
                showDeleteConfirm == old(showDeleteConfirm) && showDetailsModal == old(showDetailsModal) &&
                error == ErrorText(del.message, "Failed to delete booking")
      ensures searchTerm == old(searchTerm) && statusFilter == old(statusFilter)
    {
      if selected.None? {
        return;
      }
      if del.Resolved? {
        bookings := RemoveBooking(bookings, selected.value.id);
        showDeleteConfirm := false;
        showDetailsModal := false;
        selected := None;
      } else {
        error := ErrorText(del.message, "Failed to delete booking");
      }
    }
  }
}
