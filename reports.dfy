/** The reports page: bookings within a date range, days booked and
    utilisation per vehicle, the five clients who spent most, and the
    booking counts by status. */
module Reports {
  import opened Lists
  import opened Pricing

  /** A stored booking as the reports read it; dates are day numbers and
      the amount is whole currency units. */
  datatype ReportBooking = ReportBooking(
    clientId: string, vehicleId: string, startDay: int, endDay: int, status: string, totalAmount: int)

  datatype ReportVehicle = ReportVehicle(id: string, make: string, model: string)

  datatype ReportClient = ReportClient(id: string, name: string)

  /** The chosen range, both ends included, as day numbers. */
  datatype DateRange = DateRange(start: int, end: int)

  // ---------------------------------------------------------------------
  // Date range
  // ---------------------------------------------------------------------

  /** `start_date >= dateRange.start && end_date <= dateRange.end`. */
  predicate InRange(b: ReportBooking, range: DateRange)
  {
    b.startDay >= range.start && b.endDay <= range.end
  }

  function Within(range: DateRange): ReportBooking -> bool
  {
    (b: ReportBooking) => InRange(b, range)
  }

  function InRangeBookings(bookings: seq<ReportBooking>, range: DateRange): seq<ReportBooking>
  {
    Filter(bookings, Within(range))
  }

  /** A booking is reported iff it starts and ends inside the range; a
      booking that overlaps an end of the range is left out entirely. */
  lemma InRangeSpec(bookings: seq<ReportBooking>, range: DateRange, b: ReportBooking)
    ensures b in InRangeBookings(bookings, range) <==>
              b in bookings && range.start <= b.startDay && b.endDay <= range.end
    ensures IsSubsequence(InRangeBookings(bookings, range), bookings)
  {
    FilterMember(bookings, Within(range), b);
    FilterIsSubsequence(bookings, Within(range));
  }

  // ---------------------------------------------------------------------
  // Vehicle utilisation
  // ---------------------------------------------------------------------

  /** The days of one booking, by the same rule as the booking table. */
  function BookedDays(b: ReportBooking): int
  {
    CalculateDays(DayStartMs(b.startDay), DayStartMs(b.endDay))
  }

  function ForVehicle(vehicleId: string): ReportBooking -> bool
  {
    (b: ReportBooking) => b.vehicleId == vehicleId
  }

  /** Each booking adds the distance between its two dates. */
  lemma BookedDaysIsDistance(b: ReportBooking)
    ensures BookedDays(b) == Abs(b.endDay - b.startDay)
  {
    DaysBetweenDates(b.startDay, b.endDay);
  }

  /** What one booking adds to a vehicle's days: the distance between its
      dates if it is that vehicle's booking, and nothing otherwise. */
  function DaysFor(vehicleId: string): ReportBooking -> int
  {
    (b: ReportBooking) => if b.vehicleId == vehicleId then Abs(b.endDay - b.startDay) else 0
  }

  /** `daysBooked`: the days of the vehicle's in-range bookings, summed.
      It is the total distance between the dates of the in-range bookings
      that carry the vehicle's id. */
  function DaysBooked(inRange: seq<ReportBooking>, vehicleId: string): (days: int)
    ensures days == Sum(inRange, DaysFor(vehicleId))
    ensures days >= 0
  {
    var mine := Filter(inRange, ForVehicle(vehicleId));
    SumNonNegative(mine, BookedDays);
    SumFilter(inRange, ForVehicle(vehicleId), BookedDays);
    forall i | 0 <= i < |inRange|
      ensures Masked(ForVehicle(vehicleId), BookedDays)(inRange[i]) == DaysFor(vehicleId)(inRange[i])
    {
      BookedDaysIsDistance(inRange[i]);
    }
    SumPointwise(inRange, Masked(ForVehicle(vehicleId), BookedDays), DaysFor(vehicleId));
    Sum(mine, BookedDays)
  }

  /** `Math.min(100, Math.round((daysBooked / 30) * 100))`: the nearest
      whole percentage of a 30-day month, halves rounded up, capped at 100. */
  function Utilization(daysBooked: nat): (pct: nat)
    ensures pct <= 100
    ensures pct == 100 <==> daysBooked >= 30
    ensures pct < 100 ==> 6 * pct <= 20 * daysBooked + 3 < 6 * pct + 6
  {
    var rounded := (20 * daysBooked + 3) / 6;
    if rounded < 100 then rounded else 100
  }

  /** Examples: no days is 0%, 15 days is 50%, one day is 3%. */
  lemma UtilizationExamples()
    ensures Utilization(0) == 0 && Utilization(15) == 50 && Utilization(1) == 3 && Utilization(45) == 100
  {
  }

  /** More days booked never lower the utilisation. */
  lemma UtilizationMonotone(a: nat, b: nat)
    requires a <= b
    ensures Utilization(a) <= Utilization(b)
  {
    assert (20 * a + 3) / 6 <= (20 * b + 3) / 6;
  }

  datatype UtilizationEntry = UtilizationEntry(name: string, daysBooked: int, utilization: int)

  /** `vehicleUtilization`: one entry per vehicle, in the vehicles' order. */
  function VehicleUtilization(vehicles: seq<ReportVehicle>, inRange: seq<ReportBooking>): (entries: seq<UtilizationEntry>)
    ensures |entries| == |vehicles|
    ensures forall i :: 0 <= i < |vehicles| ==>
              entries[i].name == vehicles[i].make + " " + vehicles[i].model &&
              entries[i].daysBooked == DaysBooked(inRange, vehicles[i].id) &&
              entries[i].utilization == Utilization(entries[i].daysBooked)
  {
    seq(|vehicles|, i requires 0 <= i < |vehicles| =>
      var days := DaysBooked(inRange, vehicles[i].id);
      UtilizationEntry(vehicles[i].make + " " + vehicles[i].model, days, Utilization(days)))
  }

  // ---------------------------------------------------------------------
  // Client activity
  // ---------------------------------------------------------------------

  datatype ActivityEntry = ActivityEntry(name: string, bookings: nat, totalSpent: int)

  function ForClient(clientId: string): ReportBooking -> bool
  {
    (b: ReportBooking) => b.clientId == clientId
  }

  function Amount(b: ReportBooking): int
  {
    b.totalAmount
  }

  function Spent(e: ActivityEntry): int
  {
    e.totalSpent
  }

  /** What one booking adds to a client's spend: its amount if it carries
      the client's id, and nothing otherwise. */
  function SpendFor(clientId: string): ReportBooking -> int
  {
    (b: ReportBooking) => if b.clientId == clientId then b.totalAmount else 0
  }

  /** The entry of one client: its name, the number of in-range bookings
      that carry its id, and what those bookings cost. */
  function ActivityOf(c: ReportClient, inRange: seq<ReportBooking>): (e: ActivityEntry)
    ensures e.name == c.name
    ensures e.bookings == |set i | 0 <= i < |inRange| && inRange[i].clientId == c.id|
    ensures e.totalSpent == Sum(inRange, SpendFor(c.id))
  {
    var mine := Filter(inRange, ForClient(c.id));
    FilterLength(inRange, ForClient(c.id));
    assert Passing(inRange, ForClient(c.id)) == set i | 0 <= i < |inRange| && inRange[i].clientId == c.id;
    SumFilter(inRange, ForClient(c.id), Amount);
    SumPointwise(inRange, Masked(ForClient(c.id), Amount), SpendFor(c.id));
    ActivityEntry(c.name, |mine|, Sum(mine, Amount))
  }

  /** Every client's entry, in the clients' order. */
  function AllActivity(clients: seq<ReportClient>, inRange: seq<ReportBooking>): (entries: seq<ActivityEntry>)
    ensures |entries| == |clients|
    ensures forall i :: 0 <= i < |clients| ==> entries[i] == ActivityOf(clients[i], inRange)
  {
    seq(|clients|, i requires 0 <= i < |clients| => ActivityOf(clients[i], inRange))
  }

  /** `clientActivity`: five entries (fewer when there are fewer clients),
      largest spend first, each one a client's own entry, and no client
      left out spent more than a client shown. */
  function ClientActivity(clients: seq<ReportClient>, inRange: seq<ReportBooking>): (top: seq<ActivityEntry>)
    ensures |top| == if |clients| < 5 then |clients| else 5
    ensures SortedDesc(top, Spent)
    ensures multiset(top) <= multiset(AllActivity(clients, inRange))
    ensures forall e :: e in multiset(AllActivity(clients, inRange)) - multiset(top) ==>
              forall i :: 0 <= i < |top| ==> top[i].totalSpent >= e.totalSpent
  {
    var all := AllActivity(clients, inRange);
    var sorted := SortDesc(all, Spent);
    TakeSorted(all, sorted, Spent, 5);
    Take(sorted, 5)
  }

  // ---------------------------------------------------------------------
  // Booking status counts
  // ---------------------------------------------------------------------

  function HasStatus(status: string): ReportBooking -> bool
  {
    (b: ReportBooking) => b.status == status
  }

  /** The number of in-range bookings whose status is exactly `status`. */
  function CountStatus(inRange: seq<ReportBooking>, status: string): (n: nat)
    ensures n == |set i | 0 <= i < |inRange| && inRange[i].status == status|
  {
    FilterLength(inRange, HasStatus(status));
    assert Passing(inRange, HasStatus(status)) == set i | 0 <= i < |inRange| && inRange[i].status == status;
    |Filter(inRange, HasStatus(status))|
  }

  datatype StatusCount = StatusCount(name: string, value: nat)

  /** `bookingStatusData`: the lower-case statuses "completed", "active"
      and "cancelled" counted under their display names. */
  function BookingStatusData(inRange: seq<ReportBooking>): (data: seq<StatusCount>)
    ensures |data| == 3
    ensures data[0].name == "Completed" && data[1].name == "Active" && data[2].name == "Cancelled"
    ensures data[0].value == CountStatus(inRange, "completed")
    ensures data[1].value == CountStatus(inRange, "active")
    ensures data[2].value == CountStatus(inRange, "cancelled")
    ensures data[0].value + data[1].value + data[2].value <= |inRange|
  {
    StatusCountsBound(inRange);
    [StatusCount("Completed", CountStatus(inRange, "completed")),
     StatusCount("Active", CountStatus(inRange, "active")),
     StatusCount("Cancelled", CountStatus(inRange, "cancelled"))]
  }

  /** A booking is counted under at most one status, so the three counts
      add up to at most the number of bookings; any other status, such as
      "confirmed" or a capitalised "Active", is not counted. */
  lemma {:induction false} StatusCountsBound(inRange: seq<ReportBooking>)
    ensures CountStatus(inRange, "completed") + CountStatus(inRange, "active") + CountStatus(inRange, "cancelled")
              <= |inRange|
  {
    if inRange != [] {
      StatusCountsBound(inRange[1..]);
    }
  }

  /** The counts reach the number of bookings exactly when every booking
      has one of the three lower-case statuses. */
  lemma {:induction false} StatusCountsExact(inRange: seq<ReportBooking>)
    ensures CountStatus(inRange, "completed") + CountStatus(inRange, "active") + CountStatus(inRange, "cancelled")
              == |inRange| <==>
            forall i :: 0 <= i < |inRange| ==> inRange[i].status in {"completed", "active", "cancelled"}
  {
    if inRange != [] {
      StatusCountsExact(inRange[1..]);
      StatusCountsBound(inRange[1..]);
    }
  }

  /** The sample bookings: over December 2024 all three are in range, and
      the one whose status is "confirmed" is in no count. */
  lemma SampleStatusCounts()
    ensures var sample := [
              ReportBooking("1", "2", CivilDay(2024, 12, 20), CivilDay(2024, 12, 25), "active", 200),
              ReportBooking("2", "1", CivilDay(2024, 12, 22), CivilDay(2024, 12, 24), "completed", 90),
              ReportBooking("1", "4", CivilDay(2024, 12, 28), CivilDay(2024, 12, 30), "confirmed", 170)];
            var inRange := InRangeBookings(sample, DateRange(CivilDay(2024, 12, 1), CivilDay(2024, 12, 31)));
            inRange == sample &&
            BookingStatusData(inRange) == [StatusCount("Completed", 1), StatusCount("Active", 1), StatusCount("Cancelled", 0)]
  {
    var sample := [
      ReportBooking("1", "2", CivilDay(2024, 12, 20), CivilDay(2024, 12, 25), "active", 200),
      ReportBooking("2", "1", CivilDay(2024, 12, 22), CivilDay(2024, 12, 24), "completed", 90),
      ReportBooking("1", "4", CivilDay(2024, 12, 28), CivilDay(2024, 12, 30), "confirmed", 170)];
    var range := DateRange(CivilDay(2024, 12, 1), CivilDay(2024, 12, 31));
    FilterAll(sample, Within(range));
    assert Filter(sample, HasStatus("completed")) == [sample[1]];
    assert Filter(sample, HasStatus("active")) == [sample[0]];
    assert Filter(sample, HasStatus("cancelled")) == [];
  }
}
