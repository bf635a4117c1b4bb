/** The vehicle list screen: its search, the Out/Available label, delete,
    and the add and edit forms with their number fields and required-field
    check. */
module VehicleManagement {
  import opened Text
  import opened Js
  import opened Lists

  datatype Vehicle = Vehicle(
    id: string,
    make: string,
    model: string,
    year: int,
    color: Option<string>,
    licensePlate: string,
    dateOut: Option<string>,
    timeOut: Option<string>,
    dateIn: Option<string>,
    timeIn: Option<string>,
    dailyRate: int,
    createdAt: string)

  // ---------------------------------------------------------------------
  // Search
  // ---------------------------------------------------------------------

  /** The lower-cased term occurs in the lower-cased make, model or plate. */
  predicate MatchesSearch(v: Vehicle, searchTerm: string)
  {
    var term := Lower(searchTerm);
    Contains(Lower(v.make), term) || Contains(Lower(v.model), term) || Contains(Lower(v.licensePlate), term)
  }

  function Matching(searchTerm: string): Vehicle -> bool
  {
    (v: Vehicle) => MatchesSearch(v, searchTerm)
  }

  /** `filteredVehicles`. */
  function FilteredVehicles(vehicles: seq<Vehicle>, searchTerm: string): seq<Vehicle>
  {
    Filter(vehicles, Matching(searchTerm))
  }

  /** A vehicle is listed iff it is in the list and matches; the listed
      vehicles keep their order. */
  lemma FilteredVehiclesSpec(vehicles: seq<Vehicle>, searchTerm: string, v: Vehicle)
    ensures v in FilteredVehicles(vehicles, searchTerm) <==> v in vehicles && MatchesSearch(v, searchTerm)
    ensures IsSubsequence(FilteredVehicles(vehicles, searchTerm), vehicles)
  {
    FilterMember(vehicles, Matching(searchTerm), v);
    FilterIsSubsequence(vehicles, Matching(searchTerm));
  }

  /** An empty search lists every vehicle. */
  lemma EmptySearchListsAll(vehicles: seq<Vehicle>)
    ensures FilteredVehicles(vehicles, "") == vehicles
  {
    LowerEmpty();
    forall i | 0 <= i < |vehicles| ensures Matching("")(vehicles[i]) {
      ContainsEmpty(Lower(vehicles[i].make));
    }
    FilterAll(vehicles, Matching(""));
  }

  /** The search ignores the case of ASCII letters in the term. */
  lemma SearchIgnoresCase(v: Vehicle, searchTerm: string)
    ensures MatchesSearch(v, Upper(searchTerm)) <==> MatchesSearch(v, searchTerm)
  {
    assert Lower(Upper(searchTerm)) == Lower(searchTerm);
  }

  // ---------------------------------------------------------------------
  // Availability label
  // ---------------------------------------------------------------------

  /** `vehicle.dateOut && !vehicle.dateIn ? 'Out' : 'Available'`. */
  function StatusLabel(v: Vehicle): (shown: string)
    ensures shown == "Out" <==> Truthy(v.dateOut) && !Truthy(v.dateIn)
    ensures shown == "Available" <==> !(Truthy(v.dateOut) && !Truthy(v.dateIn))
  {
    if Truthy(v.dateOut) && !Truthy(v.dateIn) then "Out" else "Available"
  }

  // ---------------------------------------------------------------------
  // Delete
  // ---------------------------------------------------------------------

  function NotId(vehicleId: string): Vehicle -> bool
  {
    (v: Vehicle) => v.id != vehicleId
  }

  /** `prev.filter(vehicle => vehicle._id !== selectedVehicle._id)`. */
  function RemoveVehicle(vehicles: seq<Vehicle>, vehicleId: string): seq<Vehicle>
  {
    Filter(vehicles, NotId(vehicleId))
  }

  /** Delete drops exactly the vehicles with the chosen id; the others stay,
      as often as they were there, in their order. */
  lemma RemoveVehicleSpec(vehicles: seq<Vehicle>, vehicleId: string, v: Vehicle)
    ensures multiset(RemoveVehicle(vehicles, vehicleId))[v] == if v.id == vehicleId then 0 else multiset(vehicles)[v]
    ensures IsSubsequence(RemoveVehicle(vehicles, vehicleId), vehicles)
  {
    FilterCount(vehicles, NotId(vehicleId), v);
    FilterIsSubsequence(vehicles, NotId(vehicleId));
  }

  /** The state of the vehicle list screen that its handlers update. */
  class VehiclesScreen {
    var vehicles: seq<Vehicle>
    var selected: Option<Vehicle>
    var showDeleteConfirm: bool
    var showDetailsModal: bool
    var error: string

    constructor ()
      ensures vehicles == [] && selected == None && !showDeleteConfirm && !showDetailsModal && error == ""
    {
      vehicles := [];
      selected := None;
      showDeleteConfirm := false;
      showDetailsModal := false;
      error := "";
    }

    /** `handleDeleteClick`. */
    method AskDelete(v: Vehicle)
      modifies this
      ensures selected == Some(v) && showDeleteConfirm
      ensures vehicles == old(vehicles) && showDetailsModal == old(showDetailsModal) && error == old(error)
    {
      selected := Some(v);
      showDeleteConfirm := true;
    }

    /** `handleDeleteVehicle`: with no selection nothing happens; after the
        DELETE resolves, the selected vehicle's id leaves the list and the
        dialogs close; if it fails, only the error changes. */
    method DeleteSelected(del: ApiOutcome)
      modifies this
      ensures old(selected).None? ==>
                vehicles == old(vehicles) && selected == old(selected) && error == old(error) &&
                showDeleteConfirm == old(showDeleteConfirm) && showDetailsModal == old(showDetailsModal)
      ensures old(selected).Some? && del.Resolved? ==>
                vehicles == RemoveVehicle(old(vehicles), old(selected).value.id) &&
                selected == None && !showDeleteConfirm && !showDetailsModal && error == old(error)
      ensures old(selected).Some? && del.Rejected? ==>
                vehicles == old(vehicles) && selected == old(selected) &&
                showDeleteConfirm == old(showDeleteConfirm) && showDetailsModal == old(showDetailsModal) &&
                error == ErrorText(del.message, "Failed to delete vehicle")
    {
      if selected.None? {
        return;
      }
      if del.Resolved? {
        vehicles := RemoveVehicle(vehicles, selected.value.id);
        showDeleteConfirm := false;
        showDetailsModal := false;
        selected := None;
      } else {
        error := ErrorText(del.message, "Failed to delete vehicle");
      }
    }
  }

  // ---------------------------------------------------------------------
  // Add and edit forms
  // ---------------------------------------------------------------------

  /** `handleChange`: "year" and "dailyRate" are read with unary `+`,
      every other field keeps the text typed. */
  function FieldValue(name: string, value: string): (v: FormValue)
    ensures v.Numeric? <==> name == "year" || name == "dailyRate"
    ensures v.Text? ==> v.text == value
  {
    if name == "year" || name == "dailyRate" then Numeric(ToNumber(value)) else Text(value)
  }

  /** Typing a whole number into a number field stores that number. */
  lemma TypedNumberStored(name: string, n: nat)
    requires name == "year" || name == "dailyRate"
    ensures FieldValue(name, NatString(n)) == Numeric(Num(n as real))
  {
    NumberOfNumeral(n);
  }

  /** An emptied number field holds 0, which the required-field check
      rejects. */
  lemma EmptiedNumberIsZero(name: string)
    requires name == "year" || name == "dailyRate"
    ensures FieldValue(name, "") == Numeric(Num(0.0))
  {
    EmptyIsZero();
  }

  /** The add form's starting values: this year, a rate of 0, and the
      text fields empty. */
  function BlankData(currentYear: int): FormData
  {
    map["make" := Text(""), "model" := Text(""), "year" := Numeric(Num(currentYear as real)),
        "color" := Text(""), "licensePlate" := Text(""), "dateOut" := Text(""), "timeOut" := Text(""),
        "dateIn" := Text(""), "timeIn" := Text(""), "dailyRate" := Numeric(Num(0.0))]
  }

  /** The edit form's starting values: the vehicle's own, with a missing
      optional field as "". */
  function VehicleData(v: Vehicle): FormData
  {
    map["make" := Text(v.make), "model" := Text(v.model), "year" := Numeric(Num(v.year as real)),
        "color" := Text(OrEmpty(v.color)), "licensePlate" := Text(v.licensePlate),
        "dateOut" := Text(OrEmpty(v.dateOut)), "timeOut" := Text(OrEmpty(v.timeOut)),
        "dateIn" := Text(OrEmpty(v.dateIn)), "timeIn" := Text(OrEmpty(v.timeIn)),
        "dailyRate" := Numeric(Num(v.dailyRate as real))]
  }

  /** The add/edit check: make, model, year, plate and rate all truthy. */
  predicate RequiredFilled(data: FormData)
  {
    FieldTruthy(data, "make") && FieldTruthy(data, "model") && FieldTruthy(data, "year") &&
    FieldTruthy(data, "licensePlate") && FieldTruthy(data, "dailyRate")
  }

  /** A rate of 0 counts as missing, so the untouched add form is refused. */
  lemma ZeroRateRefused(data: FormData)
    requires "dailyRate" in data && data["dailyRate"] == Numeric(Num(0.0))
    ensures !RequiredFilled(data)
  {
  }

  lemma BlankFormRefused(currentYear: int)
    ensures !RequiredFilled(BlankData(currentYear))
  {
    ZeroRateRefused(BlankData(currentYear));
  }

  /** Opening the edit form on a vehicle with its make, model and plate
      set and a non-zero year and rate, and saving at once, passes the
      check. */
  lemma VehicleDataFilled(v: Vehicle)
    requires v.make != "" && v.model != "" && v.licensePlate != "" && v.year != 0 && v.dailyRate != 0
    ensures RequiredFilled(VehicleData(v))
  {
  }

  const FillRequired: string := "Please fill in all required fields."

  /** The state of the add form (`editingId == None`) or of the edit form
      of the vehicle `editingId`. */
  class VehicleForm {
    var editingId: Option<string>
    var data: FormData
    var error: string
    var loading: bool

    constructor Blank(currentYear: int)
      ensures editingId == None && data == BlankData(currentYear) && error == "" && !loading
    {
      editingId := None;
      data := BlankData(currentYear);
      error := "";
      loading := false;
    }

    constructor FromVehicle(v: Vehicle)
      ensures editingId == Some(v.id) && data == VehicleData(v) && error == "" && !loading
    {
      editingId := Some(v.id);
      data := VehicleData(v);
      error := "";
      loading := false;
    }

    /** `handleChange`: only the named field changes. */
    method HandleChange(name: string, value: string)
      modifies this
      ensures data == old(data)[name := FieldValue(name, value)]
      ensures editingId == old(editingId) && error == old(error) && loading == old(loading)
    {
      data := data[name := FieldValue(name, value)];
    }

    /** `handleSubmit`: a form failing the check shows the message and
        sends nothing; otherwise the form data is sent (POST for a new
        vehicle, PUT for an edit) and the form closes only when the reply
        reports success. */
    method Submit(reply: PostReply) returns (sent: Option<FormData>, closed: bool)
      modifies this
      ensures sent.Some? <==> RequiredFilled(old(data))
      ensures sent.Some? ==> sent.value == old(data)
      ensures sent.None? ==> error == FillRequired && !closed
      ensures closed <==> sent.Some? && reply.Succeeded?
      ensures sent.Some? && reply.Succeeded? ==> error == ""
      ensures sent.Some? && reply.NotSucceeded? ==>
                error == ErrorText(reply.message, if editingId.None? then "Failed to add vehicle." else "Failed to update vehicle.")
      ensures sent.Some? && reply.Threw? ==>
                error == ErrorText(reply.message,
                  if editingId.None? then "Failed to add vehicle. Please try again."
                  else "Failed to update vehicle. Please try again.")
      ensures data == old(data) && editingId == old(editingId) && !loading
    {
      error := "";
      if !RequiredFilled(data) {
        error := FillRequired;
        loading := false;
        return None, false;
      }
      loading := true;
      sent := Some(data);
      closed := false;
      match reply {
        case Succeeded =>
          closed := true;
        case NotSucceeded(m) =>
          error := ErrorText(m, if editingId.None? then "Failed to add vehicle." else "Failed to update vehicle.");
        case Threw(m) =>
          error := ErrorText(m,
            if editingId.None? then "Failed to add vehicle. Please try again."
            else "Failed to update vehicle. Please try again.");
      }
      loading := false;
    }
  }
}
