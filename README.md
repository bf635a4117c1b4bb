# ShilaaboCarpro car-hire core, modelled in Dafny

ShilaaboCarpro is a car-hire management application. It has a React front
end, with screens for bookings, vehicles, clients and reports, and an
Express/Mongoose back end. This project models the parts of it that carry
their own logic and proves what they promise:

- **Pricing**: the `calculateDays` rule (whole days, rounded up, between two
  instants) and `days × dailyRate`. The rule is repeated in the booking table,
  the inline booking form, both booking detail views and the reports.
- **Booking screens**:
  - the table's search and status filter, status change and delete;
  - the amount and badge shown on a row;
  - the inline "Create New Booking" form and its summary;
  - the "Add Booking" dialog: `getToday`, the ordered `validate`, the
    start-date picker that pulls the end date along, and the submit;
  - the booking details dialog that a row's View button opens, and the
    stand-alone details component of `BookingDetailsModal.tsx`, which no
    screen imports.
- **Role permissions**: the fixed `PERMISSIONS` table and its three lookups.
- **Client back end**: `addClient`, which checks required fields, normalises,
  rejects duplicates and inserts. Also `getAllClients` (newest first) and
  `getClientById`.
- **Vehicle and client screens**:
  - search;
  - the Out/Available label;
  - delete from the local list;
  - the add and edit forms, with their field updates and required-field
    checks.
- **Reports**: the date-range filter, days booked and utilisation per
  vehicle, the five clients who spent most, and the booking counts by status.
- **`protect` middleware**: reads the bearer token, verifies it, loads the
  user, and either passes the request on or answers 401.

## How the model is built

Modules follow the source files:

| Module | Source |
|---|---|
| `Pricing` | the `calculateDays` rule |
| `BookingManagement` | `BookingManagement.tsx` |
| `AddBookingForm` | `AddBookingForm.tsx` |
| `BookingDetails` | `BookingDetailsModal.tsx` (imported by no screen) |
| `Permissions` | `permissions.ts` |
| `ClientController` | `clientController.js` |
| `VehicleManagement` | `VehicleManagement.tsx` |
| `ClientManagement` | `ClientManagement.tsx` |
| `AddClientForm` | `AddClientForm.tsx` |
| `Reports` | `Reports.tsx` |
| `AuthMiddleware` | `authMiddleware.js` |

Three shared modules model the JavaScript built-ins the code relies on:

- `Text`: ASCII case mapping, `trim`, `includes`, `startsWith` and `split`.
- `Lists`: `filter`, `find`, `reduce` with `+`, sorting by a numeric key, and
  `slice(0, k)`.
- `Js`: optional fields, truthiness, numbers that may be NaN, unary `+` on
  form input, API outcomes and the `err?.response?.data?.message || fallback`
  idiom.

Modelling choices:

- **Form state as classes.** Screen and form state that handlers update in
  place is a `class` whose methods state the whole new state. This covers
  `BookingsScreen`, `BookingForm`, `VehiclesScreen`, `VehicleForm`,
  `ClientsScreen`, `ClientForm` and `AuthMiddleware.Request`.
- **The client collection.** It is the `ClientStore` class: a sequence of
  documents in insertion order, with the id the next insert receives. Its
  invariant `Valid` says the stored IDs, phones, licences and ids are each
  pairwise distinct.
- **Awaited calls as parameters.** An awaited HTTP call is a parameter
  describing how it ended: `ApiOutcome` or `PostReply`. The clock (`nowMs`,
  `today`), `jwt.verify` and `User.findById` are parameters too.
- **Dates.** Timestamps are integer milliseconds. Date-only form values
  (`YYYY-MM-DD`) are day numbers counted from 1970-01-01, which is how
  `new Date('YYYY-MM-DD')` reads them (midnight UTC). Such strings compare in
  the same order as their day numbers.
- **Money** is whole currency units (`int`).

## Model

| member | source | states |
|---|---|---|
| Pricing.CalculateDays | src/components/Bookings/BookingManagement.tsx:178-183 | The day count is the least whole number of days that covers the gap between the two instants. |
| Pricing.DaysUnique | src/components/Bookings/BookingManagement.tsx:778-783 | The two bounds of CalculateDays determine it: any count meeting both is that count. |
| Pricing.DaysSymmetric | src/components/Bookings/BookingManagement.tsx:780-782 | Swapping start and end does not change the day count (`Math.abs`). |
| Pricing.DaysSameInstant | src/components/Bookings/BookingManagement.tsx:780-782 | The same instant twice gives 0 days. |
| Pricing.DaysWhole | src/components/Bookings/BookingManagement.tsx:780-782 | Instants exactly k whole days apart give k. |
| Pricing.DaysPartial | src/components/Bookings/BookingManagement.tsx:780-782 | k whole days plus any positive part of a day give k + 1 (rounding up). |
| Pricing.DaysPositive | src/components/Bookings/BookingManagement.tsx:780-782 | The count is 0 exactly when the two instants are equal. |
| Pricing.TotalNonNegative | src/components/Bookings/BookingManagement.tsx:311-312 | `days × dailyRate` is never negative for a non-negative rate. |
| Pricing.EpochIsDayZero | src/lib/mockData.ts:142-176 | The date-to-day-number conversion used for the fixtures puts 1970-01-01 at day 0. |
| Pricing.DaysBetweenDates | src/components/Reports/Reports.tsx:41-44 | For date-only values the day count is the distance between the two day numbers. |
| Pricing.SampleBookingTotals | src/lib/mockData.ts:142-176 | The three sample bookings cost 200, 90 and 170 at their daily rates of 40, 45 and 85, matching their recorded totals. |
| BookingManagement.FilteredBookingsSpec | src/components/Bookings/BookingManagement.tsx:96-108 | A booking is listed iff it is in the list, matches the status filter (all, or equal), and the lower-cased term occurs in the lower-cased client name, make, model or plate (missing fields as ""). The listed bookings keep their order. |
| BookingManagement.EmptySearchListsAll | src/components/Bookings/BookingManagement.tsx:96-108 | An empty search with "all" lists every booking. |
| BookingManagement.SetStatus | src/components/Bookings/BookingManagement.tsx:156-158 | The status update keeps the list's length. |
| BookingManagement.SetStatusAt | src/components/Bookings/BookingManagement.tsx:156-158 | At each position, a booking with the chosen id gets the new status and nothing else changes; any other booking is unchanged. Any status may be set from any status. |
| BookingManagement.SetStatusOnlyTarget | src/components/Bookings/BookingManagement.tsx:154-163 | Apart from the bookings with the chosen id, the list after a status change is exactly the list before it. |
| BookingManagement.RemoveBookingSpec | src/components/Bookings/BookingManagement.tsx:129-134 | Delete drops every booking with the chosen id and keeps every other booking, as often as it occurred and in order. |
| BookingManagement.RowTotalAsWrittenIsNaN | src/components/Bookings/BookingManagement.tsx:311-312 | As written, a row whose booking has no vehicle shows NaN. |
| BookingManagement.RowTotal | src/components/Bookings/BookingManagement.tsx:311-312 | Corrected row amount: 0 without a vehicle. Otherwise it equals the amount as written, days × the vehicle's current rate. It is non-negative for a non-negative rate. |
| BookingManagement.ViewDetails | src/components/Bookings/BookingManagement.tsx:646-775 | The dialog the table's View button opens shows the row's own values: the same day count, the same amount as written (NaN without a vehicle, otherwise the corrected row amount), "days" exactly when the row writes "days", and the table's badge colour for the status. |
| BookingManagement.InlineSubmit | src/components/Bookings/BookingManagement.tsx:462-490 | The inline form posts exactly its data iff client, vehicle, start and end are all filled; otherwise it shows "Please fill in all required fields". It closes iff the reply succeeds. Otherwise it shows the reply's message or the matching fallback. |
| BookingManagement.InlineIgnoresDateOrder | src/components/Bookings/BookingManagement.tsx:467-475 | The inline form posts an end date earlier than the start date; it never compares the dates. |
| BookingManagement.FindVehicle | src/components/Bookings/BookingManagement.tsx:492 | `vehicles.find` returns a vehicle with the id that is in the list, and nothing exactly when no vehicle has that id. |
| BookingManagement.SummaryTotalSpec | src/components/Bookings/BookingManagement.tsx:492-495 | The summary total is 0 while either date or the vehicle is missing. Otherwise it is the distance between the dates times the selected vehicle's current rate. |
| BookingManagement.BookingsScreen.constructor | src/components/Bookings/BookingManagement.tsx:37-47 | The screen starts with no bookings, an empty search, "all" statuses, no selection, both dialogs closed and no error. |
| BookingManagement.BookingsScreen.ChangeStatus | src/components/Bookings/BookingManagement.tsx:154-163 | After a resolved PUT the list is SetStatus of the old list. After a failed PUT the list is untouched and the error is the reply's message or "Failed to update booking status". The rest of the screen is unchanged. |
| BookingManagement.BookingsScreen.AskDelete | src/components/Bookings/BookingManagement.tsx:124-127 | Selects the booking and opens the confirmation; nothing else changes. |
| BookingManagement.BookingsScreen.DeleteSelected | src/components/Bookings/BookingManagement.tsx:129-141 | With no selection nothing changes. After a resolved DELETE the selected id leaves the list, the selection is cleared and both dialogs close. After a failure only the error changes. |
| AddBookingForm.GetToday | src/components/Bookings/AddBookingForm.tsx:25 | Today is the UTC day whose span contains the clock reading. |
| AddBookingForm.TodayStartsToday | src/components/Bookings/AddBookingForm.tsx:25 | At the first instant of a day, today is that day. |
| AddBookingForm.Validate | src/components/Bookings/AddBookingForm.tsx:52-60 | The checks run in order, and each message is returned exactly when its check is the first to fail. "All fields are required" when a field is empty. "Start date must be before end date" when start > end. "Start date cannot be in the past" when start < today. No error iff all are filled and today ≤ start ≤ end, so start == end and start == today are both accepted. |
| AddBookingForm.OrderCheckedBeforePast | src/components/Bookings/AddBookingForm.tsx:55-58 | A start that is both in the past and after the end is reported as the date-order error. |
| AddBookingForm.BookingForm.constructor | src/components/Bookings/AddBookingForm.tsx:33-39 | The dialog opens with the start date on today and every other field empty. |
| AddBookingForm.BookingForm.SetStartDate | src/components/Bookings/AddBookingForm.tsx:194-199 | The start date takes the new value. A value later than the chosen end also moves the end to it, so start ≤ end holds afterwards. Nothing else changes. |
| AddBookingForm.BookingForm.SetEndDate | src/components/Bookings/AddBookingForm.tsx:213 | Only the end date changes. |
| AddBookingForm.BookingForm.Submit | src/components/Bookings/AddBookingForm.tsx:62-97 | Nothing is posted iff Validate fails, and then the error is its message. Otherwise the body is exactly client, vehicle, start and end, and the reply sets "Booking added successfully!" or the reply's message or its fallback. Loading ends false. The fields are unchanged. |
| BookingDetails.DetailsTotal | src/components/Bookings/BookingDetailsModal.tsx:34-39 | The unused component's total is 0 without a vehicle, and is non-negative for a non-negative rate. |
| BookingDetails.DetailsMatchesRow | src/components/Bookings/BookingDetailsModal.tsx:34-39 | The unused component's total is the corrected row amount. Whenever the table's amount as written is a number, it equals the component's. |
| BookingDetails.DayLabel | src/components/Bookings/BookingDetailsModal.tsx:84-85 | The plural "days" is shown iff days > 1, so 0 and 1 both read "day". |
| BookingDetails.LabelsDifferOnlyAtZero | src/components/Bookings/BookingDetailsModal.tsx:84-85 | The unused component and the table (`days !== 1`, line 344 of BookingManagement.tsx) use the same unit for every day count except 0. |
| BookingDetails.Badge | src/components/Bookings/BookingDetailsModal.tsx:92-98 | Green iff the status is "Active", grey iff it is "Completed", red for any other text. |
| BookingDetails.BadgeMatchesTable | src/components/Bookings/BookingDetailsModal.tsx:92-98 | For the three statuses the unused component's badge colour is the table's `getStatusColor` colour (BookingManagement.tsx:169-176). |
| BookingDetails.LowerCaseStatusIsRed | src/components/Bookings/BookingDetailsModal.tsx:92-98 | A lower-case "active" is shown red. |
| Permissions.FindModule | src/lib/permissions.ts:132 | `find` returns the role's entry for the module, and none exactly when the role lists no such module. |
| Permissions.GetModulePermissions | src/lib/permissions.ts:138-144 | An unknown role, or a role without the module, gets no actions. Any actions returned are those of an entry for that module in that role's list. |
| Permissions.HasPermission | src/lib/permissions.ts:128-136 | Allowed iff the action is among getModulePermissions for the role and module. Always false for a role not in the table. |
| Permissions.GetUserModules | src/lib/permissions.ts:146-151 | An unknown role gets no modules. A known role gets its module names, one per entry, in table order. |
| Permissions.PermissionImpliesModule | src/lib/permissions.ts:128-151 | A granted permission is always in a module that getUserModules lists for the role. |
| Permissions.CapitalisedRoleUnknown | src/lib/permissions.ts:129-130 | Roles are case-sensitive: "Director" has no permission, no actions and no modules. |
| Permissions.TableModulesUnique | src/lib/permissions.ts:2-126 | Within each role the module names are distinct, so `find` is unambiguous. |
| Permissions.EntryActions | src/lib/permissions.ts:132-135 | When the entry at position k is the first one with its module name, the role's permissions in that module are exactly that entry's actions. |
| Permissions.BookingsRow | src/lib/permissions.ts:18-19 | Locates each role's bookings entry: it is the first one with that name, and it lacks "delete". The same holds at lines 62-63, 90-91 and 114-115. |
| Permissions.NoRoleDeletesBookings | src/lib/permissions.ts:18-19 | No role, not even director, may delete a booking. The entries for the other roles are at lines 62-63, 90-91 and 114-115. |
| Permissions.VehiclesRow | src/lib/permissions.ts:14-15 | Locates each role's vehicles entry: it is the first one with that name, and it has "create" only for director. The same holds at lines 57-58, 86-87 and 110-111. |
| Permissions.OnlyDirectorCreatesVehicles | src/lib/permissions.ts:14-15 | A role may create vehicles iff it is director. The entries for the other roles are at lines 57-58, 86-87 and 110-111. |
| Permissions.NoClientsModule | src/lib/permissions.ts:80-125 | The owner and client roles have no entry for the clients module. |
| Permissions.InheritedRoleThrows | src/lib/permissions.ts:129-135 | The lookup as written agrees with HasPermission on every role that is not an inherited object property name. It throws for "toString", where HasPermission answers false. |
| ClientController.FindExisting | backend/src/controllers/clientController.js:17-23 | `findOne` with `$or` finds nothing iff no stored client shares the upper-cased ID, the trimmed phone or the upper-cased licence. Otherwise it returns a stored client that does. |
| ClientController.DuplicateMessage | backend/src/controllers/clientController.js:25-33 | The message names the ID iff the IDs match. It names the phone iff the IDs differ and the phones match. It names the licence iff neither matches. |
| ClientController.Normalised | backend/src/controllers/clientController.js:41-47 | The stored ID, phone and licence are exactly the keys the duplicate check compared against. |
| ClientController.NormalisedIsNormal | backend/src/controllers/clientController.js:41-47 | Stored values are their own normal form: ID and licence upper-case; name, phone and address trimmed. |
| ClientController.InsertKeepsKeysUnique | backend/src/controllers/clientController.js:17-47 | Appending a client that clashes with no stored client, under a fresh id, keeps IDs, phones, licences and ids pairwise distinct. |
| ClientController.ResubmitRejected | backend/src/controllers/clientController.js:17-33 | A request sent again right after it was stored is found as a duplicate, and the message names the ID. |
| ClientController.BlankNameStoredEmpty | backend/src/controllers/clientController.js:9-14 | A name of white space alone passes the required-field check and is stored as "". |
| ClientController.ClientStore.constructor | backend/src/controllers/clientController.js:1 | Stands for the `Client` collection imported at line 1, whose schema file is not part of this model. It models that collection empty, which satisfies the invariant that IDs, phones, licences and ids are pairwise distinct. |
| ClientController.ClientStore.Add | backend/src/controllers/clientController.js:4-60 | A missing required field gives 400 with the fixed message, and nothing changes. A clash gives 400 with DuplicateMessage for the first clashing client, and nothing changes. Otherwise exactly the normalised document is appended and echoed with 201. The invariant that keys stay unique is kept. |
| ClientController.ClientStore.GetAll | backend/src/controllers/clientController.js:80-91 | Returns every client (the same multiset), sorted newest first, with the count equal to the number of clients. |
| ClientController.ClientStore.GetById | backend/src/controllers/clientController.js:103-118 | 404 "Client not found" iff no client has the id. Otherwise 200 with a stored client that has that id. |
| VehicleManagement.FilteredVehiclesSpec | src/components/Vehicles/VehicleManagement.tsx:56-62 | A vehicle is listed iff it is in the list and the lower-cased term occurs in its lower-cased make, model or plate. The listed vehicles keep their order. |
| VehicleManagement.EmptySearchListsAll | src/components/Vehicles/VehicleManagement.tsx:56-62 | An empty search lists every vehicle. |
| VehicleManagement.SearchIgnoresCase | src/components/Vehicles/VehicleManagement.tsx:56-62 | Upper-casing the term does not change which vehicles match. |
| VehicleManagement.StatusLabel | src/components/Vehicles/VehicleManagement.tsx:256-260 | "Out" iff dateOut is set and dateIn is not; "Available" otherwise. |
| VehicleManagement.RemoveVehicleSpec | src/components/Vehicles/VehicleManagement.tsx:69-74 | Delete drops every vehicle with the chosen id and keeps every other vehicle, as often as it occurred and in order. |
| VehicleManagement.VehiclesScreen.constructor | src/components/Vehicles/VehicleManagement.tsx:25-32 | The screen starts with no vehicles, no selection, both dialogs closed and no error. |
| VehicleManagement.VehiclesScreen.AskDelete | src/components/Vehicles/VehicleManagement.tsx:64-67 | Selects the vehicle and opens the confirmation; the list, the details dialog and the error are unchanged. |
| VehicleManagement.VehiclesScreen.DeleteSelected | src/components/Vehicles/VehicleManagement.tsx:69-81 | With no selection nothing changes. After a resolved DELETE the selected id leaves the list, the selection is cleared and both dialogs close. After a failure only the error changes. |
| VehicleManagement.FieldValue | src/components/Vehicles/VehicleManagement.tsx:343-349 | "year" and "dailyRate" become numbers and every other field keeps the text typed. |
| VehicleManagement.TypedNumberStored | src/components/Vehicles/VehicleManagement.tsx:343-349 | Typing a whole number's numeral into a number field stores that number. |
| VehicleManagement.EmptiedNumberIsZero | src/components/Vehicles/VehicleManagement.tsx:343-349 | Emptying a number field stores 0. |
| VehicleManagement.ZeroRateRefused | src/components/Vehicles/VehicleManagement.tsx:356-366 | A rate of 0 fails the required-field check. |
| VehicleManagement.BlankFormRefused | src/components/Vehicles/VehicleManagement.tsx:328-366 | Submitting the untouched add form is refused (its rate starts at 0). |
| VehicleManagement.VehicleDataFilled | src/components/Vehicles/VehicleManagement.tsx:615-653 | The edit form starts from the vehicle's own values, with missing optional fields as "". Saving it at once passes the check when make, model and plate are set and year and rate are non-zero. |
| VehicleManagement.VehicleForm.Blank | src/components/Vehicles/VehicleManagement.tsx:328-339 | The add form starts at this year, a rate of 0 and empty text fields. |
| VehicleManagement.VehicleForm.FromVehicle | src/components/Vehicles/VehicleManagement.tsx:615-626 | The edit form starts from the vehicle's values. |
| VehicleManagement.VehicleForm.HandleChange | src/components/Vehicles/VehicleManagement.tsx:630-636 | Only the named field changes, to FieldValue of the input. |
| VehicleManagement.VehicleForm.Submit | src/components/Vehicles/VehicleManagement.tsx:638-671 | Sends exactly the form data iff make, model, year, plate and rate are all truthy; otherwise it shows "Please fill in all required fields.". It closes iff the reply succeeds. Otherwise it shows the reply's message or the add or edit fallback. Loading ends false. The add form's submit, at lines 351-383, is the same apart from its fallbacks. |
| ClientManagement.FilteredClientsSpec | src/components/Clients/ClientManagement.tsx:51-56 | A client is listed iff it is in the list and the term occurs, ignoring case, in the name or ID, or occurs as typed in the phone. The listed clients keep their order. |
| ClientManagement.EmptySearchListsAll | src/components/Clients/ClientManagement.tsx:51-56 | An empty search lists every client. |
| ClientManagement.PhoneSearchIsCaseSensitive | src/components/Clients/ClientManagement.tsx:54 | The phone is searched as typed: "AB" finds the phone "07AB" but "ab" does not. |
| ClientManagement.RemoveClientSpec | src/components/Clients/ClientManagement.tsx:66 | Delete drops every client with the chosen id and keeps every other client, as often as it occurred and in order. |
| ClientManagement.ClientsScreen.constructor | src/components/Clients/ClientManagement.tsx:21-28 | The screen starts with no clients, no selection, both dialogs closed and no error. |
| ClientManagement.ClientsScreen.AskDelete | src/components/Clients/ClientManagement.tsx:58-61 | Selects the client and opens the confirmation; the list, the details dialog and the error are unchanged. |
| ClientManagement.ClientsScreen.DeleteSelected | src/components/Clients/ClientManagement.tsx:63-76 | The selected client's id leaves the local list, with no request sent. The selection is cleared and both dialogs close. With no selection nothing changes. |
| AddClientForm.InitialFormRefused | src/components/Clients/AddClientForm.tsx:9-15 | The form starts with every field empty, so an immediate submit is refused. |
| AddClientForm.RequiredMatchesBackend | src/components/Clients/AddClientForm.tsx:31 | The form's required fields are exactly the back end's: the form check passes iff the posted body passes `addClient`'s check (clientController.js:9-14). |
| AddClientForm.ClientForm.constructor | src/components/Clients/AddClientForm.tsx:5-15 | The form starts with every field empty, no error and not loading. |
| AddClientForm.ClientForm.HandleChange | src/components/Clients/AddClientForm.tsx:17-23 | Only the named field changes, to the text typed. |
| AddClientForm.ClientForm.Submit | src/components/Clients/AddClientForm.tsx:25-56 | Posts exactly the form iff name, phone, ID and licence are filled; otherwise it shows "Please fill in all required fields" and posts nothing. It closes iff the reply succeeds. Otherwise it shows the reply's message or the fallback. Loading ends false either way. |
| Reports.InRangeSpec | src/components/Reports/Reports.tsx:22-24 | A booking is reported iff it starts on or after the range start and ends on or before the range end. The reported bookings keep their order. |
| Reports.DaysBooked | src/components/Reports/Reports.tsx:39-46 | A vehicle's days booked is the sum, over all in-range bookings, of the distance between the two dates for the bookings that carry the vehicle's id, and 0 for the rest. It is never negative. |
| Reports.BookedDaysIsDistance | src/components/Reports/Reports.tsx:41-44 | Each booking adds the distance between its two dates. |
| Reports.Utilization | src/components/Reports/Reports.tsx:51 | The utilisation is at most 100. It is 100 iff at least 30 days are booked. Below 100 it is the nearest whole percentage of 30 days. |
| Reports.UtilizationExamples | src/components/Reports/Reports.tsx:51 | 0 days gives 0, 15 gives 50, 1 gives 3, and 45 gives 100. |
| Reports.UtilizationMonotone | src/components/Reports/Reports.tsx:51 | More days booked never lowers the utilisation. |
| Reports.VehicleUtilization | src/components/Reports/Reports.tsx:38-53 | One entry per vehicle, in vehicle order. Each entry has the name "make model", the vehicle's days booked, and the utilisation of those days. |
| Reports.ActivityOf | src/components/Reports/Reports.tsx:57-62 | A client's entry has the client's name. Its booking count is the number of in-range bookings that carry the client's id. Its total spent is the sum of `totalAmount` over those bookings, the key the top-five ranking sorts by. |
| Reports.AllActivity | src/components/Reports/Reports.tsx:56-62 | One entry per client, in client order. |
| Reports.ClientActivity | src/components/Reports/Reports.tsx:56-63 | Five entries, or every client when there are fewer, sorted by amount spent, largest first. Each is a client's own entry, and no client left out spent more than a client shown. |
| Reports.CountStatus | src/components/Reports/Reports.tsx:66-70 | The count of a status is the number of in-range bookings whose status is exactly that text. |
| Reports.BookingStatusData | src/components/Reports/Reports.tsx:66-70 | Three entries named Completed, Active and Cancelled. Their values are the counts of in-range bookings whose status is exactly "completed", "active" and "cancelled", and they add up to at most the number of in-range bookings. |
| Reports.StatusCountsBound | src/components/Reports/Reports.tsx:66-70 | The three lower-case status counts add up to at most the number of bookings. |
| Reports.StatusCountsExact | src/components/Reports/Reports.tsx:66-70 | The counts add up to the number of bookings iff every booking's status is "completed", "active" or "cancelled". |
| Reports.SampleStatusCounts | src/lib/mockData.ts:142-176 | Over December 2024 all three sample bookings are in range. The counts are 1 completed, 1 active and 0 cancelled, because the "confirmed" booking is counted nowhere. |
| AuthMiddleware.BearerToken | backend/src/middlewares/authMiddleware.js:6-11 | A token exists iff the header starts with exactly "Bearer ". It is the text after that prefix, up to the next space. |
| AuthMiddleware.SplitBearer | backend/src/middlewares/authMiddleware.js:11 | A header starting with "Bearer " splits into "Bearer" followed by the pieces of the rest, so element [1] is the text up to the next space. |
| AuthMiddleware.BearerExamples | backend/src/middlewares/authMiddleware.js:6-11 | "Bearer a b" gives "a"; "Bearer " and "Bearer  x" give "". "bearer x" and "Bearer" give no token. |
| AuthMiddleware.Protect | backend/src/middlewares/authMiddleware.js:4-22 | No bearer token (a missing header counts as "") gives 401 "Not authorized, no token". The request is passed on iff the token verifies and a user is found, and the user passed on is the one found. A token that fails to verify (or `jwt.verify` throwing) gives 401 "Not authorized, token failed". A verified token whose user is missing gives 401 "User not found". A lookup that throws gives "Not authorized, token failed". |
| AuthMiddleware.MissingHeaderRefused | backend/src/middlewares/authMiddleware.js:5-8 | Without an Authorization header the answer is 401 "Not authorized, no token". |
| AuthMiddleware.Request.constructor | backend/src/middlewares/authMiddleware.js:4-5 | A request starts with its header and no user. |
| AuthMiddleware.Request.RunProtect | backend/src/middlewares/authMiddleware.js:4-22 | The decision is Protect's. `req.user` is set to the user found exactly when `next` is called, and is left alone on a 401. |
| Text.Upper | backend/src/controllers/clientController.js:19-21 | `toUpperCase` keeps the length and maps each character. |
| Text.UpperIdempotent | backend/src/controllers/clientController.js:43-46 | Upper-casing twice is upper-casing once. |
| Text.Trim | backend/src/controllers/clientController.js:20 | `trim` returns a slice of the input with only white space around it, and the slice neither starts nor ends with white space. |
| Text.TrimFixed | backend/src/controllers/clientController.js:42-45 | A string with no white space at either end is its own trim. |
| Text.TrimIdempotent | backend/src/controllers/clientController.js:42-45 | Trimming twice is trimming once. |
| Text.SplitJoin | backend/src/middlewares/authMiddleware.js:11 | Joining the pieces of `split` with the separator gives back the original string. |
| Text.SplitFirst | backend/src/middlewares/authMiddleware.js:11 | The first piece of `split` is the text before the first separator. |
| Js.NumberOfNumeral | src/components/Vehicles/VehicleManagement.tsx:347 | Unary `+` on a whole number's decimal numeral gives that number. |
| Js.EmptyIsZero | src/components/Vehicles/VehicleManagement.tsx:347 | Unary `+` on "" gives 0. |
| Lists.FilterLength | src/components/Reports/Reports.tsx:59 | `filter(...).length` is the number of positions whose element passes. |
| Lists.SortDesc | backend/src/controllers/clientController.js:84 | Sorting by a key, largest first, returns a permutation of the input that is sorted. |
| Lists.TakeSorted | src/components/Reports/Reports.tsx:63 | `slice(0, k)` of a sorted ordering keeps min(k, length) elements, still sorted, drawn from the input, and none left out has a larger key. |

## Left out

- I/O and frameworks are not modelled. This covers HTTP, axios, React rendering and JSX, Express routing, the MongoDB connection and `console` logging. Each awaited call is a parameter saying how it ended.
- The Client schema file `backend/src/models/Client.js` is not part of this model. Schema-level unique indexes and validators, and the `catch` branch that turns an "already exists" error into a 400, are not modelled.
- The 500 replies of `addClient`, `getAllClients` and `getClientById` are not modelled. These arise from database errors, a malformed id that `findById` cannot cast, or a body field that is not a string.
- The check-then-insert race in `addClient` is not modelled, because requests are handled one at a time here.
- ClientController.FindExisting: `findOne` returns some matching document. The model returns the first in insertion order, and its contract promises only a matching stored client.
- ClientController.ClientStore.Add: the 201 reply carries the whole stored document, including `createdAt`, which the real reply omits. The `success` flag is not modelled.
- ClientController.ClientStore.GetAll: stability among equal creation times is not stated. The sort is stable, but MongoDB does not promise an order for ties.
- Lists.SortDesc: stability of the sort is not proved.
- Dates are day numbers rather than `YYYY-MM-DD` strings or `Date` objects. The model assumes those strings compare in the same order as their day numbers, as they do for four-digit years. Time zones, `Date` parsing of other formats and invalid dates are left out.
- The `setTimeout` that clears the success message and closes the dialog 1.2 s after a booking is added is not modelled (timers).
- Floating point is not modelled. Rates, amounts and day counts are integers, which makes the rounding in `utilization` exact. `parseFloat(total_amount)` is read as the integer amount, and `toLocaleString` formatting is left out.
- Js.ToNumber: unary `+` is modelled for empty text, an optional sign, and decimal digits with an optional fraction. Exponents, hexadecimal, "Infinity" and the like give NaN in the model, whereas JavaScript gives a number.
- Text.Upper: case mapping covers ASCII letters only. Unicode case mapping and special cases such as "ß" are left out.
- The dashboard, the edit-booking, add-vehicle and vehicle-details dialogs, the permission guard, the login flow and session handling are left out. They hold no logic of their own beyond fetching, posting and rendering.
- `getModulePermissions` and `getUserModules` as written also throw for inherited property names, as `hasPermission` does (see Findings). Only `hasPermission` is modelled as written.
- There is no vehicle availability or overlap check, no rule on status transitions, and no price stored with a booking. None exists in the code, so none is modelled. Any status may be set at any time, and totals use the vehicle's current rate.

## Findings

| source | as written | input that shows it | evidently intended | confidence | as-written member | corrected member |
|---|---|---|---|---|---|---|
| src/components/Bookings/BookingManagement.tsx:311-312 | The row amount is `days * booking.vehicle?.dailyRate`, which is `undefined * days` when the booking's vehicle is missing. | A booking whose vehicle was deleted (`vehicle` null): the row shows "KSH NaN", and so does the details dialog the row's View button opens, which repeats the product at BookingManagement.tsx:648 (BookingManagement.ViewDetails). | A missing vehicle's rate reads as 0, as in the stand-alone `BookingDetailsModal.tsx` component (`?? 0`, line 39), which no screen imports. | medium, not executed | BookingManagement.RowTotalAsWrittenIsNaN | BookingManagement.RowTotal |
| src/lib/permissions.ts:129-135 | `PERMISSIONS[userRole]` also finds properties every object inherits, so `!rolePermissions` lets them through. `rolePermissions.find` is then not a function. | `hasPermission('toString', 'bookings', 'view')` throws a TypeError instead of returning false. | Only the table's own roles are found; any other role has no permission. | low, not executed | Permissions.InheritedRoleThrows | Permissions.HasPermission |
