/** Role-based permissions: the fixed table of what each role may do in
    each module, and the three lookups the screens call. */
module Permissions {
  import opened Lists
  import opened Js

  /** One row of a role's list: a module and the actions allowed in it. */
  datatype ModuleEntry = ModuleEntry(moduleName: string, actions: seq<string>)

  const Director: seq<ModuleEntry> := [
    ModuleEntry("dashboard", ["view", "export"]),
    ModuleEntry("clients", ["view", "create", "edit", "delete", "suspend", "export"]),
    ModuleEntry("vehicles", ["view", "create", "edit", "delete", "assign_owner", "maintenance"]),
    ModuleEntry("bookings", ["view", "create", "edit", "cancel", "approve", "dispatch", "checkin"]),
    ModuleEntry("finance", ["view", "create", "edit", "delete", "generate_reports", "export"]),
    ModuleEntry("staff", ["view", "create", "edit", "delete", "assign_permissions"]),
    ModuleEntry("owners", ["view", "create", "edit", "delete", "generate_invoices", "track_earnings"]),
    ModuleEntry("reports", ["view", "generate", "export", "financial_analysis"]),
    ModuleEntry("settings", ["view", "edit", "system_config", "backup"]),
    ModuleEntry("notifications", ["send_bulk_sms", "email_campaigns", "system_alerts"])
  ]

  const Staff: seq<ModuleEntry> := [
    ModuleEntry("dashboard", ["view"]),
    ModuleEntry("clients", ["view", "create", "edit", "suspend"]),
    ModuleEntry("vehicles", ["view", "edit", "maintenance"]),
    ModuleEntry("bookings", ["view", "create", "edit", "dispatch", "checkin"]),
    ModuleEntry("finance", ["view", "create", "generate_receipts"]),
    ModuleEntry("reports", ["view", "generate"]),
    ModuleEntry("notifications", ["send_reminders"])
  ]

  const Owner: seq<ModuleEntry> := [
    ModuleEntry("dashboard", ["view"]),
    ModuleEntry("vehicles", ["view"]),
    ModuleEntry("bookings", ["view"]),
    ModuleEntry("finance", ["view", "track_earnings", "view_expenses"]),
    ModuleEntry("reports", ["view", "earnings_report"])
  ]

  const Client: seq<ModuleEntry> := [
    ModuleEntry("dashboard", ["view"]),
    ModuleEntry("vehicles", ["view"]),
    ModuleEntry("bookings", ["view", "create", "extend"]),
    ModuleEntry("profile", ["view", "edit"]),
    ModuleEntry("receipts", ["view", "download"])
  ]

  /** `PERMISSIONS`, keyed by its own role names (matched case-sensitively). */
  const Table: map<string, seq<ModuleEntry>> :=
    map["director" := Director, "staff" := Staff, "owner" := Owner, "client" := Client]

  function IsModule(moduleName: string): ModuleEntry -> bool
  {
    (e: ModuleEntry) => e.moduleName == moduleName
  }

  /** `rolePermissions.find(p => p.moduleName === moduleName)`. */
  function FindModule(entries: seq<ModuleEntry>, moduleName: string): (r: Option<ModuleEntry>)
    ensures r.None? <==> forall i :: 0 <= i < |entries| ==> entries[i].moduleName != moduleName
    ensures r.Some? ==> r.value.moduleName == moduleName && r.value in entries
  {
    var i := FirstIndex(entries, IsModule(moduleName));
    if i < |entries| then Some(entries[i]) else None
  }

  /** `getModulePermissions`: the actions of the role's entry for the
      module, or none when the role or the entry is missing. */
  function GetModulePermissions(role: string, moduleName: string): (actions: seq<string>)
    ensures role !in Table ==> actions == []
    ensures role in Table && (forall i :: 0 <= i < |Table[role]| ==> Table[role][i].moduleName != moduleName) ==>
              actions == []
    ensures actions != [] ==> role in Table && ModuleEntry(moduleName, actions) in Table[role]
  {
    if role !in Table then []
    else
      var entry := FindModule(Table[role], moduleName);
      if entry.Some? then entry.value.actions else []
  }

  /** `hasPermission`: it agrees with `getModulePermissions` on every role,
      module and action, and is false for a role not in the table. */
  function HasPermission(role: string, moduleName: string, action: string): (allowed: bool)
    ensures allowed <==> action in GetModulePermissions(role, moduleName)
    ensures role !in Table ==> !allowed
  {
    if role !in Table then false
    else
      var entry := FindModule(Table[role], moduleName);
      entry.Some? && action in entry.value.actions
  }

  /** `getUserModules`: the role's module names in table order. */
  function GetUserModules(role: string): (modules: seq<string>)
    ensures role !in Table ==> modules == []
    ensures role in Table ==>
              |modules| == |Table[role]| && forall i :: 0 <= i < |modules| ==> modules[i] == Table[role][i].moduleName
  {
    if role !in Table then []
    else seq(|Table[role]|, i requires 0 <= i < |Table[role]| => Table[role][i].moduleName)
  }

  /** A permission is only ever granted in a module the role lists. */
  lemma PermissionImpliesModule(role: string, moduleName: string, action: string)
    requires HasPermission(role, moduleName, action)
    ensures moduleName in GetUserModules(role)
  {
    var entry := FindModule(Table[role], moduleName);
    var i :| 0 <= i < |Table[role]| && Table[role][i] == entry.value;
    assert GetUserModules(role)[i] == moduleName;
  }

  /** Role names are case-sensitive: "Director" is not a role. */
  lemma CapitalisedRoleUnknown()
    ensures !HasPermission("Director", "bookings", "view")
    ensures GetModulePermissions("Director", "bookings") == []
    ensures GetUserModules("Director") == []
  {
    assert "Director" !in Table;
  }

  /** The modules within each role's list are distinct, so `find` has at
      most one entry to choose. */
  predicate ModulesUnique(entries: seq<ModuleEntry>)
  {
    forall i, j :: 0 <= i < j < |entries| ==> entries[i].moduleName != entries[j].moduleName
  }

  lemma TableModulesUnique()
    ensures forall role :: role in Table ==> ModulesUnique(Table[role])
  {
    assert ModulesUnique(Director);
    assert ModulesUnique(Staff);
    assert ModulesUnique(Owner);
    assert ModulesUnique(Client);
  }

  /** The role's permissions in the module named at index `k` of its list
      are that entry's actions, when no earlier entry has that name. */
  lemma EntryActions(role: string, k: nat, action: string)
    requires role in Table && k < |Table[role]|
    requires forall j :: 0 <= j < k ==> Table[role][j].moduleName != Table[role][k].moduleName
    ensures HasPermission(role, Table[role][k].moduleName, action) <==> action in Table[role][k].actions
  {
    FirstIndexIs(Table[role], IsModule(Table[role][k].moduleName), k);
  }

  /** Where each role lists the bookings module. */
  lemma BookingsRow(role: string) returns (k: nat)
    requires role in Table
    ensures k < |Table[role]| && Table[role][k].moduleName == "bookings"
    ensures forall j :: 0 <= j < k ==> Table[role][j].moduleName != "bookings"
    ensures "delete" !in Table[role][k].actions
  {
    k := if role == "director" || role == "staff" then 3 else 2;
  }

  /** No role, the director included, may delete a booking, so the delete
      button of the booking table is disabled for everyone. */
  lemma NoRoleDeletesBookings(role: string)
    ensures !HasPermission(role, "bookings", "delete")
  {
    if role in Table {
      var k := BookingsRow(role);
      EntryActions(role, k, "delete");
    }
  }

  /** Where each role lists the vehicles module. */
  lemma VehiclesRow(role: string) returns (k: nat)
    requires role in Table
    ensures k < |Table[role]| && Table[role][k].moduleName == "vehicles"
    ensures forall j :: 0 <= j < k ==> Table[role][j].moduleName != "vehicles"
    ensures "create" in Table[role][k].actions <==> role == "director"
  {
    k := if role == "director" || role == "staff" then 2 else 1;
  }

  /** Only the director may add a vehicle. */
  lemma OnlyDirectorCreatesVehicles(role: string)
    ensures HasPermission(role, "vehicles", "create") <==> role == "director"
  {
    if role in Table {
      var k := VehiclesRow(role);
      EntryActions(role, k, "create");
    }
  }

  /** The client and owner roles have no entry for the clients module. */
  lemma NoClientsModule(role: string)
    requires role == "client" || role == "owner"
    ensures "clients" !in GetUserModules(role)
    ensures GetModulePermissions(role, "clients") == []
  {
    assert forall i :: 0 <= i < |Table[role]| ==> Table[role][i].moduleName != "clients";
  }

  // ---------------------------------------------------------------------
  // The role lookup as written
  // ---------------------------------------------------------------------

  /** Names every plain object inherits from `Object.prototype`, so that
      `PERMISSIONS[name]` is defined (a function, or the prototype object)
      though no role has that name. */
  const InheritedNames: set<string> := {
    "constructor", "__proto__", "toString", "toLocaleString", "valueOf", "hasOwnProperty",
    "isPrototypeOf", "propertyIsEnumerable", "__defineGetter__", "__defineSetter__",
    "__lookupGetter__", "__lookupSetter__"
  }

  /** A call that returns a value, or one that throws a `TypeError`. */
  datatype Outcome<T> = Returns(value: T) | ThrowsTypeError

  /** `hasPermission` as written: an inherited name passes the `!rolePermissions`
      test, and `rolePermissions.find` is then not a function. */
  function HasPermissionAsWritten(role: string, moduleName: string, action: string): Outcome<bool>
  {
    if role in Table then
      var entry := FindModule(Table[role], moduleName);
      Returns(entry.Some? && action in entry.value.actions)
    else if role in InheritedNames then ThrowsTypeError
    else Returns(false)
  }

  /** The lookup as written agrees with HasPermission on every role that is
      not an inherited name, and throws for a role named "toString" instead
      of answering false. */
  lemma InheritedRoleThrows(role: string, moduleName: string, action: string)
    ensures role !in InheritedNames ==>
              HasPermissionAsWritten(role, moduleName, action) == Returns(HasPermission(role, moduleName, action))
    ensures HasPermissionAsWritten("toString", moduleName, action) == ThrowsTypeError
    ensures !HasPermission("toString", moduleName, action)
  {
    assert "toString" !in Table;
  }
}
