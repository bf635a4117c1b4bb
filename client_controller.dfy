/** The client endpoints of the backend: registering a client (required
    fields, normalisation, rejection of a duplicate ID, phone or licence),
    listing all clients newest first, and fetching one by id. The client
    collection is a sequence of documents in insertion order. */
module ClientController {
  import opened Text
  import opened Js
  import opened Lists

  /** A stored client document. `id` stands for the generated `_id`;
      `createdAtMs` is the creation timestamp. */
  datatype Client = Client(
    id: nat,
    fullName: string,
    idOrPassport: string,
    phone: string,
    address: Option<string>,
    licenseNumber: string,
    createdAtMs: int)

  /** The body of a registration request; a field may be absent. */
  datatype ClientRequest = ClientRequest(
    fullName: Option<string>,
    idOrPassport: Option<string>,
    phone: Option<string>,
    address: Option<string>,
    licenseNumber: Option<string>)

  /** A reply: HTTP status, message and the client it carries, if any. */
  datatype Response = Response(status: int, message: string, data: Option<Client>)

  const MissingFields: string :=
    "Missing required fields: fullName, idOrPassport, phone, and licenseNumber are required"
  const AlreadyExists: string := "Client already exists with "
  const Added: string := "Client added successfully"
  const NotFound: string := "Client not found"

  /** The four required fields are present and non-empty (white space
      alone counts as present). */
  predicate HasRequired(r: ClientRequest)
  {
    Truthy(r.fullName) && Truthy(r.idOrPassport) && Truthy(r.phone) && Truthy(r.licenseNumber)
  }

  /** The three values a new client is compared on, normalised as they
      are stored. */
  datatype Keys = Keys(idOrPassport: string, phone: string, licenseNumber: string)

  function KeysOf(r: ClientRequest): Keys
    requires HasRequired(r)
  {
    Keys(Upper(r.idOrPassport.value), Trim(r.phone.value), Upper(r.licenseNumber.value))
  }

  /** A stored client matches one of the `$or` conditions. */
  predicate Clashes(c: Client, k: Keys)
  {
    c.idOrPassport == k.idOrPassport || c.phone == k.phone || c.licenseNumber == k.licenseNumber
  }

  function ClashesWith(k: Keys): Client -> bool
  {
    (c: Client) => Clashes(c, k)
  }

  /** `Client.findOne({ $or: [...] })`: the first stored client, in
      insertion order, that shares a key. */
  function FindExisting(clients: seq<Client>, k: Keys): (r: Option<Client>)
    ensures r.None? <==> forall i :: 0 <= i < |clients| ==> !Clashes(clients[i], k)
    ensures r.Some? ==> r.value in clients && Clashes(r.value, k)
  {
    var i := FirstIndex(clients, ClashesWith(k));
    if i < |clients| then Some(clients[i]) else None
  }

  /** The rejection message names the first key, in the order ID, phone,
      licence, that the found client shares. */
  function DuplicateMessage(existing: Client, k: Keys): (message: string)
    requires Clashes(existing, k)
    ensures message == AlreadyExists + "this ID/Passport number" <==> existing.idOrPassport == k.idOrPassport
    ensures message == AlreadyExists + "this phone number" <==>
              existing.idOrPassport != k.idOrPassport && existing.phone == k.phone
    ensures message == AlreadyExists + "this license number" <==>
              existing.idOrPassport != k.idOrPassport && existing.phone != k.phone
  {
    if existing.idOrPassport == k.idOrPassport then AlreadyExists + "this ID/Passport number"
    else if existing.phone == k.phone then AlreadyExists + "this phone number"
    else AlreadyExists + "this license number"
  }

  /** The document `Client.create` stores for a request. */
  function Normalised(r: ClientRequest, id: nat, nowMs: int): (c: Client)
    requires HasRequired(r)
    ensures Keys(c.idOrPassport, c.phone, c.licenseNumber) == KeysOf(r)
  {
    Client(
      id,
      Trim(r.fullName.value),
      Upper(r.idOrPassport.value),
      Trim(r.phone.value),
      if Truthy(r.address) then Some(Trim(r.address.value)) else None,
      Upper(r.licenseNumber.value),
      nowMs)
  }

  /** The stored values are their own normal form: the stored ID and
      licence are upper-case, the stored name, phone and address carry no
      surrounding white space. */
  lemma NormalisedIsNormal(r: ClientRequest, id: nat, nowMs: int)
    requires HasRequired(r)
    ensures var c := Normalised(r, id, nowMs);
            Upper(c.idOrPassport) == c.idOrPassport && Upper(c.licenseNumber) == c.licenseNumber &&
            Trim(c.fullName) == c.fullName && Trim(c.phone) == c.phone &&
            (c.address.Some? ==> Trim(c.address.value) == c.address.value)
  {
    UpperIdempotent(r.idOrPassport.value);
    UpperIdempotent(r.licenseNumber.value);
    TrimIdempotent(r.fullName.value);
    TrimIdempotent(r.phone.value);
    if Truthy(r.address) {
      TrimIdempotent(r.address.value);
    }
  }

  /** The ID, phone and licence values of the stored clients are each
      pairwise distinct, and so are their ids. */
  predicate UniqueKeys(clients: seq<Client>)
  {
    forall i, j :: 0 <= i < j < |clients| ==>
      clients[i].id != clients[j].id &&
      clients[i].idOrPassport != clients[j].idOrPassport &&
      clients[i].phone != clients[j].phone &&
      clients[i].licenseNumber != clients[j].licenseNumber
  }

  /** Inserting a client that clashes with no stored client, under a fresh
      id, keeps every key unique. */
  lemma InsertKeepsKeysUnique(clients: seq<Client>, c: Client)
    requires UniqueKeys(clients)
    requires forall i :: 0 <= i < |clients| ==> !Clashes(clients[i], Keys(c.idOrPassport, c.phone, c.licenseNumber))
    requires forall i :: 0 <= i < |clients| ==> clients[i].id != c.id
    ensures UniqueKeys(clients + [c])
  {
    var s := clients + [c];
    forall i, j | 0 <= i < j < |s|
      ensures s[i].id != s[j].id && s[i].idOrPassport != s[j].idOrPassport &&
              s[i].phone != s[j].phone && s[i].licenseNumber != s[j].licenseNumber
    {
      if j == |clients| {
        assert s[i] == clients[i] && s[j] == c;
        assert !Clashes(clients[i], Keys(c.idOrPassport, c.phone, c.licenseNumber));
      }
    }
  }

  /** A request that was just stored is refused if sent again: the stored
      document is the first clash, and the message names the ID. */
  lemma ResubmitRejected(clients: seq<Client>, r: ClientRequest, id: nat, nowMs: int)
    requires HasRequired(r)
    requires forall i :: 0 <= i < |clients| ==> !Clashes(clients[i], KeysOf(r))
    ensures FindExisting(clients + [Normalised(r, id, nowMs)], KeysOf(r)) == Some(Normalised(r, id, nowMs))
    ensures DuplicateMessage(Normalised(r, id, nowMs), KeysOf(r)) == AlreadyExists + "this ID/Passport number"
  {
    var stored := clients + [Normalised(r, id, nowMs)];
    assert forall i :: 0 <= i < |clients| ==> stored[i] == clients[i];
    FirstIndexIs(stored, ClashesWith(KeysOf(r)), |clients|);
  }

  /** A name of white space alone passes the required-field check and is
      stored empty. */
  lemma BlankNameStoredEmpty(id: nat, nowMs: int)
    ensures var r := ClientRequest(Some(" "), Some("a1"), Some("0700"), None, Some("l1"));
            HasRequired(r) && Normalised(r, id, nowMs).fullName == ""
  {
    var r := ClientRequest(Some(" "), Some("a1"), Some("0700"), None, Some("l1"));
    assert IsJsSpace(r.fullName.value[0]);
    assert SkipSpace(" ", 0) == 1;
  }

  /** `-createdAt`: the newest first. */
  function CreatedAt(c: Client): int
  {
    c.createdAtMs
  }

  /** The client collection, with the id the next insert receives. */
  class ClientStore {
    var clients: seq<Client>
    var nextId: nat

    predicate Valid()
      reads this
    {
      UniqueKeys(clients) && forall i :: 0 <= i < |clients| ==> clients[i].id < nextId
    }

    constructor ()
      ensures clients == [] && nextId == 0 && Valid()
    {
      clients := [];
      nextId := 0;
    }

    /** `addClient`: a request missing a required field, or sharing a
        normalised key with a stored client, is refused with 400 and
        changes nothing; otherwise exactly one normalised document is
        appended and echoed with 201. Unique keys stay unique. */
    method Add(r: ClientRequest, nowMs: int) returns (resp: Response)
      requires Valid()
      modifies this
      ensures Valid()
      ensures !HasRequired(r) ==>
                resp == Response(400, MissingFields, None) && clients == old(clients) && nextId == old(nextId)
      ensures HasRequired(r) && FindExisting(old(clients), KeysOf(r)).Some? ==>
                resp == Response(400, DuplicateMessage(FindExisting(old(clients), KeysOf(r)).value, KeysOf(r)), None) &&
                clients == old(clients) && nextId == old(nextId)
      ensures HasRequired(r) && FindExisting(old(clients), KeysOf(r)).None? ==>
                clients == old(clients) + [Normalised(r, old(nextId), nowMs)] && nextId == old(nextId) + 1 &&
                resp == Response(201, Added, Some(Normalised(r, old(nextId), nowMs)))
    {
      if !HasRequired(r) {
        return Response(400, MissingFields, None);
      }
      var keys := KeysOf(r);
      var existing := FindExisting(clients, keys);
      if existing.Some? {
        return Response(400, DuplicateMessage(existing.value, keys), None);
      }
      var c := Normalised(r, nextId, nowMs);
      InsertKeepsKeysUnique(clients, c);
      clients := clients + [c];
      nextId := nextId + 1;
      resp := Response(201, Added, Some(c));
    }

    /** `getAllClients`: every client, newest first, with their count. */
    method GetAll() returns (count: nat, data: seq<Client>)
      ensures multiset(data) == multiset(clients)
      ensures SortedDesc(data, CreatedAt)
      ensures count == |data| == |clients|
    {
      data := SortDesc(clients, CreatedAt);
      assert |data| == |multiset(data)| == |multiset(clients)| == |clients|;
      count := |data|;
    }

    /** `getClientById`: 404 when no client has the id, otherwise 200 with
        that client. */
    method GetById(id: nat) returns (resp: Response)
      ensures (forall i :: 0 <= i < |clients| ==> clients[i].id != id) <==> resp == Response(404, NotFound, None)
      ensures resp.status == 200 ==> resp.data.Some? && resp.data.value in clients && resp.data.value.id == id
      ensures resp.status == 200 || resp.status == 404
    {
      var i := FirstIndex(clients, (c: Client) => c.id == id);
      if i < |clients| {
        resp := Response(200, "", Some(clients[i]));
      } else {
        resp := Response(404, NotFound, None);
      }
    }
  }
}
