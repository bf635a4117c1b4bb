/** The client list screen: its search and the local delete. */
module ClientManagement {
  import opened Text
  import opened Js
  import opened Lists

  /** A client as the list receives it. */
  datatype ClientRow = ClientRow(
    id: string,
    fullName: string,
    idOrPassport: string,
    phone: string,
    address: Option<string>,
    licenseNumber: string,
    createdAt: string)

  /** The term occurs, ignoring ASCII case, in the name or the ID/passport
      number, or occurs as typed in the phone number. */
  predicate MatchesSearch(c: ClientRow, searchTerm: string)
  {
    Contains(Lower(c.fullName), Lower(searchTerm)) ||
    Contains(Lower(c.idOrPassport), Lower(searchTerm)) ||
    Contains(c.phone, searchTerm)
  }

  function Matching(searchTerm: string): ClientRow -> bool
  {
    (c: ClientRow) => MatchesSearch(c, searchTerm)
  }

  /** `filteredClients`. */
  function FilteredClients(clients: seq<ClientRow>, searchTerm: string): seq<ClientRow>
  {
    Filter(clients, Matching(searchTerm))
  }

  /** A client is listed iff it is in the list and matches; the listed
      clients keep their order. */
  lemma FilteredClientsSpec(clients: seq<ClientRow>, searchTerm: string, c: ClientRow)
    ensures c in FilteredClients(clients, searchTerm) <==> c in clients && MatchesSearch(c, searchTerm)
    ensures IsSubsequence(FilteredClients(clients, searchTerm), clients)
  {
    FilterMember(clients, Matching(searchTerm), c);
    FilterIsSubsequence(clients, Matching(searchTerm));
  }

  /** An empty search lists every client. */
  lemma EmptySearchListsAll(clients: seq<ClientRow>)
    ensures FilteredClients(clients, "") == clients
  {
    LowerEmpty();
    forall i | 0 <= i < |clients| ensures Matching("")(clients[i]) {
      ContainsEmpty(Lower(clients[i].fullName));
    }
    FilterAll(clients, Matching(""));
  }

  /** Unlike the name, the phone number is searched case-sensitively: a
      phone "07AB" is found by "AB" but not by "ab" when nothing else
      matches. */
  lemma PhoneSearchIsCaseSensitive(id: string, createdAt: string)
    ensures MatchesSearch(ClientRow(id, "", "", "07AB", None, "", createdAt), "AB")
    ensures !MatchesSearch(ClientRow(id, "", "", "07AB", None, "", createdAt), "ab")
  {
    assert OccursAt("07AB", "AB", 2);
    assert Lower("ab") == "ab";
    assert !Contains("07AB", "ab") by {
      forall i | 0 <= i <= 2 ensures !OccursAt("07AB", "ab", i) {
        assert "07AB"[i + 1] != 'b';
      }
    }
  }

  function NotId(clientId: string): ClientRow -> bool
  {
    (c: ClientRow) => c.id != clientId
  }

  /** `prev.filter(client => client._id !== selectedClient._id)`. */
  function RemoveClient(clients: seq<ClientRow>, clientId: string): seq<ClientRow>
  {
    Filter(clients, NotId(clientId))
  }

  /** Delete drops exactly the clients with the chosen id; the others stay,
      as often as they were there, in their order. */
  lemma RemoveClientSpec(clients: seq<ClientRow>, clientId: string, c: ClientRow)
    ensures multiset(RemoveClient(clients, clientId))[c] == if c.id == clientId then 0 else multiset(clients)[c]
    ensures IsSubsequence(RemoveClient(clients, clientId), clients)
  {
    FilterCount(clients, NotId(clientId), c);
    FilterIsSubsequence(clients, NotId(clientId));
  }

  /** The state of the client list screen that its handlers update. */
  class ClientsScreen {
    var clients: seq<ClientRow>
    var selected: Option<ClientRow>
    var showDeleteConfirm: bool
    var showDetailsModal: bool
    var error: string

    constructor ()
      ensures clients == [] && selected == None && !showDeleteConfirm && !showDetailsModal && error == ""
    {
      clients := [];
      selected := None;
      showDeleteConfirm := false;
      showDetailsModal := false;
      error := "";
    }

    /** `handleDeleteClick`. */
    method AskDelete(c: ClientRow)
      modifies this
      ensures selected == Some(c) && showDeleteConfirm
      ensures clients == old(clients) && showDetailsModal == old(showDetailsModal) && error == old(error)
    {
      selected := Some(c);
      showDeleteConfirm := true;
    }

    /** `handleDeleteClient`: the selected client leaves the local list
        only (no request is sent), the selection is cleared and both
        dialogs close; with no selection nothing happens. */
    method DeleteSelected()
      modifies this
      ensures old(selected).None? ==>
                clients == old(clients) && selected == None &&
                showDeleteConfirm == old(showDeleteConfirm) && showDetailsModal == old(showDetailsModal)
      ensures old(selected).Some? ==>
                clients == RemoveClient(old(clients), old(selected).value.id) &&
                selected == None && !showDeleteConfirm && !showDetailsModal
      ensures error == old(error)
    {
      if selected.None? {
        return;
      }
      clients := RemoveClient(clients, selected.value.id);
      showDeleteConfirm := false;
      showDetailsModal := false;
      selected := None;
    }
  }
}
