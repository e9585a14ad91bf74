/** The client page: the search, the delete confirmation and the
    placeholders for a client never seen and for empty notes. */
module ClientList {
  import opened Seqs
  import opened Text
  import opened Types
  import opened DataContext

  /** The name or email includes the query ignoring case, or the phone
      includes the query as typed. */
  function ClientMatches(query: string): Client -> bool
  {
    (c: Client) =>
      Contains(ToLower(c.name), ToLower(query)) || Contains(ToLower(c.email), ToLower(query)) ||
      Contains(c.phone, query)
  }

  /** `filteredClients` */
  function FilteredClients(clients: seq<Client>, query: string): (r: seq<Client>)
    ensures Subseq(r, clients)
    ensures forall c :: c in r <==> c in clients && ClientMatches(query)(c)
  {
    FilterIsSubseq(clients, ClientMatches(query));
    Filter(clients, ClientMatches(query))
  }

  lemma EmptySearchKeepsEveryone(clients: seq<Client>)
    ensures FilteredClients(clients, "") == clients
  {
    forall i | 0 <= i < |clients|
      ensures ClientMatches("")(clients[i])
    {
      ContainsEmpty(ToLower(clients[i].name));
    }
    FilterAll(clients, ClientMatches(""));
  }

  /** A longer query keeps no more clients: one that includes a query also
      includes each of its parts. */
  lemma NarrowingSearch(clients: seq<Client>, query: string, k: nat)
    requires k <= |query|
    ensures |FilteredClients(clients, query)| <= |FilteredClients(clients, query[..k])|
  {
    forall c | c in clients && ClientMatches(query)(c)
      ensures ClientMatches(query[..k])(c)
    {
      assert ToLower(query)[..k] == ToLower(query[..k]);
      if Contains(ToLower(c.name), ToLower(query)) {
        ContainsPrefix(ToLower(c.name), ToLower(query), k);
      } else if Contains(ToLower(c.email), ToLower(query)) {
        ContainsPrefix(ToLower(c.email), ToLower(query), k);
      } else {
        ContainsPrefix(c.phone, query, k);
      }
    }
    FilterMonotone(clients, ClientMatches(query), ClientMatches(query[..k]));
  }

  /** A string that includes `q` includes every prefix of `q`. */
  lemma ContainsPrefix(s: string, q: string, k: nat)
    requires k <= |q| && Contains(s, q)
    ensures Contains(s, q[..k])
  {
    ContainsIff(s, q);
    var i :| OccursAt(s, q, i);
    assert s[i..i + k] == q[..k];
    assert OccursAt(s, q[..k], i);
    ContainsIff(s, q[..k]);
  }

  // ---------------------------------------------------------------- placeholders

  /** The last-visit column: `Nunca` for a client never seen, otherwise
      the visit date (shown in the locale's format). */
  datatype VisitLabel = Never | VisitedOn(date: string)

  function LastVisitLabel(c: Client): (r: VisitLabel)
    ensures r == Never <==> c.lastVisit == None || c.lastVisit == Some("")
    ensures r.VisitedOn? ==> c.lastVisit == Some(r.date)
  {
    match c.lastVisit
    case None => Never
    case Some(v) => if v == "" then Never else VisitedOn(v)
  }

  const NeverText := "Nunca"
  const NoNotesText := "Sin notas"

  /** `client.notes || 'Sin notas'` */
  function NotesLabel(c: Client): (r: string)
    ensures c.notes == "" ==> r == NoNotesText
    ensures c.notes != "" ==> r == c.notes
  {
    if c.notes == "" then NoNotesText else c.notes
  }

  // ---------------------------------------------------------------- the page

  class ClientListView {
    var query: string
    /** The client whose deletion awaits confirmation. */
    var selected: Option<Client>

    constructor ()
      ensures query == "" && selected == None
    {
      query := "";
      selected := None;
    }

    /** `confirmDelete`: deletes the selected client and clears the selection. */
    method ConfirmDelete(store: DataStore)
      requires store.Valid()
      modifies this, store
      ensures store.Valid()
      ensures old(selected).Some? ==>
        store.clients == RemoveWhere(old(store.clients), ClientKey, old(selected).value.id)
      ensures old(selected).None? ==> store.clients == old(store.clients)
      ensures selected == None && query == old(query)
      ensures store.services == old(store.services) && store.appointments == old(store.appointments)
      ensures store.employees == old(store.employees) && store.transactions == old(store.transactions)
    {
      if selected.Some? {
        store.DeleteClient(selected.value.id);
        selected := None;
      }
    }
  }
}
