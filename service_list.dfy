/** The catalogue page: the distinct categories, the search and category
    filter, and the delete confirmation. */
module ServiceList {
  import opened Seqs
  import opened Text
  import opened Types
  import opened DataContext
  import opened AppointmentForm

  /** `Array.from(new Set(services.map(s => s.category)))` */
  function Categories(services: seq<Service>): (r: seq<string>)
    ensures NoDuplicates(r)
    ensures forall i :: 0 <= i < |services| ==> services[i].category in r
  {
    Dedupe(Map(services, Category))
  }

  /** Each category once, every service's category among them, no other,
      in the order the categories first appear in the catalogue. */
  lemma CategoriesShape(services: seq<Service>)
    ensures NoDuplicates(Categories(services))
    ensures forall i :: 0 <= i < |services| ==> services[i].category in Categories(services)
    ensures forall c :: c in Categories(services) ==> exists i :: 0 <= i < |services| && services[i].category == c
    ensures forall i, j :: 0 <= i < j < |Categories(services)| ==>
              FirstIndex(Map(services, Category), Categories(services)[i]) <
              FirstIndex(Map(services, Category), Categories(services)[j])
  {
    var cats := Map(services, Category);
    forall i | 0 <= i < |services|
      ensures services[i].category in Categories(services)
    {
      assert cats[i] == services[i].category;
    }
    forall c | c in Categories(services)
      ensures exists i :: 0 <= i < |services| && services[i].category == c
    {
      var k :| 0 <= k < |cats| && cats[k] == c;
      assert services[k].category == c;
    }
    DedupeFirstOccurrenceOrder(cats);
  }

  // ---------------------------------------------------------------- filter

  /** The name or description includes the query, ignoring case, and the
      category filter is empty or is the service's category. */
  function ServiceMatches(query: string, category: string): Service -> bool
  {
    (s: Service) =>
      (Contains(ToLower(s.name), ToLower(query)) || Contains(ToLower(s.description), ToLower(query))) &&
      (category == "" || s.category == category)
  }

  /** `filteredServices` */
  function FilteredServices(services: seq<Service>, query: string, category: string): (r: seq<Service>)
    ensures Subseq(r, services)
    ensures forall s :: s in r <==> s in services && ServiceMatches(query, category)(s)
  {
    FilterIsSubseq(services, ServiceMatches(query, category));
    Filter(services, ServiceMatches(query, category))
  }

  /** No search and no category keeps the whole catalogue, in order. */
  lemma NoFilterKeepsEverything(services: seq<Service>)
    ensures FilteredServices(services, "", "") == services
  {
    forall i | 0 <= i < |services|
      ensures ServiceMatches("", "")(services[i])
    {
      ContainsEmpty(ToLower(services[i].name));
    }
    FilterAll(services, ServiceMatches("", ""));
  }

  /** Choosing a category without a search lists exactly that category's
      group of the appointment form. */
  lemma CategoryOnlyIsGroup(services: seq<Service>, category: string)
    requires category != ""
    ensures FilteredServices(services, "", category) == Members(services, category)
  {
    forall i | 0 <= i < |services|
      ensures ServiceMatches("", category)(services[i]) == InCategory(category)(services[i])
    {
      ContainsEmpty(ToLower(services[i].name));
    }
    FilterSame(services, ServiceMatches("", category), InCategory(category));
    MembersAreFilter(services, category);
  }

  // ---------------------------------------------------------------- the page

  class ServiceListView {
    var query: string
    var category: string
    /** The service whose deletion awaits confirmation. */
    var selected: Option<Service>

    constructor ()
      ensures query == "" && category == "" && selected == None
    {
      query := "";
      category := "";
      selected := None;
    }

    /** `confirmDelete`: deletes the selected service and clears the selection. */
    method ConfirmDelete(store: DataStore)
      requires store.Valid()
      modifies this, store
      ensures store.Valid()
      ensures old(selected).Some? ==>
        store.services == RemoveWhere(old(store.services), ServiceKey, old(selected).value.id)
      ensures old(selected).None? ==> store.services == old(store.services)
      ensures selected == None && query == old(query) && category == old(category)
      ensures store.clients == old(store.clients) && store.appointments == old(store.appointments)
      ensures store.employees == old(store.employees) && store.transactions == old(store.transactions)
    {
      if selected.Some? {
        store.DeleteService(selected.value.id);
        selected := None;
      }
    }
  }
}
