/** The Customers page: the search and status filters over the loaded
    customers, and how the list and the modal change after the repository
    answers a save or a delete. The repository's answer is a parameter; the
    page only decides what to do with it. */
module CustomersPage {
  import opened Common
  import opened Lists
  import opened CustomerService

  /** The page's search box: the lower-cased query in the lower-cased name or
      email, or the query exactly as typed in the whatsapp number. */
  function QueryMatches(query: string): Customer -> bool {
    (c: Customer) =>
      Contains(Lower(c.name), Lower(query)) || Contains(Lower(c.email), Lower(query)) || Contains(c.whatsapp, query)
  }

  /** `filterCustomers`: the search, when set, then the status filter, when set. */
  function Visible(cs: seq<Customer>, query: string, statusFilter: string): seq<Customer> {
    var s1 := if query != "" then Filter(cs, QueryMatches(query)) else cs;
    if statusFilter != "all" then Filter(s1, StatusIs(statusFilter)) else s1
  }

  /** Both conditions a shown customer meets. */
  function Shown(query: string, statusFilter: string): Customer -> bool {
    (c: Customer) => (query == "" || QueryMatches(query)(c)) && (statusFilter == "all" || c.status == statusFilter)
  }

  /** A customer is shown iff it meets both conditions, and the shown ones keep
      their list order. */
  lemma VisibleSelectsShown(cs: seq<Customer>, query: string, statusFilter: string)
    ensures Visible(cs, query, statusFilter) == Filter(cs, Shown(query, statusFilter))
    ensures Selects(Visible(cs, query, statusFilter), cs, Shown(query, statusFilter))
  {
    var q := (c: Customer) => query == "" || QueryMatches(query)(c);
    var s1 := if query != "" then Filter(cs, QueryMatches(query)) else cs;
    if query != "" {
      FilterFilter(cs, (c: Customer) => true, QueryMatches(query), q);
      FilterKeepsAll(cs, (c: Customer) => true);
    } else {
      FilterKeepsAll(cs, q);
    }
    assert s1 == Filter(cs, q);
    if statusFilter != "all" {
      FilterFilter(cs, q, StatusIs(statusFilter), Shown(query, statusFilter));
    } else {
      FilterFilter(cs, q, (c: Customer) => true, Shown(query, statusFilter));
      FilterKeepsAll(s1, (c: Customer) => true);
    }
    FilterSelects(cs, Shown(query, statusFilter));
  }

  /** With an empty query and the "all" filter, every customer is shown. */
  lemma VisibleWithoutFilters(cs: seq<Customer>)
    ensures Visible(cs, "", "all") == cs
  {
  }

  /** The whatsapp number is matched against the query as typed here, while
      the repository's search lower-cases it first: a number holding a capital
      letter is found by the page and missed by the repository. */
  lemma WhatsappCaseDiffers()
    ensures var c := Customer(1, "", "", "X", "", "active", 0, 0, None, None, None, None, []);
      QueryMatches("X")(c) && !SearchMatches("X")(c)
  {
    var c := Customer(1, "", "", "X", "", "active", 0, 0, None, None, None, None, []);
    assert StartsWith(c.whatsapp, "X");
    assert Lower("X") == "x";
    assert !Contains("", "x");
    assert !Contains("X", "x") by {
      assert !StartsWith("X", "x");
      assert "X"[1..] == "";
    }
  }

  /** What the page shows: the customer list and whether the modal is open. */
  datatype Screen = Screen(customers: seq<Customer>, showModal: bool)

  /** `handleSaveCustomer`, given the repository's answer to the `update` (when
      a customer is being edited) or `create` call: on success an edit replaces
      the entries with the edited `Id` and an addition appends, and the modal
      closes; on failure the screen stays as it was. */
  function AfterSave(s: Screen, editing: Option<Customer>, outcome: Result<Customer>): (r: Screen)
    ensures outcome.Err? ==> r == s
    ensures outcome.Ok? ==> !r.showModal
    ensures outcome.Ok? && editing.Some? ==>
      && |r.customers| == |s.customers|
      && forall i :: 0 <= i < |s.customers| ==>
           r.customers[i] == if s.customers[i].id == editing.value.id then outcome.value else s.customers[i]
    ensures outcome.Ok? && editing.None? ==> r.customers == s.customers + [outcome.value]
  {
    match outcome
    case Err(_) => s
    case Ok(saved) =>
      if editing.Some? then
        Screen(MapWhere(s.customers, (c: Customer) => c.id == editing.value.id, (_: Customer) => saved), false)
      else
        Screen(s.customers + [saved], false)
  }

  /** `handleDeleteCustomer`, given whether the user confirmed and, when they
      did, the repository's answer: only a confirmed and successful delete
      drops the customers with that `Id`. */
  function AfterDelete(cs: seq<Customer>, id: int, confirmed: bool, outcome: Result<bool>): (r: seq<Customer>)
    ensures !confirmed || outcome.Err? ==> r == cs
    ensures confirmed && outcome.Ok? ==> Selects(r, cs, (c: Customer) => c.id != id)
  {
    if confirmed && outcome.Ok? then
      FilterSelects(cs, (c: Customer) => c.id != id);
      Filter(cs, (c: Customer) => c.id != id)
    else cs
  }
}
