/** The in-memory customer repository: a module-level list of customers that
    `create` validates and appends to, `update` and `updateLastContacted`
    overwrite in place and `delete` splices from, plus the search and the
    status and branch filters. */
module CustomerService {
  import opened Common
  import opened Lists

  /** A customer. The seeded ones carry an `assignedAgent` and `notes`; the
      ones saved from the customer form carry `assignedStaff` and `package`. */
  datatype Customer = Customer(
    id: int,
    name: string,
    email: string,
    whatsapp: string,
    branch: string,
    status: string,
    createdAt: int,
    lastContacted: int,
    assignedAgent: Option<string>,
    assignedStaff: Option<string>,
    package: Option<string>,
    notes: Option<string>,
    tags: seq<string>)

  /** What the customer form hands to `create`: its seven text fields, and
      `tags` only when a caller supplies them. */
  datatype CustomerInput = CustomerInput(
    name: string,
    email: string,
    whatsapp: string,
    branch: string,
    assignedStaff: string,
    package: string,
    status: string,
    tags: Option<seq<string>>)

  /** The `updates` object of `update`: a field left out is `None`. */
  datatype CustomerPatch = CustomerPatch(
    name: Option<string>,
    email: Option<string>,
    whatsapp: Option<string>,
    branch: Option<string>,
    status: Option<string>,
    assignedStaff: Option<string>,
    package: Option<string>,
    notes: Option<string>,
    tags: Option<seq<string>>)

  const RequiredMessage := "Name, email, and WhatsApp are required"

  /** `!name || !email || !whatsapp`: the input `create` turns away. */
  predicate MissingRequired(input: CustomerInput) {
    input.name == "" || input.email == "" || input.whatsapp == ""
  }

  function Keep<T>(given: Option<T>, kept: T): T {
    if given.Some? then given.value else kept
  }

  /** `{ ...c, ...patch }`. */
  function Patched(c: Customer, p: CustomerPatch): Customer {
    c.(name := Keep(p.name, c.name), email := Keep(p.email, c.email), whatsapp := Keep(p.whatsapp, c.whatsapp),
       branch := Keep(p.branch, c.branch), status := Keep(p.status, c.status),
       assignedStaff := if p.assignedStaff.Some? then p.assignedStaff else c.assignedStaff,
       package := if p.package.Some? then p.package else c.package,
       notes := if p.notes.Some? then p.notes else c.notes,
       tags := Keep(p.tags, c.tags))
  }

  /** A patch never touches the id, the dates or the agent. */
  lemma PatchedKeepsIdentity(c: Customer, p: CustomerPatch)
    ensures var r := Patched(c, p);
      r.id == c.id && r.createdAt == c.createdAt && r.lastContacted == c.lastContacted && r.assignedAgent == c.assignedAgent
  {
  }

  /** `Math.max(...customers.map(c => c.Id))` on a non-empty list. */
  function MaxId(cs: seq<Customer>): (m: int)
    requires |cs| > 0
    ensures forall i :: 0 <= i < |cs| ==> cs[i].id <= m
    ensures exists i :: 0 <= i < |cs| && cs[i].id == m
  {
    var rest := Project(cs[1..], (c: Customer) => c.id);
    var m := MaxFrom(cs[0].id, rest);
    assert forall j :: 0 <= j < |rest| ==> rest[j] == cs[j + 1].id;
    m
  }

  /** `findIndex(c => c.Id === id)`. */
  function IndexStrict(cs: seq<Customer>, id: JsId): (k: int)
    ensures -1 <= k < |cs|
    ensures 0 <= k ==> StrictEqualsId(id, cs[k].id)
    ensures k == -1 <==> forall j :: 0 <= j < |cs| ==> !StrictEqualsId(id, cs[j].id)
  {
    FindIndex(cs, (c: Customer) => StrictEqualsId(id, c.id))
  }

  /** The search box of the repository: the query is lower-cased once, then
      looked for in the lower-cased name, email and branch, and in the
      whatsapp number as stored. */
  function SearchMatches(query: string): Customer -> bool {
    var term := Lower(query);
    (c: Customer) =>
      Contains(Lower(c.name), term) || Contains(Lower(c.email), term) ||
      Contains(c.whatsapp, term) || Contains(Lower(c.branch), term)
  }

  function StatusIs(status: string): Customer -> bool {
    (c: Customer) => c.status == status
  }

  function BranchIs(branch: string): Customer -> bool {
    (c: Customer) => c.branch == branch
  }

  /** The empty query matches every customer. */
  lemma EmptySearchMatchesAll(c: Customer)
    ensures SearchMatches("")(c)
  {
    ContainsEmpty(Lower(c.name));
  }

  /** The repository's search does not depend on the case of the query. */
  lemma SearchIgnoresQueryCase(query: string, c: Customer)
    ensures SearchMatches(Lower(query))(c) == SearchMatches(query)(c)
  {
    LowerIsIdempotent(query);
  }

  class CustomerStore {
    var customers: seq<Customer>

    constructor (initial: seq<Customer>)
      ensures customers == initial
    {
      customers := initial;
    }

    /** `getAll`: a copy of the list. */
    method GetAll() returns (r: seq<Customer>)
      ensures |r| == |customers| && forall i :: 0 <= i < |r| ==> r[i] == customers[i]
    {
      r := customers;
    }

    /** `getById`: the first customer whose `Id` equals `parseInt(id)`, or
        "Customer not found". */
    method GetById(id: JsId) returns (r: Result<Customer>)
      ensures r.Ok? <==> ParseIntArg(id).Some? && exists i :: 0 <= i < |customers| && customers[i].id == ParseIntArg(id).value
      ensures r.Ok? ==> r.value in customers && Some(r.value.id) == ParseIntArg(id)
      ensures r.Ok? ==> exists k :: 0 <= k < |customers| && customers[k] == r.value &&
                                    forall j :: 0 <= j < k ==> Some(customers[j].id) != ParseIntArg(id)
      ensures r.Err? ==> r.message == "Customer not found"
    {
      var parsed := ParseIntArg(id);
      if parsed.None? {
        r := Err("Customer not found");
        return;
      }
      var k := FindIndex(customers, (c: Customer) => c.id == parsed.value);
      if k == -1 {
        r := Err("Customer not found");
      } else {
        r := Ok(customers[k]);
      }
    }

    /** `create`: an input without name, email or whatsapp is refused and the
        list is unchanged; otherwise the customer is appended under
        `Id = max + 1`, always `active`, created and last contacted `now`,
        with `tags` defaulting to the empty list. */
    method Create(input: CustomerInput, now: int) returns (r: Result<Customer>)
      requires !MissingRequired(input) ==> |customers| > 0
      modifies this
      ensures MissingRequired(input) ==> r == Err(RequiredMessage) && customers == old(customers)
      ensures !MissingRequired(input) ==>
        && r.Ok?
        && customers == old(customers) + [r.value]
        && r.value.id == MaxId(old(customers)) + 1
        && (forall i :: 0 <= i < |old(customers)| ==> old(customers)[i].id < r.value.id)
        && r.value.status == "active" && r.value.createdAt == now && r.value.lastContacted == now
        && r.value.tags == (if input.tags.Some? then input.tags.value else [])
        && r.value.name == input.name && r.value.email == input.email && r.value.whatsapp == input.whatsapp
        && r.value.branch == input.branch && r.value.assignedStaff == Some(input.assignedStaff)
        && r.value.package == Some(input.package)
        && r.value.assignedAgent.None? && r.value.notes.None?
    {
      if MissingRequired(input) {
        r := Err(RequiredMessage);
        return;
      }
      var c := Customer(MaxId(customers) + 1, input.name, input.email, input.whatsapp, input.branch, "active",
                        now, now, None, Some(input.assignedStaff), Some(input.package), None,
                        if input.tags.Some? then input.tags.value else []);
      customers := customers + [c];
      r := Ok(c);
    }

    /** `update`: merges the patch into the customer with that `Id`, in its
        place; an unknown id fails and changes nothing. */
    method Update(id: JsId, patch: CustomerPatch) returns (r: Result<Customer>)
      modifies this
      ensures var k := IndexStrict(old(customers), id);
        && (k == -1 ==> r == Err("Customer not found") && customers == old(customers))
        && (k != -1 ==> r == Ok(Patched(old(customers)[k], patch)) && customers == old(customers)[k := r.value])
    {
      var k := IndexStrict(customers, id);
      if k == -1 {
        r := Err("Customer not found");
        return;
      }
      customers := customers[k := Patched(customers[k], patch)];
      r := Ok(customers[k]);
    }

    /** `delete`: removes the first customer with that `Id`; an unknown id fails
        and changes nothing. */
    method Delete(id: JsId) returns (r: Result<bool>)
      modifies this
      ensures var k := IndexStrict(old(customers), id);
        && (k == -1 ==> r == Err("Customer not found") && customers == old(customers))
        && (k != -1 ==> r == Ok(true) && customers == RemoveAt(old(customers), k))
    {
      var k := IndexStrict(customers, id);
      if k == -1 {
        r := Err("Customer not found");
        return;
      }
      customers := RemoveAt(customers, k);
      r := Ok(true);
    }

    /** `search`: the customers the query matches, in store order. */
    method Search(query: string) returns (r: seq<Customer>)
      ensures Selects(r, customers, SearchMatches(query))
      ensures query == "" ==> r == customers
    {
      r := Filter(customers, SearchMatches(query));
      FilterSelects(customers, SearchMatches(query));
      if query == "" {
        forall c | c in customers ensures SearchMatches(query)(c) {
          EmptySearchMatchesAll(c);
        }
        FilterKeepsAll(customers, SearchMatches(query));
      }
    }

    /** `getByStatus`: the customers with exactly that status, in store order. */
    method GetByStatus(status: string) returns (r: seq<Customer>)
      ensures Selects(r, customers, StatusIs(status))
    {
      r := Filter(customers, StatusIs(status));
      FilterSelects(customers, StatusIs(status));
    }

    /** `getByBranch`: the customers of exactly that branch, in store order. */
    method GetByBranch(branch: string) returns (r: seq<Customer>)
      ensures Selects(r, customers, BranchIs(branch))
    {
      r := Filter(customers, BranchIs(branch));
      FilterSelects(customers, BranchIs(branch));
    }

    /** `updateLastContacted`: sets `lastContacted` of the customer with that
        `Id` to `now` and nothing else; an unknown id fails and changes nothing. */
    method UpdateLastContacted(id: JsId, now: int) returns (r: Result<Customer>)
      modifies this
      ensures var k := IndexStrict(old(customers), id);
        && (k == -1 ==> r == Err("Customer not found") && customers == old(customers))
        && (k != -1 ==> r == Ok(old(customers)[k].(lastContacted := now)) && customers == old(customers)[k := r.value])
    {
      var k := IndexStrict(customers, id);
      if k != -1 {
        customers := customers[k := customers[k].(lastContacted := now)];
        r := Ok(customers[k]);
        return;
      }
      r := Err("Customer not found");
    }
  }
}
