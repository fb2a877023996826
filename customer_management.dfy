/**
  The React customer list: search, confirmed delete, and the add/edit
  modal whose saved records are always customers.
 */
module CustomerManagement {
  import opened Records
  import opened Seqs
  import opened Dates
  import opened Directory

  /** The two customers the page starts with. */
  const SeedCustomers: seq<User> := [
    User("1", "john@example.com", "John Doe", Customer, Some("+91 9876543210"),
         Some("123 Main Street, Chennai"), None, MakeDay(2024, 0, 15)),
    User("2", "jane@example.com", "Jane Smith", Customer, Some("+91 9876543211"),
         Some("456 Oak Avenue, Chennai"), None, MakeDay(2024, 1, 20))
  ]

  /** The modal's fields, each a string (empty when left blank). */
  datatype CustomerForm = CustomerForm(name: string, email: string, phone: string, address: string)

  /** `customer?.name || ''` and the like. */
  function InitialCustomerForm(customer: Option<User>): (f: CustomerForm)
    ensures customer.None? ==> f == CustomerForm("", "", "", "")
    ensures customer.Some? ==> f.name == customer.value.name && f.email == customer.value.email
    ensures customer.Some? ==> f.phone == OrElse(customer.value.phone, "") && f.address == OrElse(customer.value.address, "")
  {
    match customer
    case None => CustomerForm("", "", "", "")
    case Some(c) => CustomerForm(OrElse(Some(c.name), ""), OrElse(Some(c.email), ""),
                                 OrElse(c.phone, ""), OrElse(c.address, ""))
  }

  /** `{ ...editingCustomer, ...customerData }`: the form's fields over the
      edited customer, whose id, role, route and join date stay. */
  function MergeCustomer(c: User, f: CustomerForm): (r: User)
    ensures r.id == c.id && r.role == c.role && r.routeId == c.routeId && r.createdAt == c.createdAt
    ensures r.name == f.name && r.email == f.email && r.phone == Some(f.phone) && r.address == Some(f.address)
  {
    c.(name := f.name, email := f.email, phone := Some(f.phone), address := Some(f.address))
  }

  /** The added record: the random id, the form's fields, role customer and
      the current time. */
  function NewCustomer(f: CustomerForm, id: string, now: int): (r: User)
    ensures r.id == id && r.role == Customer && r.createdAt == now
    ensures r.name == f.name && r.email == f.email && r.phone == Some(f.phone) && r.address == Some(f.address)
  {
    User(id, f.email, f.name, Customer, Some(f.phone), Some(f.address), None, now)
  }

  /** Saving the form of a customer with a phone and an address unchanged
      leaves the customer as it was. */
  lemma MergeInitialForm(c: User)
    requires c.phone.Some? && c.address.Some?
    ensures MergeCustomer(c, InitialCustomerForm(Some(c))) == c
  {
  }

  class Page {
    var customers: seq<User>
    var searchTerm: string
    var showAddModal: bool
    var editingCustomer: Option<User>

    /** The list holds customers under unique ids, and so does the edit
        target. */
    predicate Consistent()
      reads this
    {
      WellFormed(customers, Customer) &&
      (editingCustomer.Some? ==> editingCustomer.value.role == Customer)
    }

    constructor()
      ensures customers == SeedCustomers && searchTerm == "" && !showAddModal && editingCustomer == None
      ensures Consistent()
    {
      customers := SeedCustomers;
      searchTerm := "";
      showAddModal := false;
      editingCustomer := None;
    }

    function FilteredCustomers(): seq<User>
      reads this
    {
      SearchCustomers(customers, searchTerm)
    }

    method SetSearchTerm(term: string)
      modifies this
      ensures searchTerm == term
      ensures customers == old(customers) && showAddModal == old(showAddModal) && editingCustomer == old(editingCustomer)
    {
      searchTerm := term;
    }

    /** Removes the customer once the user confirms; otherwise nothing
        changes. */
    method DeleteCustomer(id: string, confirmed: bool)
      modifies this
      ensures customers == (if confirmed then RemoveUser(old(customers), id) else old(customers))
      ensures searchTerm == old(searchTerm) && showAddModal == old(showAddModal) && editingCustomer == old(editingCustomer)
      ensures old(Consistent()) ==> Consistent()
    {
      if confirmed {
        if Consistent() {
          RemoveKeepsWellFormed(customers, id, Customer);
        }
        customers := RemoveUser(customers, id);
      }
    }

    method OpenAddModal()
      modifies this
      ensures showAddModal && customers == old(customers) && editingCustomer == old(editingCustomer)
      ensures searchTerm == old(searchTerm)
    {
      showAddModal := true;
    }

    /** The edit button of row `k` of the shown list. */
    method StartEdit(k: nat)
      requires k < |FilteredCustomers()|
      modifies this
      ensures editingCustomer == Some(old(FilteredCustomers())[k])
      ensures customers == old(customers) && showAddModal == old(showAddModal) && searchTerm == old(searchTerm)
      ensures old(Consistent()) ==> Consistent()
    {
      var shown := FilteredCustomers();
      assert shown[k] in shown;
      editingCustomer := Some(shown[k]);
    }

    /** The modal's `onSave`: the edited customer is replaced by the merge,
        or a new customer is appended under `freshId`; then the modal
        closes. */
    method Save(f: CustomerForm, freshId: string, now: int)
      modifies this
      ensures old(editingCustomer).Some? ==>
        customers == ReplaceUser(old(customers), old(editingCustomer).value.id, MergeCustomer(old(editingCustomer).value, f))
      ensures old(editingCustomer).None? ==> customers == old(customers) + [NewCustomer(f, freshId, now)]
      ensures !showAddModal && editingCustomer == None && searchTerm == old(searchTerm)
      ensures (old(Consistent()) && (old(editingCustomer).None? ==> freshId !in Keys(old(customers), UserId))) ==>
        Consistent()
    {
      if editingCustomer.Some? {
        var merged := MergeCustomer(editingCustomer.value, f);
        if Consistent() {
          ReplaceKeepsWellFormed(customers, editingCustomer.value.id, merged, Customer);
        }
        customers := ReplaceUser(customers, editingCustomer.value.id, merged);
      } else {
        var added := NewCustomer(f, freshId, now);
        if Consistent() && freshId !in Keys(customers, UserId) {
          AppendKeepsWellFormed(customers, added, Customer);
        }
        customers := customers + [added];
      }
      showAddModal := false;
      editingCustomer := None;
    }

    method CloseModal()
      modifies this
      ensures !showAddModal && editingCustomer == None && customers == old(customers) && searchTerm == old(searchTerm)
    {
      showAddModal := false;
      editingCustomer := None;
    }
  }
}
