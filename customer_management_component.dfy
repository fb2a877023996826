/**
  The Angular customer list: the loaded customers and the shown (filtered)
  copy, which every change recomputes.
 */
module CustomerManagementComponent {
  import opened Records
  import opened Seqs
  import opened Dates
  import opened Directory

  /** The customer `loadCustomers` installs. */
  const LoadedCustomers: seq<User> := [
    User("1", "john@example.com", "John Doe", Customer, Some("+91 9876543210"),
         Some("123 Main Street, Chennai"), None, MakeDay(2024, 0, 15))
  ]

  class Component {
    var customers: seq<User>
    var filteredCustomers: seq<User>
    var searchTerm: string

    /** The shown list is always an order-preserving sublist of the
        customers. */
    predicate ShownIsSublist()
      reads this
    {
      IsSubsequence(filteredCustomers, customers)
    }

    constructor()
      ensures customers == [] && filteredCustomers == [] && searchTerm == ""
      ensures ShownIsSublist()
    {
      customers := [];
      filteredCustomers := [];
      searchTerm := "";
    }

    /** Installs the customers and shows all of them. */
    method LoadCustomers()
      modifies this
      ensures customers == LoadedCustomers && filteredCustomers == customers
      ensures searchTerm == old(searchTerm)
      ensures ShownIsSublist()
    {
      customers := LoadedCustomers;
      filteredCustomers := customers;
      SubsequenceRefl(customers);
    }

    method FilterCustomers()
      modifies this
      ensures filteredCustomers == SearchCustomers(customers, searchTerm)
      ensures customers == old(customers) && searchTerm == old(searchTerm)
      ensures ShownIsSublist()
    {
      filteredCustomers := SearchCustomers(customers, searchTerm);
    }

    /** Typing in the search box: the term changes and the list is filtered. */
    method SearchChanged(term: string)
      modifies this
      ensures searchTerm == term && customers == old(customers)
      ensures filteredCustomers == SearchCustomers(customers, term)
      ensures ShownIsSublist()
    {
      searchTerm := term;
      FilterCustomers();
    }

    /** A confirmed delete removes the id and filters again, so the shown list
        no longer has it; an unconfirmed one changes nothing. */
    method DeleteCustomer(id: string, confirmed: bool)
      modifies this
      ensures confirmed ==> customers == RemoveUser(old(customers), id) &&
                            filteredCustomers == SearchCustomers(customers, searchTerm)
      ensures confirmed ==> forall u :: u in filteredCustomers ==> u.id != id
      ensures !confirmed ==> customers == old(customers) && filteredCustomers == old(filteredCustomers)
      ensures searchTerm == old(searchTerm)
      ensures old(ShownIsSublist()) ==> ShownIsSublist()
    {
      if confirmed {
        customers := RemoveUser(customers, id);
        FilterCustomers();
      }
    }
  }
}
