/**
  The admin people lists (customers and workers) as both front ends handle
  them: the search filters, removal by id, the edit that spreads the form
  over the edited record, the add that forces the role, and the lookup of a
  worker's route.
 */
module Directory {
  import opened Records
  import opened Seqs
  import opened Text

  /** The customer search: the lowercased term in the lowercased name or
      email, or the raw term in the phone number when there is one. */
  predicate MatchesCustomer(u: User, term: string) {
    Contains(ToLower(u.name), ToLower(term)) ||
    Contains(ToLower(u.email), ToLower(term)) ||
    (u.phone.Some? && Contains(u.phone.value, term))
  }

  /** The worker search: name and email only. */
  predicate MatchesWorker(u: User, term: string) {
    Contains(ToLower(u.name), ToLower(term)) ||
    Contains(ToLower(u.email), ToLower(term))
  }

  function SearchCustomers(us: seq<User>, term: string): (r: seq<User>)
    ensures IsSubsequence(r, us)
    ensures forall u :: u in r <==> u in us && MatchesCustomer(u, term)
  {
    Filter(us, (u: User) => MatchesCustomer(u, term))
  }

  function SearchWorkers(us: seq<User>, term: string): (r: seq<User>)
    ensures IsSubsequence(r, us)
    ensures forall u :: u in r <==> u in us && MatchesWorker(u, term)
  {
    Filter(us, (u: User) => MatchesWorker(u, term))
  }

  /** An empty search keeps every record. */
  lemma EmptySearchKeepsAll(us: seq<User>)
    ensures SearchCustomers(us, "") == us
    ensures SearchWorkers(us, "") == us
  {
    forall u: User ensures MatchesCustomer(u, "") && MatchesWorker(u, "") {
      ContainsEmpty(ToLower(u.name));
    }
  }

  lemma LowerCharIdempotent(c: char)
    ensures LowerChar(LowerChar(c)) == LowerChar(c)
  {
  }

  /** The worker search ignores the case of the term. */
  lemma {:induction false} WorkerSearchIgnoresCase(us: seq<User>, term: string)
    ensures SearchWorkers(us, ToLower(term)) == SearchWorkers(us, term)
  {
    var lower := ToLower(term);
    assert ToLower(lower) == ToLower(term) by {
      forall i | 0 <= i < |term| ensures ToLower(lower)[i] == ToLower(term)[i] {
        LowerCharIdempotent(term[i]);
      }
    }
    FilterSame(us, (u: User) => MatchesWorker(u, lower), (u: User) => MatchesWorker(u, term));
  }

  /** Every worker the worker search keeps, the customer search would keep. */
  lemma WorkerMatchIsCustomerMatch(us: seq<User>, term: string)
    ensures forall u :: u in SearchWorkers(us, term) ==> u in SearchCustomers(us, term)
  {
  }

  /** `us.filter(u => u._id !== id)`. */
  function RemoveUser(us: seq<User>, id: string): (r: seq<User>)
    ensures IsSubsequence(r, us)
    ensures forall u :: u in r ==> u.id != id
    ensures forall u :: u in us && u.id != id ==> u in r
  {
    Filter(us, (u: User) => u.id != id)
  }

  /** `us.map(u => u._id === id ? x : u)`. */
  function ReplaceUser(us: seq<User>, id: string, x: User): (r: seq<User>)
    ensures |r| == |us|
    ensures forall i :: 0 <= i < |us| && us[i].id == id ==> r[i] == x
    ensures forall i :: 0 <= i < |us| && us[i].id != id ==> r[i] == us[i]
  {
    MapWhere(us, (u: User) => u.id == id, (u: User) => x)
  }

  predicate AllHaveRole(us: seq<User>, role: Role) {
    forall u :: u in us ==> u.role == role
  }

  /** The lists' invariant: unique ids, every record of the list's role. */
  predicate WellFormed(us: seq<User>, role: Role) {
    UniqueBy(us, UserId) && AllHaveRole(us, role)
  }

  /** Removing keeps a list well formed. */
  lemma RemoveKeepsWellFormed(us: seq<User>, id: string, role: Role)
    requires WellFormed(us, role)
    ensures WellFormed(RemoveUser(us, id), role)
  {
    SubsequenceUnique(RemoveUser(us, id), us, UserId);
  }

  /** Replacing records by a record with the same id and role keeps a list
      well formed. */
  lemma {:induction false} ReplaceKeepsWellFormed(us: seq<User>, id: string, x: User, role: Role)
    requires WellFormed(us, role) && x.id == id && x.role == role
    ensures WellFormed(ReplaceUser(us, id, x), role)
  {
    var r := ReplaceUser(us, id, x);
    forall i, j | 0 <= i < j < |r| ensures UserId(r[i]) != UserId(r[j]) {
      assert UserId(us[i]) != UserId(us[j]);
      assert r[i].id == us[i].id && r[j].id == us[j].id;
    }
    forall u | u in r ensures u.role == role {
      var i :| 0 <= i < |r| && r[i] == u;
      assert us[i] in us;
    }
  }

  /** Appending a record of the role under an unused id keeps a list well
      formed. */
  lemma AppendKeepsWellFormed(us: seq<User>, x: User, role: Role)
    requires WellFormed(us, role) && x.role == role && x.id !in Keys(us, UserId)
    ensures WellFormed(us + [x], role)
  {
    AppendUnique(us, x, UserId);
  }

  /** `routes.find(route => route._id === routeId)`; an absent route id
      matches no route. */
  function FindRoute(routes: seq<Route>, routeId: Option<string>): (r: Option<Route>)
    ensures r.Some? ==> r.value in routes && routeId == Some(r.value.id)
    ensures r.None? <==> routeId.None? || forall x :: x in routes ==> x.id != routeId.value
  {
    Find(routes, (x: Route) => Some(x.id) == routeId)
  }

  /** With distinct route ids, the route found is the one carrying the id. */
  lemma FindRouteUnique(routes: seq<Route>, x: Route)
    requires UniqueBy(routes, RouteId) && x in routes
    ensures FindRoute(routes, Some(x.id)) == Some(x)
  {
    var r := FindRoute(routes, Some(x.id));
    var i :| 0 <= i < |routes| && routes[i] == r.value;
    var k :| 0 <= k < |routes| && routes[k] == x;
    assert RouteId(routes[i]) == RouteId(routes[k]);
  }
}
