/**
  The Angular worker list: the loaded workers and routes, each worker's
  route, and confirmed delete.
 */
module WorkerManagementComponent {
  import opened Records
  import opened Seqs
  import opened Dates
  import opened Directory

  const LoadedWorkers: seq<User> := [
    User("1", "raj@milkdelivery.com", "Raj Kumar", Worker, Some("+91 9876543210"), None,
         Some("route1"), MakeDay(2024, 0, 10))
  ]

  const LoadedRoutes: seq<Route> := [
    Route("route1", "Route A - Sector 1", "1", "Raj Kumar", ["Anna Nagar", "T. Nagar"], 45),
    Route("route2", "Route B - Sector 2", "2", "Suresh Singh", ["Adyar", "Velachery"], 38)
  ]

  /** The loaded routes have distinct ids, and the loaded worker's route
      resolves to Route A. */
  lemma LoadedRoutesResolve()
    ensures UniqueBy(LoadedRoutes, RouteId)
    ensures FindRoute(LoadedRoutes, LoadedWorkers[0].routeId) == Some(LoadedRoutes[0])
    ensures FindRoute(LoadedRoutes, LoadedWorkers[0].routeId).value.name == "Route A - Sector 1"
  {
    assert UniqueBy(LoadedRoutes, RouteId);
    FindRouteUnique(LoadedRoutes, LoadedRoutes[0]);
  }

  class Component {
    var workers: seq<User>
    var routes: seq<Route>

    constructor()
      ensures workers == [] && routes == []
    {
      workers := [];
      routes := [];
    }

    method LoadWorkers()
      modifies this
      ensures workers == LoadedWorkers && routes == old(routes)
    {
      workers := LoadedWorkers;
    }

    method LoadRoutes()
      modifies this
      ensures routes == LoadedRoutes && workers == old(workers)
    {
      routes := LoadedRoutes;
    }

    function GetWorkerRoute(routeId: Option<string>): Option<Route>
      reads this
    {
      FindRoute(routes, routeId)
    }

    /** A confirmed delete keeps every other worker, in order; an unconfirmed
        one changes nothing. */
    method DeleteWorker(id: string, confirmed: bool)
      modifies this
      ensures workers == (if confirmed then RemoveUser(old(workers), id) else old(workers))
      ensures confirmed ==> IsSubsequence(workers, old(workers)) && forall w :: w in workers ==> w.id != id
      ensures routes == old(routes)
    {
      if confirmed {
        workers := RemoveUser(workers, id);
      }
    }
  }
}
