/**
  The React worker list: search by name or email, each worker's route,
  confirmed delete, and the add/edit modal whose saved records are always
  workers.
 */
module WorkerManagement {
  import opened Records
  import opened Seqs
  import opened Dates
  import opened Directory

  const SeedWorkers: seq<User> := [
    User("1", "raj@milkdelivery.com", "Raj Kumar", Worker, Some("+91 9876543210"), None,
         Some("route1"), MakeDay(2024, 0, 10)),
    User("2", "suresh@milkdelivery.com", "Suresh Singh", Worker, Some("+91 9876543211"), None,
         Some("route2"), MakeDay(2024, 0, 15))
  ]

  const SeedRoutes: seq<Route> := [
    Route("route1", "Route A - Sector 1", "1", "Raj Kumar", ["Anna Nagar", "T. Nagar"], 45),
    Route("route2", "Route B - Sector 2", "2", "Suresh Singh", ["Adyar", "Velachery"], 38),
    Route("route3", "Route C - Sector 3", "", "", ["Tambaram", "Chrompet"], 32)
  ]

  lemma SeedRouteIdsUnique()
    ensures UniqueBy(SeedRoutes, RouteId)
  {
    var rs := SeedRoutes;
    assert rs[0].id[5] == '1' && rs[1].id[5] == '2' && rs[2].id[5] == '3';
  }

  /** Workers each pointing at a route that names them all resolve, when
      route ids are distinct. */
  lemma RoutesResolve(rs: seq<Route>, ws: seq<User>)
    requires UniqueBy(rs, RouteId)
    requires forall w :: w in ws ==> exists r :: r in rs && w.routeId == Some(r.id) && r.workerId == w.id
    ensures forall w :: w in ws ==>
      FindRoute(rs, w.routeId).Some? && FindRoute(rs, w.routeId).value.workerId == w.id
  {
    forall w | w in ws
      ensures FindRoute(rs, w.routeId).Some? && FindRoute(rs, w.routeId).value.workerId == w.id
    {
      var r :| r in rs && w.routeId == Some(r.id) && r.workerId == w.id;
      FindRouteUnique(rs, r);
    }
  }

  /** The seeded routes have distinct ids, and each seeded worker's route is
      found and names that worker. */
  lemma SeedRoutesResolve()
    ensures UniqueBy(SeedRoutes, RouteId)
    ensures forall w :: w in SeedWorkers ==>
      FindRoute(SeedRoutes, w.routeId).Some? && FindRoute(SeedRoutes, w.routeId).value.workerId == w.id
  {
    var rs, ws := SeedRoutes, SeedWorkers;
    SeedRouteIdsUnique();
    forall w | w in ws
      ensures exists r :: r in rs && w.routeId == Some(r.id) && r.workerId == w.id
    {
      var k :| 0 <= k < |ws| && ws[k] == w;
      assert rs[k] in rs && w.routeId == Some(rs[k].id) && rs[k].workerId == w.id;
    }
    RoutesResolve(rs, ws);
  }

  /** The modal's fields; the route select starts on "" (no route). */
  datatype WorkerForm = WorkerForm(name: string, email: string, phone: string, routeId: string)

  /** `worker?.name || ''` and the like. */
  function InitialWorkerForm(worker: Option<User>): (f: WorkerForm)
    ensures worker.None? ==> f == WorkerForm("", "", "", "")
    ensures worker.Some? ==> f.name == worker.value.name && f.email == worker.value.email
    ensures worker.Some? ==> f.phone == OrElse(worker.value.phone, "") && f.routeId == OrElse(worker.value.routeId, "")
  {
    match worker
    case None => WorkerForm("", "", "", "")
    case Some(w) => WorkerForm(OrElse(Some(w.name), ""), OrElse(Some(w.email), ""),
                               OrElse(w.phone, ""), OrElse(w.routeId, ""))
  }

  /** `{ ...editingWorker, ...workerData }`: the form's fields over the
      edited worker, whose id, role, address and join date stay. */
  function MergeWorker(w: User, f: WorkerForm): (r: User)
    ensures r.id == w.id && r.role == w.role && r.address == w.address && r.createdAt == w.createdAt
    ensures r.name == f.name && r.email == f.email && r.phone == Some(f.phone) && r.routeId == Some(f.routeId)
  {
    w.(name := f.name, email := f.email, phone := Some(f.phone), routeId := Some(f.routeId))
  }

  function NewWorker(f: WorkerForm, id: string, now: int): (r: User)
    ensures r.id == id && r.role == Worker && r.createdAt == now
    ensures r.name == f.name && r.email == f.email && r.phone == Some(f.phone) && r.routeId == Some(f.routeId)
  {
    User(id, f.email, f.name, Worker, Some(f.phone), None, Some(f.routeId), now)
  }

  /** Saving the form of a worker with a phone and a route unchanged leaves
      the worker as it was. */
  lemma MergeInitialForm(w: User)
    requires w.phone.Some? && w.routeId.Some?
    ensures MergeWorker(w, InitialWorkerForm(Some(w))) == w
  {
  }

  class Page {
    var workers: seq<User>
    const routes: seq<Route>
    var searchTerm: string
    var showAddModal: bool
    var editingWorker: Option<User>

    predicate Consistent()
      reads this
    {
      WellFormed(workers, Worker) &&
      (editingWorker.Some? ==> editingWorker.value.role == Worker)
    }

    constructor()
      ensures workers == SeedWorkers && routes == SeedRoutes
      ensures searchTerm == "" && !showAddModal && editingWorker == None
      ensures Consistent()
    {
      workers := SeedWorkers;
      routes := SeedRoutes;
      searchTerm := "";
      showAddModal := false;
      editingWorker := None;
    }

    function FilteredWorkers(): seq<User>
      reads this
    {
      SearchWorkers(workers, searchTerm)
    }

    function GetWorkerRoute(routeId: Option<string>): Option<Route>
      reads this
    {
      FindRoute(routes, routeId)
    }

    method SetSearchTerm(term: string)
      modifies this
      ensures searchTerm == term
      ensures workers == old(workers) && showAddModal == old(showAddModal) && editingWorker == old(editingWorker)
    {
      searchTerm := term;
    }

    method DeleteWorker(id: string, confirmed: bool)
      modifies this
      ensures workers == (if confirmed then RemoveUser(old(workers), id) else old(workers))
      ensures searchTerm == old(searchTerm) && showAddModal == old(showAddModal) && editingWorker == old(editingWorker)
      ensures old(Consistent()) ==> Consistent()
    {
      if confirmed {
        if Consistent() {
          RemoveKeepsWellFormed(workers, id, Worker);
        }
        workers := RemoveUser(workers, id);
      }
    }

    method OpenAddModal()
      modifies this
      ensures showAddModal && workers == old(workers) && editingWorker == old(editingWorker)
      ensures searchTerm == old(searchTerm)
    {
      showAddModal := true;
    }

    /** The edit button of row `k` of the shown list. */
    method StartEdit(k: nat)
      requires k < |FilteredWorkers()|
      modifies this
      ensures editingWorker == Some(old(FilteredWorkers())[k])
      ensures workers == old(workers) && showAddModal == old(showAddModal) && searchTerm == old(searchTerm)
      ensures old(Consistent()) ==> Consistent()
    {
      var shown := FilteredWorkers();
      assert shown[k] in shown;
      editingWorker := Some(shown[k]);
    }

    method Save(f: WorkerForm, freshId: string, now: int)
      modifies this
      ensures old(editingWorker).Some? ==>
        workers == ReplaceUser(old(workers), old(editingWorker).value.id, MergeWorker(old(editingWorker).value, f))
      ensures old(editingWorker).None? ==> workers == old(workers) + [NewWorker(f, freshId, now)]
      ensures !showAddModal && editingWorker == None && searchTerm == old(searchTerm)
      ensures (old(Consistent()) && (old(editingWorker).None? ==> freshId !in Keys(old(workers), UserId))) ==>
        Consistent()
    {
      if editingWorker.Some? {
        var merged := MergeWorker(editingWorker.value, f);
        if Consistent() {
          ReplaceKeepsWellFormed(workers, editingWorker.value.id, merged, Worker);
        }
        workers := ReplaceUser(workers, editingWorker.value.id, merged);
      } else {
        var added := NewWorker(f, freshId, now);
        if Consistent() && freshId !in Keys(workers, UserId) {
          AppendKeepsWellFormed(workers, added, Worker);
        }
        workers := workers + [added];
      }
      showAddModal := false;
      editingWorker := None;
    }

    method CloseModal()
      modifies this
      ensures !showAddModal && editingWorker == None && workers == old(workers) && searchTerm == old(searchTerm)
    {
      showAddModal := false;
      editingWorker := None;
    }
  }
}
