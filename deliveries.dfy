/**
  Delivery (booking) list logic shared by the two worker dashboards, the
  booking calendars and the server: the bookings of one day, the per-status
  counts, the status update by id, and a partial update (the fields of a
  request body) applied to a booking.
 */
module Deliveries {
  import opened Records
  import opened Seqs

  /** The bookings on calendar day `day`, in list order. */
  function OnDay(bs: seq<Booking>, day: int): (r: seq<Booking>)
    ensures IsSubsequence(r, bs)
    ensures forall b :: b in r ==> b in bs && b.date == day
    ensures forall b :: b in bs && b.date == day ==> b in r
  {
    Filter(bs, (b: Booking) => b.date == day)
  }

  /** No two bookings fall on the same day. */
  predicate OnePerDay(bs: seq<Booking>) {
    UniqueBy(bs, BookingDate)
  }

  /** `bookings.find(b => isSameDay(b.date, day))`: the first booking on the day. */
  function BookingOn(bs: seq<Booking>, day: int): (r: Option<Booking>)
    ensures r.Some? ==> r.value in bs && r.value.date == day
    ensures r.Some? ==> exists i :: 0 <= i < |bs| && bs[i] == r.value && forall j :: 0 <= j < i ==> bs[j].date != day
    ensures r.None? <==> forall b :: b in bs ==> b.date != day
  {
    Find(bs, (b: Booking) => b.date == day)
  }

  /** With one booking per day, the booking found for a day is the only one on it. */
  lemma BookingOnIsTheOne(bs: seq<Booking>, day: int, b: Booking)
    requires OnePerDay(bs) && b in bs && b.date == day
    ensures BookingOn(bs, day) == Some(b)
  {
    var r := BookingOn(bs, day);
    var i :| 0 <= i < |bs| && bs[i] == r.value && forall j :: 0 <= j < i ==> bs[j].date != day;
    var k :| 0 <= k < |bs| && bs[k] == b;
    assert BookingDate(bs[i]) == BookingDate(bs[k]);
  }

  /** The body of a booking creation request. */
  datatype BookingRequest = BookingRequest(
    date: Option<int>,
    milkType: Option<string>,
    quantity: Option<int>,
    isExtra: Option<bool>)

  function OfStatus(bs: seq<Booking>, st: Status): seq<Booking> {
    Filter(bs, (b: Booking) => b.status == st)
  }

  function CountStatus(bs: seq<Booking>, st: Status): nat {
    |OfStatus(bs, st)|
  }

  /** The count starts at 0 and one more booking adds 1 exactly when it has
      the status. */
  lemma CountStatusAppend(bs: seq<Booking>, b: Booking, st: Status)
    ensures CountStatus([], st) == 0
    ensures CountStatus(bs + [b], st) == CountStatus(bs, st) + (if b.status == st then 1 else 0)
  {
    FilterAppend(bs, b, (x: Booking) => x.status == st);
  }

  /** Every booking has exactly one of the four statuses, so the four counts
      add up to the length of the list. */
  lemma {:induction false} StatusPartition(bs: seq<Booking>)
    ensures CountStatus(bs, Delivered) + CountStatus(bs, Pending) + CountStatus(bs, Missed)
            + CountStatus(bs, Cancelled) == |bs|
  {
    if bs != [] {
      StatusPartition(bs[1..]);
    }
  }

  datatype Stats = Stats(total: nat, delivered: nat, pending: nat, missed: nat)

  /** The dashboards' summary of a day's deliveries. */
  function StatsOf(today: seq<Booking>): (s: Stats)
    ensures s.total == |today|
    ensures s.delivered == CountStatus(today, Delivered) && s.pending == CountStatus(today, Pending)
    ensures s.missed == CountStatus(today, Missed)
    ensures s.delivered + s.pending + s.missed == |today| - CountStatus(today, Cancelled)
    ensures s.delivered + s.pending + s.missed <= s.total
  {
    StatusPartition(today);
    Stats(|today|, CountStatus(today, Delivered), CountStatus(today, Pending), CountStatus(today, Missed))
  }

  /** A day where nothing is cancelled has every delivery counted once. */
  lemma StatsWithoutCancelled(today: seq<Booking>)
    requires forall b :: b in today ==> b.status != Cancelled
    ensures StatsOf(today).delivered + StatsOf(today).pending + StatsOf(today).missed == StatsOf(today).total
  {
  }

  /** The two outcomes a worker can record. */
  datatype Outcome = MarkDelivered | MarkMissed

  function OutcomeStatus(o: Outcome): (s: Status)
    ensures s == Delivered || s == Missed
    ensures IsTerminal(s)
  {
    match o
    case MarkDelivered => Delivered
    case MarkMissed => Missed
  }

  /** `bs.map(d => d._id === id ? {...d, status} : d)`. */
  function WithStatus(bs: seq<Booking>, id: string, s: Status): (r: seq<Booking>)
    ensures |r| == |bs|
    ensures forall i :: 0 <= i < |bs| && bs[i].id == id ==> r[i] == bs[i].(status := s)
    ensures forall i :: 0 <= i < |bs| && bs[i].id != id ==> r[i] == bs[i]
  {
    MapWhere(bs, (b: Booking) => b.id == id, (b: Booking) => b.(status := s))
  }

  /** Recording the same outcome twice is the same as recording it once. */
  lemma WithStatusIdempotent(bs: seq<Booking>, id: string, s: Status)
    ensures WithStatus(WithStatus(bs, id, s), id, s) == WithStatus(bs, id, s)
  {
  }

  lemma WithStatusKeepsIds(bs: seq<Booking>, id: string, s: Status)
    requires UniqueBy(bs, BookingId)
    ensures UniqueBy(WithStatus(bs, id, s), BookingId)
  {
    var r := WithStatus(bs, id, s);
    forall i, j | 0 <= i < j < |r| ensures BookingId(r[i]) != BookingId(r[j]) {
      assert r[i].id == bs[i].id && r[j].id == bs[j].id;
    }
  }

  /** A status action is on screen for `id` only while that delivery is
      pending. */
  predicate Offered(bs: seq<Booking>, id: string) {
    exists i :: 0 <= i < |bs| && bs[i].id == id && bs[i].status == Pending
  }

  /** An offered action changes only the pending delivery it was offered for:
      with unique ids, every delivery already delivered, missed or cancelled is
      left exactly as it was. */
  lemma OfferedActionKeepsTerminal(bs: seq<Booking>, id: string, o: Outcome)
    requires UniqueBy(bs, BookingId) && Offered(bs, id)
    ensures forall i :: 0 <= i < |bs| && IsTerminal(bs[i].status) ==> WithStatus(bs, id, OutcomeStatus(o))[i] == bs[i]
  {
    var k :| 0 <= k < |bs| && bs[k].id == id && bs[k].status == Pending;
    forall i | 0 <= i < |bs| && IsTerminal(bs[i].status)
      ensures WithStatus(bs, id, OutcomeStatus(o))[i] == bs[i]
    {
      assert i != k;
      assert BookingId(bs[i]) != BookingId(bs[k]);
    }
  }

  datatype StatusAction = StatusAction(id: string, outcome: Outcome)

  /** The list after a series of status actions. */
  function Replay(bs: seq<Booking>, acts: seq<StatusAction>): (r: seq<Booking>)
    ensures |r| == |bs|
    decreases |acts|
  {
    if acts == [] then bs
    else Replay(WithStatus(bs, acts[0].id, OutcomeStatus(acts[0].outcome)), acts[1..])
  }

  /** Each action in the series was on screen when it was taken. */
  predicate ThroughUi(bs: seq<Booking>, acts: seq<StatusAction>)
    decreases |acts|
  {
    acts == [] ||
    (Offered(bs, acts[0].id) &&
     ThroughUi(WithStatus(bs, acts[0].id, OutcomeStatus(acts[0].outcome)), acts[1..]))
  }

  /** Through the dashboards a delivery never leaves 'delivered', 'missed' or
      'cancelled': every such delivery is untouched by any series of actions
      the UI offers. */
  lemma {:induction false} TerminalIsFinal(bs: seq<Booking>, acts: seq<StatusAction>)
    requires UniqueBy(bs, BookingId) && ThroughUi(bs, acts)
    ensures forall i :: 0 <= i < |bs| && IsTerminal(bs[i].status) ==> Replay(bs, acts)[i] == bs[i]
    decreases |acts|
  {
    if acts != [] {
      var next := WithStatus(bs, acts[0].id, OutcomeStatus(acts[0].outcome));
      OfferedActionKeepsTerminal(bs, acts[0].id, acts[0].outcome);
      WithStatusKeepsIds(bs, acts[0].id, OutcomeStatus(acts[0].outcome));
      TerminalIsFinal(next, acts[1..]);
    }
  }

  /** `bookings.filter(b => b._id !== id)`: the bookings without the id, in order. */
  function RemoveBooking(bs: seq<Booking>, id: string): (r: seq<Booking>)
    ensures IsSubsequence(r, bs)
    ensures forall b :: b in r ==> b.id != id
    ensures forall b :: b in bs && b.id != id ==> b in r
  {
    Filter(bs, (b: Booking) => b.id != id)
  }

  /** The fields a request body may carry when it updates a booking: every
      schema path but the id; absent fields keep their stored value. Unknown
      body fields are dropped before the update (the schema is strict), so
      they have no place here. */
  datatype BookingPatch = BookingPatch(
    customerId: Option<string>,
    customerName: Option<string>,
    customerAddress: Option<string>,
    date: Option<int>,
    milkType: Option<string>,
    quantity: Option<int>,
    isExtra: Option<bool>,
    status: Option<Status>,
    routeId: Option<string>,
    workerId: Option<string>,
    createdAt: Option<int>)

  const EmptyPatch := BookingPatch(None, None, None, None, None, None, None, None, None, None, None)

  /** The body `{ status }` of a worker's status action. */
  function StatusPatch(s: Status): (p: BookingPatch)
    ensures p.status == Some(s)
    ensures p.(status := None) == EmptyPatch
  {
    EmptyPatch.(status := Some(s))
  }

  function Pick<T>(o: Option<T>, current: T): T {
    if o.Some? then o.value else current
  }

  /** The stored booking after an update with body `p`: every field the body
      carries is overwritten, whatever the booking's current status or owner,
      and only the id is out of the body's reach. */
  function ApplyPatch(b: Booking, p: BookingPatch): (r: Booking)
    ensures r.id == b.id
    ensures r.customerId == (if p.customerId.Some? then p.customerId.value else b.customerId)
    ensures r.customerName == (if p.customerName.Some? then p.customerName.value else b.customerName)
    ensures r.customerAddress == (if p.customerAddress.Some? then p.customerAddress else b.customerAddress)
    ensures r.date == (if p.date.Some? then p.date.value else b.date)
    ensures r.milkType == (if p.milkType.Some? then p.milkType.value else b.milkType)
    ensures r.quantity == (if p.quantity.Some? then p.quantity.value else b.quantity)
    ensures r.isExtra == (if p.isExtra.Some? then p.isExtra.value else b.isExtra)
    ensures r.status == (if p.status.Some? then p.status.value else b.status)
    ensures r.routeId == (if p.routeId.Some? then p.routeId.value else b.routeId)
    ensures r.workerId == (if p.workerId.Some? then p.workerId else b.workerId)
    ensures r.createdAt == (if p.createdAt.Some? then p.createdAt.value else b.createdAt)
  {
    b.(customerId := Pick(p.customerId, b.customerId),
       customerName := Pick(p.customerName, b.customerName),
       customerAddress := if p.customerAddress.Some? then p.customerAddress else b.customerAddress,
       date := Pick(p.date, b.date),
       milkType := Pick(p.milkType, b.milkType),
       quantity := Pick(p.quantity, b.quantity),
       isExtra := Pick(p.isExtra, b.isExtra),
       status := Pick(p.status, b.status),
       routeId := Pick(p.routeId, b.routeId),
       workerId := if p.workerId.Some? then p.workerId else b.workerId,
       createdAt := Pick(p.createdAt, b.createdAt))
  }

  /** A body carrying no known field leaves the booking as it was. */
  lemma EmptyPatchKeeps(b: Booking)
    ensures ApplyPatch(b, EmptyPatch) == b
  {
  }

  /** Sending the same body twice stores what sending it once stores. */
  lemma ApplyPatchIdempotent(b: Booking, p: BookingPatch)
    ensures ApplyPatch(ApplyPatch(b, p), p) == ApplyPatch(b, p)
  {
  }

  /** A status-only body changes the status and nothing else. */
  lemma StatusPatchChangesOnlyStatus(b: Booking, s: Status)
    ensures ApplyPatch(b, StatusPatch(s)) == b.(status := s)
  {
  }

  /** `findByIdAndUpdate(id, body)` over a list: the booking with the id
      takes the body's fields, every other booking stays. */
  function UpdateById(bs: seq<Booking>, id: string, p: BookingPatch): (r: seq<Booking>)
    ensures |r| == |bs|
    ensures forall i :: 0 <= i < |bs| && bs[i].id == id ==> r[i] == ApplyPatch(bs[i], p)
    ensures forall i :: 0 <= i < |bs| && bs[i].id != id ==> r[i] == bs[i]
  {
    MapWhere(bs, (b: Booking) => b.id == id, (b: Booking) => ApplyPatch(b, p))
  }

  /** An update whose body carries no known field changes no booking. */
  lemma UpdateWithEmptyPatch(bs: seq<Booking>, id: string)
    ensures UpdateById(bs, id, EmptyPatch) == bs
  {
    var r := UpdateById(bs, id, EmptyPatch);
    forall i | 0 <= i < |bs| ensures r[i] == bs[i] {
      EmptyPatchKeeps(bs[i]);
    }
  }
}
