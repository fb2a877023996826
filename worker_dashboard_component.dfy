/**
  The Angular worker dashboard. It keeps the loaded deliveries, the deliveries
  of the selected day and four stat cards whose `value` strings it rewrites in
  place. A status action sends a `{ status }` update and reloads.
 */
module WorkerDashboardComponent {
  import opened Records
  import opened Text
  import opened Deliveries

  datatype StatCard = StatCard(caption: string, value: string, color: string, icon: string, iconColor: string)

  const InitialStats: seq<StatCard> := [
    StatCard("Total Deliveries", "0", "text-gray-900", "local_shipping", "text-blue-500"),
    StatCard("Delivered", "0", "text-green-600", "check_circle", "text-green-500"),
    StatCard("Pending", "0", "text-orange-600", "schedule", "text-orange-500"),
    StatCard("Missed", "0", "text-red-600", "cancel", "text-red-500")]

  /** Two rows of cards that differ at most in their values. */
  predicate SameCards(a: seq<StatCard>, b: seq<StatCard>) {
    |a| == |b| &&
    forall i :: 0 <= i < |a| ==>
      a[i].caption == b[i].caption && a[i].color == b[i].color &&
      a[i].icon == b[i].icon && a[i].iconColor == b[i].iconColor
  }

  /** The cards with their values rewritten to the four counts of `s`, as
      decimal strings. */
  function Refreshed(cards: seq<StatCard>, s: Stats): (r: seq<StatCard>)
    requires |cards| == 4
    ensures SameCards(r, cards)
    ensures DecimalValue(r[0].value) == s.total && DecimalValue(r[1].value) == s.delivered
    ensures DecimalValue(r[2].value) == s.pending && DecimalValue(r[3].value) == s.missed
  {
    DecimalRoundTrip(s.total);
    DecimalRoundTrip(s.delivered);
    DecimalRoundTrip(s.pending);
    DecimalRoundTrip(s.missed);
    [cards[0].(value := Decimal(s.total)), cards[1].(value := Decimal(s.delivered)),
     cards[2].(value := Decimal(s.pending)), cards[3].(value := Decimal(s.missed))]
  }

  /** An update request: the booking id and the body sent with it. */
  datatype UpdateRequest = UpdateRequest(id: string, patch: BookingPatch)

  class Component {
    var selectedDate: int
    var deliveries: seq<Booking>
    var todayDeliveries: seq<Booking>
    const stats: array<StatCard>

    /** The day's list and the four card values agree with `deliveries`. */
    predicate Consistent()
      reads this, stats
    {
      stats.Length == 4 &&
      todayDeliveries == OnDay(deliveries, selectedDate) &&
      stats[0].value == Decimal(StatsOf(todayDeliveries).total) &&
      stats[1].value == Decimal(StatsOf(todayDeliveries).delivered) &&
      stats[2].value == Decimal(StatsOf(todayDeliveries).pending) &&
      stats[3].value == Decimal(StatsOf(todayDeliveries).missed)
    }

    constructor(today: int)
      ensures selectedDate == today && deliveries == [] && todayDeliveries == []
      ensures stats[..] == InitialStats && fresh(stats)
      ensures Consistent()
    {
      selectedDate := today;
      deliveries := [];
      todayDeliveries := [];
      stats := new StatCard[4](i requires 0 <= i < 4 => InitialStats[i]);
    }

    /** Keeps exactly the deliveries of the selected day, in order. */
    method UpdateTodayDeliveries()
      modifies this
      ensures todayDeliveries == OnDay(deliveries, selectedDate)
      ensures deliveries == old(deliveries) && selectedDate == old(selectedDate)
    {
      todayDeliveries := OnDay(deliveries, selectedDate);
    }

    /** Writes the four counts of the day's deliveries, as decimal strings,
        into the cards' values; captions (the source's labels), colours and icons stay. */
    method UpdateStats()
      requires stats.Length == 4
      modifies stats
      ensures stats[..] == Refreshed(old(stats[..]), StatsOf(todayDeliveries))
      ensures DecimalValue(stats[0].value) == |todayDeliveries|
    {
      var cards := Refreshed(stats[..], StatsOf(todayDeliveries));
      forall k | 0 <= k < 4 {
        stats[k] := cards[k];
      }
      assert stats[..] == cards;
    }

    /** A successful load replaces the deliveries and then recomputes the
        day's list and the cards from them; a failed load changes nothing. */
    method LoadDeliveries(response: Option<seq<Booking>>)
      requires stats.Length == 4
      modifies this, stats
      ensures response.None? ==> unchanged(this) && unchanged(stats)
      ensures response.Some? ==> deliveries == response.value && Consistent()
      ensures selectedDate == old(selectedDate)
      ensures SameCards(stats[..], old(stats[..]))
    {
      if response.Some? {
        deliveries := response.value;
        UpdateTodayDeliveries();
        UpdateStats();
      }
    }

    /** A status action sends only the status; applied to the stored booking
        it changes that booking's status and nothing else. */
    method UpdateDeliveryStatus(id: string, o: Outcome) returns (req: UpdateRequest)
      ensures req.id == id
      ensures req.patch.status == Some(OutcomeStatus(o))
      ensures forall b: Booking :: ApplyPatch(b, req.patch) == b.(status := OutcomeStatus(o))
    {
      req := UpdateRequest(id, StatusPatch(OutcomeStatus(o)));
      forall b: Booking ensures ApplyPatch(b, req.patch) == b.(status := OutcomeStatus(o)) {
        StatusPatchChangesOnlyStatus(b, OutcomeStatus(o));
      }
    }
  }

  /** The status names the server stores. */
  function StatusName(s: Status): string {
    match s
    case Pending => "pending"
    case Delivered => "delivered"
    case Missed => "missed"
    case Cancelled => "cancelled"
  }

  /** The button colour for a status name: 'accent' for pending, 'warn' for
      missed, 'primary' for delivered and for any other name. */
  function GetStatusColor(status: string): (c: string)
    ensures c == "accent" <==> status == "pending"
    ensures c == "warn" <==> status == "missed"
    ensures c == "primary" <==> status != "pending" && status != "missed"
  {
    if status == "delivered" then "primary"
    else if status == "pending" then "accent"
    else if status == "missed" then "warn"
    else "primary"
  }

  /** The colours of the four stored statuses. */
  lemma StatusColors()
    ensures GetStatusColor(StatusName(Delivered)) == "primary"
    ensures GetStatusColor(StatusName(Pending)) == "accent"
    ensures GetStatusColor(StatusName(Missed)) == "warn"
    ensures GetStatusColor(StatusName(Cancelled)) == "primary"
  {
  }
}
