/**
  The React worker dashboard: the deliveries of the worker's route, the day
  being viewed, and the two status actions offered on each pending delivery.
  What the screen shows is computed from these two pieces of state.
 */
module WorkerDashboard {
  import opened Records
  import opened Seqs
  import opened Deliveries

  class Dashboard {
    var selectedDate: int
    var deliveries: seq<Booking>

    /** The screen opens on today with two pending deliveries of route1, both
        due today. */
    constructor(today: int, now: int)
      ensures selectedDate == today && |deliveries| == 2
      ensures forall b :: b in deliveries ==> b.status == Pending && b.date == today && b.routeId == "route1"
      ensures UniqueBy(deliveries, BookingId)
    {
      selectedDate := today;
      deliveries := [
        Booking("1", "1", "John Doe", Some("123 Main Street, Apartment 4B"), today, "Aavin Green", 2,
                false, Pending, "route1", Some("worker1"), now),
        Booking("2", "2", "Jane Smith", Some("456 Oak Avenue, House 12"), today, "Aavin Blue", 1,
                true, Pending, "route1", Some("worker1"), now)];
    }

    /** Records an outcome on every delivery with the id: only their status
        changes, and the day being viewed stays. */
    method UpdateDeliveryStatus(id: string, o: Outcome)
      modifies this
      ensures deliveries == WithStatus(old(deliveries), id, OutcomeStatus(o))
      ensures selectedDate == old(selectedDate)
    {
      deliveries := WithStatus(deliveries, id, OutcomeStatus(o));
    }

    /** The deliveries shown: those on the selected day. */
    function TodayDeliveries(): seq<Booking>
      reads this
    {
      OnDay(deliveries, selectedDate)
    }

    /** The four counters above the list. */
    function Summary(): Stats
      reads this
    {
      StatsOf(TodayDeliveries())
    }
  }
}
