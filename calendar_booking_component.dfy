/**
  The Angular booking calendar: a six-week grid around the month being
  viewed, month navigation, and the requests sent when the booking dialog of
  a day closes.
 */
module CalendarBookingComponent {
  import opened Records
  import opened Seqs
  import opened Dates
  import opened Catalog
  import opened Deliveries
  import opened BookingModalComponent

  /** `new Date(y, m, 1)` as the year, month and day it reports. */
  function FirstOfMonth(y: int, m: int): (c: CivilDate)
    ensures ValidCivil(c) && c.day == 1
    ensures DayNumber(c) == MakeDay(y, m, 1)
  {
    CivilDate(y + m / 12, m % 12, 1)
  }

  /** The 1st of the previous month lies a whole month before the 1st of `m`. */
  lemma PreviousFirstOfMonth(y: int, m: int)
    requires 0 <= m < 12
    ensures var p := FirstOfMonth(y, m - 1); DayNumber(p) + DaysInMonth(p.year, p.month) == MonthStart(y, m)
  {
    var p := FirstOfMonth(y, m - 1);
    PreviousMonthStart(y, m);
    assert p.year == y + (m - 1) / 12 && p.month == (m - 1) % 12;
  }

  /** The Sunday on or before day `d`. */
  function SundayOnOrBefore(d: int): (s: int)
    ensures Weekday(s) == 0
    ensures s <= d < s + 7
  {
    var w := Weekday(d);
    assert (d + 4) == 7 * ((d + 4) / 7) + w;
    assert d - w + 4 == 7 * ((d + 4) / 7);
    d - w
  }

  /** The first day shown for month `m` of year `y`: the Sunday on or before
      its 1st, with the month's last day at most 41 days later. */
  function GridStart(y: int, m: int): (s: int)
    requires 0 <= m < 12
    ensures Weekday(s) == 0
    ensures s <= MakeDay(y, m, 1) < s + 7
    ensures MakeDay(y, m + 1, 0) <= s + 41
  {
    LastDayOfMonth(y, m);
    MakeDayInYear(y, m, 1);
    SundayOnOrBefore(MakeDay(y, m, 1))
  }

  /** The 42 days shown for month `m` of year `y`: six whole weeks from the
      Sunday on or before the 1st. */
  function CalendarGrid(y: int, m: int): (g: seq<int>)
    requires 0 <= m < 12
    ensures |g| == 42
    ensures forall i :: 0 <= i < 42 ==> g[i] == g[0] + i
    ensures Weekday(g[0]) == 0
    ensures g[0] <= MakeDay(y, m, 1) < g[0] + 7
    ensures MakeDay(y, m + 1, 0) <= g[41]
  {
    var start := GridStart(y, m);
    seq(42, i => start + i)
  }

  /** Every day from the 1st to the last of the month is in its grid. */
  lemma GridCoversMonth(y: int, m: int, d: int)
    requires 0 <= m < 12
    requires MakeDay(y, m, 1) <= d <= MakeDay(y, m + 1, 0)
    ensures d in CalendarGrid(y, m)
  {
    var g := CalendarGrid(y, m);
    assert g[d - g[0]] == d;
  }

  /** A request the calendar sends to the server. */
  datatype CalendarRequest =
    | NoRequest
    | UpdateRequest(id: string, patch: BookingPatch)
    | CreateRequest(body: BookingRequest)
    | DeleteRequest(id: string)

  /** The form's fields as an update body. */
  function FormPatch(f: FormValue): BookingPatch {
    EmptyPatch.(milkType := f.milkType, quantity := f.quantity, isExtra := Some(f.isExtra))
  }

  /** `{ ...result, date }` as a creation body. */
  function FormBody(f: FormValue, day: int): BookingRequest {
    BookingRequest(Some(day), f.milkType, f.quantity, Some(f.isExtra))
  }

  /** The dialog's result handled as the component does: any truthy result
      goes to `updateBooking` when the day has a booking and to
      `createBooking` otherwise, the `{ delete: true }` marker included. */
  function AfterClosedAsWritten(existing: Option<Booking>, day: int, result: DialogResult): (req: CalendarRequest)
    ensures result.Dismissed? <==> req.NoRequest?
    ensures existing.Some? && !result.Dismissed? ==> req.UpdateRequest? && req.id == existing.value.id
    ensures !req.DeleteRequest?
  {
    match result
    case Dismissed => NoRequest
    case Saved(f) =>
      if existing.Some? then UpdateRequest(existing.value.id, FormPatch(f)) else CreateRequest(FormBody(f, day))
    case DeleteRequested =>
      // the body `{ delete: true }` carries no booking field
      if existing.Some? then UpdateRequest(existing.value.id, EmptyPatch)
      else CreateRequest(BookingRequest(Some(day), None, None, None))
  }

  /** The result handling with a confirmed delete sent as a deletion of the
      day's booking. */
  function AfterClosed(existing: Option<Booking>, day: int, result: DialogResult): (req: CalendarRequest)
    ensures result.Dismissed? <==> req.NoRequest?
    ensures req.DeleteRequest? <==> existing.Some? && result.DeleteRequested?
    ensures req.DeleteRequest? ==> req.id == existing.value.id
    ensures result.Saved? && existing.Some? ==> req == UpdateRequest(existing.value.id, FormPatch(result.form))
    ensures result.Saved? && existing.None? ==> req == CreateRequest(FormBody(result.form, day))
  {
    match result
    case Dismissed => NoRequest
    case Saved(f) =>
      if existing.Some? then UpdateRequest(existing.value.id, FormPatch(f)) else CreateRequest(FormBody(f, day))
    case DeleteRequested =>
      if existing.Some? then DeleteRequest(existing.value.id)
      else CreateRequest(BookingRequest(Some(day), None, None, None))
  }

  /** The stored bookings after an update or delete request is served. */
  function Served(bs: seq<Booking>, req: CalendarRequest): seq<Booking> {
    match req
    case UpdateRequest(id, p) => UpdateById(bs, id, p)
    case DeleteRequest(id) => RemoveBooking(bs, id)
    case _ => bs
  }

  /** As written, confirming the delete of a day's booking leaves every
      stored booking as it was: the booking is still there afterwards. */
  lemma DeleteIsLostAsWritten(bs: seq<Booking>, b: Booking)
    requires b in bs
    ensures AfterClosedAsWritten(Some(b), b.date, DeleteRequested) == UpdateRequest(b.id, EmptyPatch)
    ensures Served(bs, AfterClosedAsWritten(Some(b), b.date, DeleteRequested)) == bs
    ensures b in Served(bs, AfterClosedAsWritten(Some(b), b.date, DeleteRequested))
  {
    UpdateWithEmptyPatch(bs, b.id);
  }

  /** With the delete sent as a deletion, a confirmed delete removes the day's
      booking and keeps every other booking. */
  lemma DeleteRemovesBooking(bs: seq<Booking>, b: Booking)
    requires b in bs
    ensures forall x :: x in Served(bs, AfterClosed(Some(b), b.date, DeleteRequested)) ==> x.id != b.id
    ensures forall x :: x in bs && x.id != b.id ==> x in Served(bs, AfterClosed(Some(b), b.date, DeleteRequested))
  {
  }

  /** Both handlings agree on every result except a delete of an existing
      booking. */
  lemma AfterClosedAgrees(existing: Option<Booking>, day: int, result: DialogResult)
    requires !(existing.Some? && result.DeleteRequested?)
    ensures AfterClosed(existing, day, result) == AfterClosedAsWritten(existing, day, result)
  {
  }

  class Component {
    var currentDate: CivilDate
    var calendarDays: seq<int>
    var bookings: seq<Booking>
    var milkVarieties: seq<MilkVariety>

    predicate Valid()
      reads this
    {
      ValidCivil(currentDate)
    }

    constructor(today: CivilDate)
      requires ValidCivil(today)
      ensures currentDate == today && calendarDays == [] && bookings == [] && milkVarieties == []
      ensures Valid()
    {
      currentDate := today;
      calendarDays := [];
      bookings := [];
      milkVarieties := [];
    }

    /** Fills `calendarDays` with the grid of the current month, pushing day
        `start + i` for i = 0 .. 41. */
    method GenerateCalendar()
      requires Valid()
      modifies this
      ensures Valid() && calendarDays == CalendarGrid(currentDate.year, currentDate.month)
      ensures currentDate == old(currentDate) && bookings == old(bookings) && milkVarieties == old(milkVarieties)
    {
      var startDate := GridStart(currentDate.year, currentDate.month);
      var days: seq<int> := [];
      var i := 0;
      while i < 42
        invariant 0 <= i <= 42
        invariant |days| == i
        invariant forall k :: 0 <= k < i ==> days[k] == startDate + k
      {
        days := days + [startDate + i];
        i := i + 1;
      }
      calendarDays := days;
    }

    /** Moves to the 1st of the previous month, which ends the day before the
        1st of the month left, and regenerates the grid. */
    method PreviousMonth()
      requires Valid()
      modifies this
      ensures currentDate == FirstOfMonth(old(currentDate.year), old(currentDate.month) - 1)
      ensures DayNumber(currentDate) + DaysInMonth(currentDate.year, currentDate.month)
              == MonthStart(old(currentDate.year), old(currentDate.month))
      ensures Valid() && calendarDays == CalendarGrid(currentDate.year, currentDate.month)
      ensures bookings == old(bookings) && milkVarieties == old(milkVarieties)
    {
      var y, m := currentDate.year, currentDate.month;
      var previous := FirstOfMonth(y, m - 1);
      PreviousFirstOfMonth(y, m);
      currentDate := previous;
      GenerateCalendar();
    }

    /** Moves to the 1st of the next month, the day after the last of the
        month left, and regenerates the grid. */
    method NextMonth()
      requires Valid()
      modifies this
      ensures currentDate == FirstOfMonth(old(currentDate.year), old(currentDate.month) + 1)
      ensures DayNumber(currentDate)
              == MonthStart(old(currentDate.year), old(currentDate.month)) + DaysInMonth(old(currentDate.year), old(currentDate.month))
      ensures Valid() && calendarDays == CalendarGrid(currentDate.year, currentDate.month)
      ensures bookings == old(bookings) && milkVarieties == old(milkVarieties)
    {
      var y, m := currentDate.year, currentDate.month;
      var next := FirstOfMonth(y, m + 1);
      MonthLength(y, m);
      currentDate := next;
      GenerateCalendar();
    }

    method LoadBookings(response: Option<seq<Booking>>)
      modifies this
      ensures bookings == (if response.Some? then response.value else old(bookings))
      ensures currentDate == old(currentDate) && calendarDays == old(calendarDays) && milkVarieties == old(milkVarieties)
    {
      if response.Some? {
        bookings := response.value;
      }
    }

    method LoadMilkVarieties(response: Option<seq<MilkVariety>>)
      modifies this
      ensures milkVarieties == (if response.Some? then response.value else old(milkVarieties))
      ensures currentDate == old(currentDate) && calendarDays == old(calendarDays) && bookings == old(bookings)
    {
      if response.Some? {
        milkVarieties := response.value;
      }
    }

    function GetBookingForDate(day: int): Option<Booking>
      reads this
    {
      BookingOn(bookings, day)
    }

    function GetMilkColor(milkType: string): string
      reads this
    {
      VarietyColor(milkVarieties, milkType)
    }

    /** A day before today opens nothing; any other day opens the dialog on
        its booking and sends what the after-close handler, as written, sends
        for its result: never a deletion. */
    method OpenBookingModal(day: int, today: int, result: DialogResult) returns (req: CalendarRequest)
      ensures day < today ==> req.NoRequest?
      ensures day >= today ==> req == AfterClosedAsWritten(BookingOn(bookings, day), day, result)
      ensures !req.DeleteRequest?
      ensures day >= today && req.UpdateRequest? ==>
        exists b :: b in bookings && b.date == day && b.id == req.id
    {
      if day < today {
        return NoRequest;
      }
      var existingBooking := GetBookingForDate(day);
      req := AfterClosedAsWritten(existingBooking, day, result);
    }
  }

  /** Going back a month and then forward returns to the 1st of the month. */
  lemma PreviousThenNext(c: CivilDate)
    requires ValidCivil(c)
    ensures var p := FirstOfMonth(c.year, c.month - 1);
      FirstOfMonth(p.year, p.month + 1) == CivilDate(c.year, c.month, 1)
  {
    if c.month == 0 {
      assert FirstOfMonth(c.year, -1) == CivilDate(c.year - 1, 11, 1);
      assert FirstOfMonth(c.year - 1, 12) == CivilDate(c.year, 0, 1);
    } else {
      assert FirstOfMonth(c.year, c.month - 1) == CivilDate(c.year, c.month - 1, 1);
      assert FirstOfMonth(c.year, c.month) == CivilDate(c.year, c.month, 1);
    }
  }
}
