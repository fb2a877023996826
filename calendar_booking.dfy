/**
  The React booking calendar: a customer's bookings, at most one per day,
  edited through a modal opened by clicking a day. Clicking a day loads that
  day's booking as the edit target, so saving replaces it rather than adding
  a second booking on the same day.
 */
module CalendarBooking {
  import opened Records
  import opened Seqs
  import opened Catalog
  import opened Deliveries

  /** What the modal hands back when saved. */
  datatype BookingForm = BookingForm(milkType: string, quantity: int, isExtra: bool)

  /** A day strictly before today (today itself stays open). */
  predicate IsPast(day: int, today: int) {
    day < today
  }

  /** The booking built from the modal: the demo customer, route1, pending. */
  function NewBooking(form: BookingForm, day: int, id: string, now: int): Booking {
    Booking(id, "1", "John Doe", Some("123 Main St"), day, form.milkType, form.quantity,
            form.isExtra, Pending, "route1", None, now)
  }

  /** Saving: with an edit target, every booking with its id becomes the new
      booking under that id; without one, the new booking is appended. */
  function SaveBooking(bs: seq<Booking>, editing: Option<Booking>, nb: Booking): (r: seq<Booking>)
    ensures editing.None? ==> r == bs + [nb]
    ensures editing.Some? ==> |r| == |bs|
    ensures editing.Some? ==> forall i :: 0 <= i < |bs| ==>
              r[i] == if bs[i].id == editing.value.id then nb.(id := editing.value.id) else bs[i]
  {
    if editing.None? then bs + [nb]
    else MapWhere(bs, (b: Booking) => b.id == editing.value.id, (b: Booking) => nb.(id := editing.value.id))
  }

  /** The edit target fits the selected day: every booking on the day is the
      target, and the target's id names no booking on another day. */
  predicate EditTargetOk(bs: seq<Booking>, day: int, editing: Option<Booking>) {
    (forall b :: b in bs && b.date == day ==> editing.Some? && b.id == editing.value.id) &&
    (editing.Some? ==> forall b :: b in bs && b.id == editing.value.id ==> b.date == day)
  }

  /** The target a day click loads fits that day. */
  lemma {:induction false} ClickedTargetOk(bs: seq<Booking>, day: int)
    requires UniqueBy(bs, BookingId) && OnePerDay(bs)
    ensures EditTargetOk(bs, day, BookingOn(bs, day))
  {
    forall b | b in bs && b.date == day
      ensures BookingOn(bs, day) == Some(b)
    {
      BookingOnIsTheOne(bs, day, b);
    }
    var e := BookingOn(bs, day);
    if e.Some? {
      forall b | b in bs && b.id == e.value.id
        ensures b.date == day
      {
        var i :| 0 <= i < |bs| && bs[i] == b;
        var k :| 0 <= k < |bs| && bs[k] == e.value;
        assert BookingId(bs[i]) == BookingId(bs[k]);
      }
    }
  }

  /** Saving a booking for the selected day, with a target that fits the day
      and a fresh id for an appended booking, keeps ids unique and one booking
      per day. */
  lemma {:induction false} SaveKeepsOnePerDay(bs: seq<Booking>, day: int, editing: Option<Booking>, nb: Booking)
    requires UniqueBy(bs, BookingId) && OnePerDay(bs) && EditTargetOk(bs, day, editing)
    requires nb.date == day
    requires editing.None? ==> nb.id !in Keys(bs, BookingId)
    ensures UniqueBy(SaveBooking(bs, editing, nb), BookingId)
    ensures OnePerDay(SaveBooking(bs, editing, nb))
  {
    var r := SaveBooking(bs, editing, nb);
    if editing.None? {
      AppendUnique(bs, nb, BookingId);
      forall b | b in bs ensures BookingDate(b) != BookingDate(nb) {
      }
      AppendUnique(bs, nb, BookingDate);
    } else {
      var eid := editing.value.id;
      forall i, j | 0 <= i < j < |r|
        ensures BookingId(r[i]) != BookingId(r[j]) && BookingDate(r[i]) != BookingDate(r[j])
      {
        assert r[i].id == bs[i].id && r[j].id == bs[j].id;
        assert BookingId(bs[i]) != BookingId(bs[j]);
        if bs[i].id == eid {
          assert bs[j] in bs;
        } else if bs[j].id == eid {
          assert bs[i] in bs;
        } else {
          assert BookingDate(bs[i]) != BookingDate(bs[j]);
        }
      }
    }
  }

  /** Click a day, then save: a day that had a booking still has exactly that
      booking's id, now pending with the form's contents, and the list keeps
      its length; a day without one gains one pending booking at the end. In
      both cases no day ends up with two bookings. */
  lemma {:induction false} ClickThenSave(bs: seq<Booking>, day: int, form: BookingForm, id: string, now: int)
    requires UniqueBy(bs, BookingId) && OnePerDay(bs)
    requires id !in Keys(bs, BookingId)
    ensures var r := SaveBooking(bs, BookingOn(bs, day), NewBooking(form, day, id, now));
      UniqueBy(r, BookingId) && OnePerDay(r) &&
      (BookingOn(bs, day).Some? ==>
         |r| == |bs| && BookingOn(r, day) == Some(NewBooking(form, day, BookingOn(bs, day).value.id, now))) &&
      (BookingOn(bs, day).None? ==>
         r == bs + [NewBooking(form, day, id, now)] && BookingOn(r, day) == Some(NewBooking(form, day, id, now)))
  {
    var e := BookingOn(bs, day);
    var nb := NewBooking(form, day, id, now);
    var r := SaveBooking(bs, e, nb);
    ClickedTargetOk(bs, day);
    SaveKeepsOnePerDay(bs, day, e, nb);
    if e.Some? {
      var k :| 0 <= k < |bs| && bs[k] == e.value;
      assert r[k] == nb.(id := e.value.id);
      BookingOnIsTheOne(r, day, r[k]);
    } else {
      assert r[|bs|] == nb;
      BookingOnIsTheOne(r, day, nb);
    }
  }

  class Calendar {
    var bookings: seq<Booking>
    var selectedDate: Option<int>
    var showBookingModal: bool
    var editingBooking: Option<Booking>

    /** Ids are unique, no day has two bookings, and while a day is selected
        the edit target fits it. */
    predicate Consistent()
      reads this
    {
      UniqueBy(bookings, BookingId) && OnePerDay(bookings) &&
      (selectedDate.Some? ==> EditTargetOk(bookings, selectedDate.value, editingBooking))
    }

    constructor()
      ensures bookings == [] && selectedDate == None && !showBookingModal && editingBooking == None
      ensures Consistent()
    {
      bookings := [];
      selectedDate := None;
      showBookingModal := false;
      editingBooking := None;
    }

    function GetBookingForDate(day: int): Option<Booking>
      reads this
    {
      BookingOn(bookings, day)
    }

    /** A past day is ignored; any other day is selected, its booking (if any)
        becomes the edit target and the modal opens. */
    method HandleDateClick(day: int, today: int)
      modifies this
      ensures IsPast(day, today) ==> unchanged(this)
      ensures !IsPast(day, today) ==>
        selectedDate == Some(day) && editingBooking == BookingOn(old(bookings), day) &&
        showBookingModal && bookings == old(bookings)
      ensures old(Consistent()) ==> Consistent()
    {
      if IsPast(day, today) {
        return;
      }
      selectedDate := Some(day);
      editingBooking := GetBookingForDate(day);
      showBookingModal := true;
      if UniqueBy(bookings, BookingId) && OnePerDay(bookings) {
        ClickedTargetOk(bookings, day);
      }
    }

    /** Saves the modal's form for the selected day (nothing happens without
        one) and closes the modal. `freshId` is the random id a new booking
        gets; it is dropped when an existing booking is replaced. */
    method HandleBooking(form: BookingForm, freshId: string, now: int)
      modifies this
      ensures old(selectedDate).None? ==> unchanged(this)
      ensures old(selectedDate).Some? ==>
        bookings == SaveBooking(old(bookings), old(editingBooking), NewBooking(form, old(selectedDate).value, freshId, now)) &&
        !showBookingModal && selectedDate == None && editingBooking == None
      ensures old(Consistent()) && freshId !in Keys(old(bookings), BookingId) ==> Consistent()
    {
      if selectedDate.None? {
        return;
      }
      var nb := NewBooking(form, selectedDate.value, freshId, now);
      if Consistent() && freshId !in Keys(bookings, BookingId) {
        SaveKeepsOnePerDay(bookings, selectedDate.value, editingBooking, nb);
      }
      bookings := SaveBooking(bookings, editingBooking, nb);
      showBookingModal := false;
      selectedDate := None;
      editingBooking := None;
    }

    /** Removes the booking with the id and hides the modal; the selected day
        and the edit target are left as they were. */
    method DeleteBooking(id: string)
      modifies this
      ensures bookings == RemoveBooking(old(bookings), id) && !showBookingModal
      ensures selectedDate == old(selectedDate) && editingBooking == old(editingBooking)
      ensures old(Consistent()) ==> Consistent()
    {
      var r := RemoveBooking(bookings, id);
      if Consistent() {
        SubsequenceUnique(r, bookings, BookingId);
        SubsequenceUnique(r, bookings, BookingDate);
        SubsequenceMembers(r, bookings);
      }
      bookings := r;
      showBookingModal := false;
    }

    method CloseModal()
      modifies this
      ensures bookings == old(bookings)
      ensures !showBookingModal && selectedDate == None && editingBooking == None
      ensures old(Consistent()) ==> Consistent()
    {
      showBookingModal := false;
      selectedDate := None;
      editingBooking := None;
    }
  }

  /** The modal's own state: the chosen variety, the quantity and the extra
      flag, starting from the edited booking or from the defaults. */
  class BookingModal {
    const varieties: seq<MilkVariety>
    var selectedMilk: string
    var quantity: int
    var isExtra: bool

    /** `existing?.milkType || varieties[0].name`, `existing?.quantity || 1`,
        `existing?.isExtra || false`. */
    constructor(vs: seq<MilkVariety>, existing: Option<Booking>)
      requires |vs| > 0
      ensures varieties == vs
      ensures selectedMilk == (if existing.Some? && existing.value.milkType != "" then existing.value.milkType else vs[0].name)
      ensures quantity == (if existing.Some? && existing.value.quantity != 0 then existing.value.quantity else 1)
      ensures isExtra == (existing.Some? && existing.value.isExtra)
    {
      varieties := vs;
      selectedMilk := if existing.Some? && existing.value.milkType != "" then existing.value.milkType else vs[0].name;
      quantity := if existing.Some? && existing.value.quantity != 0 then existing.value.quantity else 1;
      isExtra := existing.Some? && existing.value.isExtra;
    }

    /** The total shown under the form. */
    function TotalPrice(): real
      reads this
    {
      BookingTotal(varieties, selectedMilk, quantity)
    }

    /** The minus button: one litre less, but never below 1. */
    method Decrease()
      modifies this
      ensures quantity >= 1
      ensures quantity == (if old(quantity) - 1 < 1 then 1 else old(quantity) - 1)
      ensures selectedMilk == old(selectedMilk) && isExtra == old(isExtra)
    {
      quantity := if quantity - 1 < 1 then 1 else quantity - 1;
    }

    /** The plus button: one litre more. */
    method Increase()
      modifies this
      ensures quantity == old(quantity) + 1
      ensures selectedMilk == old(selectedMilk) && isExtra == old(isExtra)
    {
      quantity := quantity + 1;
    }

    method SelectMilk(name: string)
      modifies this
      ensures selectedMilk == name && quantity == old(quantity) && isExtra == old(isExtra)
    {
      selectedMilk := name;
    }

    method SetExtra(extra: bool)
      modifies this
      ensures isExtra == extra && selectedMilk == old(selectedMilk) && quantity == old(quantity)
    {
      isExtra := extra;
    }

    /** The form handed to the calendar on submit. */
    method Submit() returns (form: BookingForm)
      ensures form.milkType == selectedMilk && form.quantity == quantity && form.isExtra == isExtra
    {
      form := BookingForm(selectedMilk, quantity, isExtra);
    }
  }
}
