/**
  The Angular booking dialog: a reactive form (variety, quantity, extra flag)
  seeded from the booking being edited, a running total, and the three ways
  the dialog closes: with the form, with a delete request, or with nothing.
 */
module BookingModalComponent {
  import opened Records
  import opened Catalog

  /** The form's controls; an emptied control holds nothing. */
  datatype FormValue = FormValue(milkType: Option<string>, quantity: Option<int>, isExtra: bool)

  /** `Validators.required` on both controls and `Validators.min(1)` on the
      quantity. */
  predicate Valid(f: FormValue) {
    f.milkType.Some? && f.milkType.value != "" && f.quantity.Some? && f.quantity.value >= 1
  }

  /** The form's starting values: the edited booking's fields where they are
      truthy, else the first variety's name, 1 litre and no extra. */
  function InitialForm(existing: Option<Booking>, vs: seq<MilkVariety>): (f: FormValue)
    ensures existing.Some? && existing.value.milkType != "" ==> f.milkType == Some(existing.value.milkType)
    ensures existing.None? && |vs| > 0 ==> f.milkType == Some(vs[0].name)
    ensures existing.None? ==> f.quantity == Some(1) && !f.isExtra
    ensures existing.Some? && existing.value.quantity >= 1 ==> f.quantity == Some(existing.value.quantity)
    ensures Valid(f) <==>
      (if existing.Some? && existing.value.milkType != "" then true else |vs| > 0 && vs[0].name != "") &&
      (existing.None? || existing.value.quantity >= 0)
  {
    var milk :=
      if existing.Some? && existing.value.milkType != "" then Some(existing.value.milkType)
      else if |vs| > 0 then Some(vs[0].name)
      else None;
    var quantity := if existing.Some? && existing.value.quantity != 0 then existing.value.quantity else 1;
    FormValue(milk, Some(quantity), existing.Some? && existing.value.isExtra)
  }

  /** The total shown in the dialog: the selected variety's price (0 when no
      variety has that name) times the quantity (0 when the control is empty). */
  function GetTotalPrice(f: FormValue, vs: seq<MilkVariety>): (t: real)
    ensures f.quantity.None? || f.quantity.value == 0 ==> t == 0.0
    ensures f.milkType.None? ==> t == 0.0
    ensures f.milkType.Some? && (forall v :: v in vs ==> v.name != f.milkType.value) ==> t == 0.0
    ensures f.milkType.Some? && f.quantity.Some? ==> t == BookingTotal(vs, f.milkType.value, f.quantity.value)
  {
    var quantity := if f.quantity.Some? then f.quantity.value else 0;
    if f.milkType.None? then 0.0 else UnitPrice(vs, f.milkType.value) * quantity as real
  }

  /** What the dialog closes with. */
  datatype DialogResult = Dismissed | Saved(form: FormValue) | DeleteRequested

  /** A dialog action either leaves the dialog open or closes it with a result. */
  datatype Step = StaysOpen | Closes(result: DialogResult)

  /** Submitting closes with the form's value, and only a valid form does. */
  function OnSubmit(f: FormValue): (s: Step)
    ensures s.Closes? <==> Valid(f)
    ensures s.Closes? ==> s.result == Saved(f)
  {
    if Valid(f) then Closes(Saved(f)) else StaysOpen
  }

  /** Delete closes with the delete marker once the user confirms. */
  function DeleteBooking(confirmed: bool): (s: Step)
    ensures s.Closes? <==> confirmed
    ensures s.Closes? ==> s.result == DeleteRequested
  {
    if confirmed then Closes(DeleteRequested) else StaysOpen
  }

  /** Cancel and the close icon close with no result. */
  function Close(): Step {
    Closes(Dismissed)
  }

  /** The dialog's buttons, the delete button being rendered only when a
      booking is edited. */
  datatype Action = Submit(form: FormValue) | Delete(confirmed: bool) | Cancel

  predicate Offered(a: Action, existing: Option<Booking>) {
    a.Delete? ==> existing.Some?
  }

  function Perform(a: Action): Step {
    match a
    case Submit(f) => OnSubmit(f)
    case Delete(c) => DeleteBooking(c)
    case Cancel => Close()
  }

  /** Every result the dialog closes with is nothing, a valid form, or a
      confirmed delete request for a booking that exists. */
  lemma {:induction false} ClosingResults(a: Action, existing: Option<Booking>)
    requires Offered(a, existing)
    ensures Perform(a).Closes? ==>
      match Perform(a).result
      case Dismissed => a.Cancel?
      case Saved(f) => Valid(f) && a == Submit(f)
      case DeleteRequested => existing.Some? && a == Delete(true)
  {
    match a
    case Submit(f) =>
      assert Perform(a) == OnSubmit(f);
    case Delete(c) =>
      assert Perform(a) == DeleteBooking(c);
    case Cancel =>
      assert Perform(a) == Closes(Dismissed);
  }
}
