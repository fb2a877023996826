/**
  The React subscription manager: a customer's monthly subscriptions, which
  can be paused and resumed, deleted, and created through a modal that
  prices the whole plan and computes its end date.
 */
module SubscriptionManager {
  import opened Records
  import opened Seqs
  import opened Catalog

  /** `{ ...sub, isActive: !sub.isActive }`. */
  function Toggled(s: Subscription): (t: Subscription)
    ensures t.isActive == !s.isActive
    ensures t.(isActive := s.isActive) == s
  {
    s.(isActive := !s.isActive)
  }

  /** The list with the subscription(s) carrying the id paused or resumed. */
  function ToggleById(subs: seq<Subscription>, id: string): (r: seq<Subscription>)
    ensures |r| == |subs|
    ensures forall i :: 0 <= i < |subs| && subs[i].id == id ==> r[i] == Toggled(subs[i])
    ensures forall i :: 0 <= i < |subs| && subs[i].id != id ==> r[i] == subs[i]
  {
    MapWhere(subs, (s: Subscription) => s.id == id, Toggled)
  }

  /** Toggling the same subscription twice restores the list. */
  lemma ToggleTwice(subs: seq<Subscription>, id: string)
    ensures ToggleById(ToggleById(subs, id), id) == subs
  {
    var r := ToggleById(ToggleById(subs, id), id);
    forall i | 0 <= i < |subs| ensures r[i] == subs[i] {
    }
  }

  /** `subs.filter(sub => sub._id !== id)`. */
  function RemoveSubscription(subs: seq<Subscription>, id: string): (r: seq<Subscription>)
    ensures IsSubsequence(r, subs)
    ensures forall s :: s in r ==> s.id != id
    ensures forall s :: s in subs && s.id != id ==> s in r
  {
    Filter(subs, (s: Subscription) => s.id != id)
  }

  /** No subscription has a paused day: nothing in the manager ever adds one. */
  predicate NothingPaused(subs: seq<Subscription>) {
    forall s :: s in subs ==> s.pausedDates == []
  }

  /** Ids are unique and nothing is paused. */
  predicate WellFormed(subs: seq<Subscription>) {
    UniqueBy(subs, SubscriptionId) && NothingPaused(subs)
  }

  /** Toggling and deleting keep the list well formed. */
  lemma {:induction false} ToggleAndRemoveKeepWellFormed(subs: seq<Subscription>, id: string)
    requires WellFormed(subs)
    ensures WellFormed(ToggleById(subs, id))
    ensures WellFormed(RemoveSubscription(subs, id))
  {
    var t := ToggleById(subs, id);
    forall i, j | 0 <= i < j < |t| ensures SubscriptionId(t[i]) != SubscriptionId(t[j]) {
      assert t[i].id == subs[i].id && t[j].id == subs[j].id;
      assert SubscriptionId(subs[i]) != SubscriptionId(subs[j]);
    }
    forall s | s in t ensures s.pausedDates == [] {
      var i :| 0 <= i < |t| && t[i] == s;
      assert subs[i] in subs;
    }
    var r := RemoveSubscription(subs, id);
    SubsequenceUnique(r, subs, SubscriptionId);
  }

  /** The three durations the modal offers. */
  predicate IsDuration(d: int) {
    d == 30 || d == 60 || d == 90
  }

  /** What the create modal hands over on submit. */
  datatype SubscriptionForm = SubscriptionForm(milkType: string, quantity: int, startDate: int, endDate: int)

  /** The subscription `onSave` builds: demo customer "1", active, with no
      paused day. */
  function NewSubscription(form: SubscriptionForm, id: string): (s: Subscription)
    ensures s.isActive && s.pausedDates == [] && s.customerId == "1" && s.id == id
    ensures s.milkType == form.milkType && s.quantity == form.quantity
    ensures s.startDate == form.startDate && s.endDate == form.endDate
  {
    Subscription(id, "1", form.milkType, form.quantity, form.startDate, form.endDate, true, [])
  }

  /** A plan of 30, 60 or 90 days costs one, two or three months at the
      monthly price. */
  lemma {:induction false} PlanInMonths(vs: seq<MilkVariety>, name: string, quantity: int, duration: int)
    requires IsDuration(duration)
    ensures PlanTotal(vs, name, quantity, duration) == MonthlyPrice(vs, name, quantity) * (duration / 30) as real
  {
    var daily := UnitPrice(vs, name) * quantity as real;
    PlanIsDailyTotalTimesDuration(vs, name, quantity, duration);
    assert MonthlyPrice(vs, name, quantity) == daily * 30.0;
    assert duration as real == 30.0 * (duration / 30) as real;
  }

  class Manager {
    var subscriptions: seq<Subscription>
    var showCreateModal: bool
    const milkVarieties: seq<MilkVariety>

    /** One active 30-day subscription to two litres of Aavin Green, starting
        today. */
    constructor(today: int)
      ensures subscriptions == [Subscription("1", "1", "Aavin Green", 2, today, today + 30, true, [])]
      ensures milkVarieties == DemoVarieties && !showCreateModal
      ensures WellFormed(subscriptions)
    {
      subscriptions := [Subscription("1", "1", "Aavin Green", 2, today, today + 30, true, [])];
      showCreateModal := false;
      milkVarieties := DemoVarieties;
    }

    /** The monthly cost shown on a subscription's card. */
    function MonthlyCost(s: Subscription): real
      reads this
    {
      MonthlyPrice(milkVarieties, s.milkType, s.quantity)
    }

    method ToggleSubscription(id: string)
      modifies this
      ensures subscriptions == ToggleById(old(subscriptions), id)
      ensures showCreateModal == old(showCreateModal)
      ensures old(WellFormed(subscriptions)) ==> WellFormed(subscriptions)
    {
      if WellFormed(subscriptions) {
        ToggleAndRemoveKeepWellFormed(subscriptions, id);
      }
      subscriptions := ToggleById(subscriptions, id);
    }

    method DeleteSubscription(id: string)
      modifies this
      ensures subscriptions == RemoveSubscription(old(subscriptions), id)
      ensures showCreateModal == old(showCreateModal)
      ensures old(WellFormed(subscriptions)) ==> WellFormed(subscriptions)
    {
      if WellFormed(subscriptions) {
        ToggleAndRemoveKeepWellFormed(subscriptions, id);
      }
      subscriptions := RemoveSubscription(subscriptions, id);
    }

    method OpenCreateModal()
      modifies this
      ensures showCreateModal && subscriptions == old(subscriptions)
    {
      showCreateModal := true;
    }

    method CloseCreateModal()
      modifies this
      ensures !showCreateModal && subscriptions == old(subscriptions)
    {
      showCreateModal := false;
    }

    /** The modal's `onSave`: appends the new subscription under the random
        id `freshId` and closes the modal. */
    method Save(form: SubscriptionForm, freshId: string)
      modifies this
      ensures subscriptions == old(subscriptions) + [NewSubscription(form, freshId)]
      ensures !showCreateModal
      ensures old(WellFormed(subscriptions)) && freshId !in Keys(old(subscriptions), SubscriptionId) ==>
        WellFormed(subscriptions)
    {
      var s := NewSubscription(form, freshId);
      if WellFormed(subscriptions) && freshId !in Keys(subscriptions, SubscriptionId) {
        AppendUnique(subscriptions, s, SubscriptionId);
      }
      subscriptions := subscriptions + [s];
      showCreateModal := false;
    }
  }

  /** The create modal: the chosen variety, the daily quantity, the start day
      and the duration. */
  class CreateModal {
    const varieties: seq<MilkVariety>
    var selectedMilk: string
    var quantity: int
    var startDate: int
    var duration: int

    /** The first variety, 1 litre, starting today, for 30 days. */
    constructor(vs: seq<MilkVariety>, today: int)
      requires |vs| > 0
      ensures varieties == vs && selectedMilk == vs[0].name
      ensures quantity == 1 && startDate == today && duration == 30
      ensures IsDuration(duration)
    {
      varieties := vs;
      selectedMilk := vs[0].name;
      quantity := 1;
      startDate := today;
      duration := 30;
    }

    /** The total shown: price per litre times quantity times duration. */
    function TotalPrice(): real
      reads this
    {
      PlanTotal(varieties, selectedMilk, quantity, duration)
    }

    /** `new Date(start + duration days)`: the end day lies one duration after
        the start day. */
    function EndDate(): (e: int)
      reads this
      ensures e - startDate == duration
    {
      startDate + duration
    }

    method SelectMilk(name: string)
      modifies this
      ensures selectedMilk == name
      ensures quantity == old(quantity) && startDate == old(startDate) && duration == old(duration)
    {
      selectedMilk := name;
    }

    method SetQuantity(q: int)
      modifies this
      ensures quantity == q
      ensures selectedMilk == old(selectedMilk) && startDate == old(startDate) && duration == old(duration)
    {
      quantity := q;
    }

    method SetStartDate(day: int)
      modifies this
      ensures startDate == day
      ensures selectedMilk == old(selectedMilk) && quantity == old(quantity) && duration == old(duration)
    {
      startDate := day;
    }

    /** The duration select offers 30, 60 and 90 days only. */
    method SetDuration(d: int)
      requires IsDuration(d)
      modifies this
      ensures duration == d
      ensures selectedMilk == old(selectedMilk) && quantity == old(quantity) && startDate == old(startDate)
    {
      duration := d;
    }

    /** The form handed to `onSave`; its end day is a plan length after its
        start day. */
    method Submit() returns (form: SubscriptionForm)
      ensures form.milkType == selectedMilk && form.quantity == quantity
      ensures form.startDate == startDate && form.endDate == startDate + duration
      ensures IsDuration(duration) ==> IsDuration(form.endDate - form.startDate)
    {
      form := SubscriptionForm(selectedMilk, quantity, startDate, EndDate());
    }
  }
}
