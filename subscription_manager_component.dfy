/**
  The Angular subscription manager: the loaded subscriptions and catalogue,
  the price and colour of each card, and the requests sent to pause, resume
  or delete a subscription.
 */
module SubscriptionManagerComponent {
  import opened Records
  import opened Seqs
  import opened Catalog
  import opened SubscriptionManager

  /** A request the manager sends to the server. */
  datatype SubscriptionRequest =
    | NoRequest
    | UpdateSubscription(id: string, body: Subscription)
    | DeleteSubscriptionRequest(id: string)

  /** Storing the toggle body under its id gives the list the React manager
      produces by toggling in place. */
  lemma {:induction false} TogglePayloadMatchesToggle(subs: seq<Subscription>, s: Subscription)
    requires UniqueBy(subs, SubscriptionId) && s in subs
    ensures MapWhere(subs, (x: Subscription) => x.id == s.id, (x: Subscription) => Toggled(s)) == ToggleById(subs, s.id)
  {
    var r := MapWhere(subs, (x: Subscription) => x.id == s.id, (x: Subscription) => Toggled(s));
    var t := ToggleById(subs, s.id);
    var k :| 0 <= k < |subs| && subs[k] == s;
    forall i | 0 <= i < |subs| ensures r[i] == t[i] {
      if subs[i].id == s.id {
        assert SubscriptionId(subs[i]) == SubscriptionId(subs[k]);
        assert i == k;
      }
    }
  }

  class Component {
    var subscriptions: seq<Subscription>
    var milkVarieties: seq<MilkVariety>

    constructor()
      ensures subscriptions == [] && milkVarieties == []
    {
      subscriptions := [];
      milkVarieties := [];
    }

    method LoadSubscriptions(response: Option<seq<Subscription>>)
      modifies this
      ensures subscriptions == (if response.Some? then response.value else old(subscriptions))
      ensures milkVarieties == old(milkVarieties)
    {
      if response.Some? {
        subscriptions := response.value;
      }
    }

    method LoadMilkVarieties(response: Option<seq<MilkVariety>>)
      modifies this
      ensures milkVarieties == (if response.Some? then response.value else old(milkVarieties))
      ensures subscriptions == old(subscriptions)
    {
      if response.Some? {
        milkVarieties := response.value;
      }
    }

    function GetMilkColor(milkType: string): string
      reads this
    {
      VarietyColor(milkVarieties, milkType)
    }

    function GetMonthlyPrice(s: Subscription): real
      reads this
    {
      MonthlyPrice(milkVarieties, s.milkType, s.quantity)
    }

    /** Pause or resume: the body sent is the subscription with its active
        flag negated and every other field as it was. */
    method ToggleSubscription(s: Subscription) returns (req: SubscriptionRequest)
      ensures req.UpdateSubscription? && req.id == s.id
      ensures req.body.isActive == !s.isActive && req.body.(isActive := s.isActive) == s
    {
      var updatedSubscription := Toggled(s);
      req := UpdateSubscription(s.id, updatedSubscription);
    }

    /** Delete is requested only once the user confirms. */
    method DeleteSubscription(id: string, confirmed: bool) returns (req: SubscriptionRequest)
      ensures confirmed <==> req == DeleteSubscriptionRequest(id)
      ensures !confirmed ==> req.NoRequest?
    {
      if confirmed {
        req := DeleteSubscriptionRequest(id);
      } else {
        req := NoRequest;
      }
    }
  }
}
