/**
  The five record types of the milk-delivery system (users, milk varieties,
  bookings, monthly subscriptions and delivery routes), shared by the
  backend store and by both front ends.

  Dates are day numbers: day 0 is 1970-01-01, the epoch of JavaScript `Date`
  values, and two dates are "the same day" exactly when their numbers are equal.
  Prices are reals, quantities and stock levels integers.
 */
module Records {

  datatype Option<+T> = None | Some(value: T)

  /** JavaScript's `s || fallback` on an optional string: an absent or empty
      string is falsy and yields the fallback. */
  function OrElse(s: Option<string>, fallback: string): (r: string)
    ensures s.Some? && s.value != "" ==> r == s.value
    ensures s.None? || s.value == "" ==> r == fallback
  {
    if s.Some? && s.value != "" then s.value else fallback
  }

  datatype Role = Customer | Worker | Admin

  datatype Status = Pending | Delivered | Missed | Cancelled

  /** A delivery status that no further transition leaves (in the UI flows). */
  predicate IsTerminal(s: Status) {
    s != Pending
  }

  datatype User = User(
    id: string,
    email: string,
    name: string,
    role: Role,
    phone: Option<string>,
    address: Option<string>,
    routeId: Option<string>,
    createdAt: int)

  datatype MilkVariety = MilkVariety(
    id: string,
    name: string,
    color: string,
    pricePerLiter: real,
    stock: int,
    description: string)

  datatype Booking = Booking(
    id: string,
    customerId: string,
    customerName: string,
    customerAddress: Option<string>,
    date: int,
    milkType: string,
    quantity: int,
    isExtra: bool,
    status: Status,
    routeId: string,
    workerId: Option<string>,
    createdAt: int)

  datatype Subscription = Subscription(
    id: string,
    customerId: string,
    milkType: string,
    quantity: int,
    startDate: int,
    endDate: int,
    isActive: bool,
    pausedDates: seq<int>)

  datatype Route = Route(
    id: string,
    name: string,
    workerId: string,
    workerName: string,
    areas: seq<string>,
    customerCount: int)

  function UserId(u: User): string { u.id }
  function VarietyId(v: MilkVariety): string { v.id }
  function BookingId(b: Booking): string { b.id }
  function SubscriptionId(s: Subscription): string { s.id }
  function RouteId(r: Route): string { r.id }
  function BookingDate(b: Booking): int { b.date }
}
