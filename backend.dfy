/**
  The Express/Mongo backend as an in-memory store: the users (with their
  password hashes), milk varieties, bookings, subscriptions and routes, the
  bearer-token gate in front of the handlers, and the handlers themselves.

  Password hashing is a constructor that only the same password compares
  equal to; token verification is a parameter; every handler's
  "something threw" path answers 500 'Server error' and stores nothing.
 */
module Backend {
  import opened Records
  import opened Seqs
  import opened Text
  import opened Catalog
  import opened Deliveries

  // ---------------------------------------------------------------------
  // Passwords and tokens

  /** A bcrypt hash, reduced to the password it was made from. */
  datatype PasswordHash = Hashed(secret: string)

  /** `bcrypt.compare(password, hash)`. */
  predicate Compare(password: string, h: PasswordHash) {
    h == Hashed(password)
  }

  /** `bcrypt.hash(password, 12)`: the hash compares true for that password
      and for no other. */
  function Hash(password: string): (h: PasswordHash)
    ensures Compare(password, h)
    ensures forall p :: Compare(p, h) <==> p == password
  {
    Hashed(password)
  }

  /** The payload a token is signed over, and what `req.user` holds once
      the token is verified. */
  datatype Claims = Claims(userId: string, email: string, role: Role)

  /** `authHeader.split(' ')[1]`: the text after the first space, up to the
      next space; none when the header has no space. */
  function BearerToken(header: string): (r: Option<string>)
    ensures r.Some? <==> exists i :: 0 <= i < |header| && header[i] == ' '
    ensures r.Some? ==> forall k :: 0 <= k < |r.value| ==> r.value[k] != ' '
  {
    var i := FirstIndex(header, ' ');
    if i < 0 then None
    else
      var rest := header[i + 1..];
      var j := FirstIndex(rest, ' ');
      Some(if j < 0 then rest else rest[..j])
  }

  /** The token of `scheme + " " + token` is the token, for a scheme and a
      token without spaces. */
  lemma BearerTokenOfHeader(scheme: string, token: string)
    requires forall k :: 0 <= k < |scheme| ==> scheme[k] != ' '
    requires forall k :: 0 <= k < |token| ==> token[k] != ' '
    ensures BearerToken(scheme + " " + token) == Some(token)
  {
    var h := scheme + " " + token;
    assert h[|scheme|] == ' ';
    assert forall k :: 0 <= k < |scheme| ==> h[k] == scheme[k];
    assert FirstIndex(h, ' ') == |scheme|;
    assert h[|scheme| + 1..] == token;
  }

  /** `authHeader && authHeader.split(' ')[1]`, with the empty string (falsy)
      read as no token. */
  function TokenOf(header: Option<string>): (r: Option<string>)
    ensures r.Some? ==> r.value != "" && header.Some? && BearerToken(header.value) == r
    ensures r.None? <==> header.None? || BearerToken(header.value).None? || BearerToken(header.value) == Some("")
  {
    if header.None? then None
    else
      var t := BearerToken(header.value);
      if t.None? || t.value == "" then None else t
  }

  datatype AuthResult = Unauthorized | Forbidden | Authenticated(claims: Claims)

  /** `authenticateToken`: no token is 401, a token `verify` rejects is 403,
      and otherwise the handler runs with the verified claims. */
  function Authenticate(header: Option<string>, verify: string -> Option<Claims>): (r: AuthResult)
    ensures r.Unauthorized? <==> TokenOf(header).None?
    ensures r.Forbidden? <==> TokenOf(header).Some? && verify(TokenOf(header).value).None?
    ensures r.Authenticated? ==> TokenOf(header).Some? && verify(TokenOf(header).value) == Some(r.claims)
  {
    var t := TokenOf(header);
    if t.None? then Unauthorized
    else
      match verify(t.value)
      case None => Forbidden
      case Some(c) => Authenticated(c)
  }

  /** A `Bearer <token>` header passes the gate exactly when the token
      verifies, and with the claims it verifies to. */
  lemma AuthenticateBearer(token: string, verify: string -> Option<Claims>)
    requires token != "" && forall k :: 0 <= k < |token| ==> token[k] != ' '
    ensures verify(token).None? ==> Authenticate(Some("Bearer " + token), verify) == Forbidden
    ensures verify(token).Some? ==> Authenticate(Some("Bearer " + token), verify) == Authenticated(verify(token).value)
  {
    BearerTokenOfHeader("Bearer", token);
    assert "Bearer" + " " + token == "Bearer " + token;
  }

  /** HTTP status codes of the gate's two refusals. */
  function GateStatus(r: AuthResult): (code: int)
    requires !r.Authenticated?
    ensures r.Unauthorized? ==> code == 401
    ensures r.Forbidden? ==> code == 403
  {
    if r.Unauthorized? then 401 else 403
  }

  // ---------------------------------------------------------------------
  // Stored records and replies

  /** A user document: the user record and its password hash. Every reply
      carries the `User` alone, so no reply holds a password. */
  datatype StoredUser = StoredUser(user: User, password: PasswordHash)

  function UserEmail(su: StoredUser): string { su.user.email }

  predicate HasEmail(su: StoredUser, email: string) { su.user.email == email }

  predicate HasUserId(su: StoredUser, id: string) { su.user.id == id }

  /** `User.findOne({ email })`. */
  function UserByEmail(users: seq<StoredUser>, email: string): (r: Option<StoredUser>)
    ensures r.Some? ==> r.value in users && r.value.user.email == email
    ensures r.None? <==> forall su :: su in users ==> su.user.email != email
  {
    Find(users, su => HasEmail(su, email))
  }

  /** `User.findById(id)`. */
  function UserById(users: seq<StoredUser>, id: string): (r: Option<StoredUser>)
    ensures r.Some? ==> r.value in users && r.value.user.id == id
    ensures r.None? <==> forall su :: su in users ==> su.user.id != id
  {
    Find(users, su => HasUserId(su, id))
  }

  /** The reply of a handler: a status and a body, or a status and a
      message. */
  datatype Reply<T> = Ok(code: int, body: T) | Fail(code: int, message: string)

  const AccessDenied := "Access denied"
  const ServerError := "Server error"

  // ---------------------------------------------------------------------
  // Register and login

  /** The register body: any field may be missing; a role, when given, is
      one of the schema's three. */
  datatype RegisterBody = RegisterBody(
    name: Option<string>, email: Option<string>, password: Option<string>, role: Option<Role>,
    phone: Option<string>, address: Option<string>)

  /** A body the save accepts: `bcrypt.hash` needs a password, and the
      schema's `required` rejects a missing or empty name or email and a
      missing role. */
  predicate Complete(body: RegisterBody) {
    body.name.Some? && body.name.value != "" &&
    body.email.Some? && body.email.value != "" &&
    body.password.Some? && body.role.Some?
  }

  /** `findOne({ email })` finds a user: a missing email is sent as null,
      which no stored user's (required) email equals. */
  predicate EmailTaken(users: seq<StoredUser>, email: Option<string>) {
    email.Some? && exists su :: su in users && su.user.email == email.value
  }

  /** The token and user view of a successful register or login. */
  datatype AuthReply = AuthOk(code: int, claims: Claims, user: User) | AuthError(code: int, message: string)

  function ClaimsOf(u: User): (c: Claims)
    ensures c.userId == u.id && c.email == u.email && c.role == u.role
  {
    Claims(u.id, u.email, u.role)
  }

  /** The user document register saves: the body's fields, no route, and the
      password kept only as its hash. */
  function Registered(body: RegisterBody, id: string, now: int): (su: StoredUser)
    requires Complete(body)
    ensures su.user.id == id && su.user.email == body.email.value && su.user.name == body.name.value
    ensures su.user.role == body.role.value && su.user.phone == body.phone && su.user.address == body.address
    ensures su.user.routeId == None && su.user.createdAt == now
    ensures forall p :: Compare(p, su.password) <==> p == body.password.value
  {
    StoredUser(User(id, body.email.value, body.name.value, body.role.value, body.phone, body.address, None, now),
               Hash(body.password.value))
  }

  /** POST /api/auth/login: an unknown or missing email and a wrong
      password get the same 400 'Invalid credentials'; a known email without
      a password makes `bcrypt.compare` throw, hence 500; a right pair gets
      the user's claims and the user without its password. */
  function Login(users: seq<StoredUser>, email: Option<string>, password: Option<string>): (r: AuthReply)
    ensures !EmailTaken(users, email) ==> r == AuthError(400, "Invalid credentials")
    ensures EmailTaken(users, email) && password.None? ==> r == AuthError(500, ServerError)
    ensures r.AuthError? ==> r == AuthError(400, "Invalid credentials") || r == AuthError(500, ServerError)
    ensures r.AuthOk? ==> (r.code == 200 && r.claims == ClaimsOf(r.user) && email.Some? && password.Some? &&
      exists su :: su in users && su.user == r.user && su.user.email == email.value && Compare(password.value, su.password))
    ensures UniqueBy(users, UserEmail) && email.Some? && password.Some? ==>
      (r.AuthOk? <==> exists su :: su in users && su.user.email == email.value && Compare(password.value, su.password))
  {
    if email.None? then AuthError(400, "Invalid credentials")
    else
      var found := UserByEmail(users, email.value);
      if found.None? then AuthError(400, "Invalid credentials")
      else if password.None? then AuthError(500, ServerError)
      else if !Compare(password.value, found.value.password) then AuthError(400, "Invalid credentials")
      else
        assert found.value in users;
        AuthOk(200, ClaimsOf(found.value.user), found.value.user)
  }

  /** Two users of a list with distinct emails that share an email are the
      same user. */
  lemma SameEmailSameUser(users: seq<StoredUser>, a: StoredUser, b: StoredUser)
    requires UniqueBy(users, UserEmail) && a in users && b in users && a.user.email == b.user.email
    ensures a == b
  {
    var i :| 0 <= i < |users| && users[i] == a;
    var j :| 0 <= j < |users| && users[j] == b;
    assert UserEmail(users[i]) == UserEmail(users[j]);
  }

  /** With distinct emails, a login with the stored user's email and any
      other password fails. */
  lemma WrongPasswordRejected(users: seq<StoredUser>, su: StoredUser, password: string, stored: string)
    requires UniqueBy(users, UserEmail) && su in users && su.password == Hash(stored) && password != stored
    ensures Login(users, Some(su.user.email), Some(password)) == AuthError(400, "Invalid credentials")
  {
    var r := Login(users, Some(su.user.email), Some(password));
    if r.AuthOk? {
      var other :| other in users && other.user.email == su.user.email && Compare(password, other.password);
      SameEmailSameUser(users, su, other);
    }
  }

  /** Registering a new email and then logging in with its password yields
      the registered user. */
  lemma LoginAfterRegister(users: seq<StoredUser>, body: RegisterBody, id: string, now: int)
    requires Complete(body) && !EmailTaken(users, body.email)
    ensures Login(users + [Registered(body, id, now)], body.email, body.password) ==
      AuthOk(200, ClaimsOf(Registered(body, id, now).user), Registered(body, id, now).user)
  {
    var added := Registered(body, id, now);
    var all := users + [added];
    var email := body.email.value;
    forall j | 0 <= j < |users| ensures !HasEmail(all[j], email) {
      assert all[j] == users[j];
    }
    FindAt(all, su => HasEmail(su, email), |users|);
  }

  // ---------------------------------------------------------------------
  // Listing

  /** Which bookings a caller may list: a customer its own, a worker those
      assigned to it, an administrator all. */
  predicate VisibleBooking(c: Claims, b: Booking) {
    match c.role
    case Customer => b.customerId == c.userId
    case Worker => b.workerId == Some(c.userId)
    case Admin => true
  }

  predicate DateDescending(bs: seq<Booking>) {
    forall i, j :: 0 <= i < j < |bs| ==> bs[i].date >= bs[j].date
  }

  /** Inserts `b` into a list sorted by date, latest first. */
  function InsertByDate(b: Booking, bs: seq<Booking>): (r: seq<Booking>)
    requires DateDescending(bs)
    ensures DateDescending(r)
    ensures multiset(r) == multiset(bs) + multiset{b}
    ensures forall x :: x in r ==> x == b || x in bs
  {
    if bs == [] then [b]
    else
      HeadIsLatest(bs);
      if b.date >= bs[0].date then
        ConsDescending(b, bs);
        [b] + bs
      else
        var rest := InsertByDate(b, bs[1..]);
        assert bs == [bs[0]] + bs[1..];
        assert forall x :: x in rest ==> x.date <= bs[0].date;
        ConsDescending(bs[0], rest);
        [bs[0]] + rest
  }

  /** The head of a list sorted latest first is at least as late as every
      element. */
  lemma HeadIsLatest(bs: seq<Booking>)
    requires DateDescending(bs) && bs != []
    ensures forall x :: x in bs ==> x.date <= bs[0].date
    ensures forall x :: x in bs[1..] ==> x.date <= bs[0].date
  {
    forall x | x in bs[1..] ensures x.date <= bs[0].date {
      var k :| 0 <= k < |bs[1..]| && bs[1..][k] == x;
      assert bs[k + 1] == x;
    }
    assert bs == [bs[0]] + bs[1..];
  }

  lemma ConsDescending(b: Booking, bs: seq<Booking>)
    requires DateDescending(bs) && forall x :: x in bs ==> x.date <= b.date
    ensures DateDescending([b] + bs)
  {
    forall i, j | 0 <= i < j < |[b] + bs| ensures ([b] + bs)[i].date >= ([b] + bs)[j].date {
      if i == 0 {
        assert ([b] + bs)[j] == bs[j - 1];
        assert bs[j - 1] in bs;
      } else {
        assert ([b] + bs)[i] == bs[i - 1] && ([b] + bs)[j] == bs[j - 1];
      }
    }
  }

  /** `.sort({ date: -1 })`: the same bookings, latest first. */
  function SortByDateDesc(bs: seq<Booking>): (r: seq<Booking>)
    ensures DateDescending(r)
    ensures multiset(r) == multiset(bs)
  {
    if bs == [] then []
    else
      assert bs == [bs[0]] + bs[1..];
      InsertByDate(bs[0], SortByDateDesc(bs[1..]))
  }

  /** GET /api/bookings: the caller's visible bookings, each as often as
      stored, latest first. */
  function ListBookings(bs: seq<Booking>, c: Claims): (r: seq<Booking>)
    ensures DateDescending(r)
    ensures multiset(r) == multiset(Filter(bs, b => VisibleBooking(c, b)))
    ensures forall b :: b in r <==> b in bs && VisibleBooking(c, b)
    ensures c.role == Admin ==> multiset(r) == multiset(bs)
  {
    var shown := Filter(bs, b => VisibleBooking(c, b));
    var r := SortByDateDesc(shown);
    assert multiset(r) == multiset(shown);
    assert forall b :: b in r <==> b in shown by {
      forall b ensures b in r <==> b in shown {
        assert b in r <==> b in multiset(r);
        assert b in shown <==> b in multiset(shown);
      }
    }
    assert c.role == Admin ==> shown == bs;
    r
  }

  /** GET /api/subscriptions: a customer gets its own, in stored order; every
      other role gets all of them. */
  function ListSubscriptions(ss: seq<Subscription>, c: Claims): (r: seq<Subscription>)
    ensures c.role == Customer ==> (IsSubsequence(r, ss) &&
      forall s :: s in r <==> s in ss && s.customerId == c.userId)
    ensures c.role != Customer ==> r == ss
  {
    if c.role == Customer then Filter(ss, (s: Subscription) => s.customerId == c.userId) else ss
  }

  /** The stored documents `find({ role })` and `countDocuments({ role })`
      select, in stored order. */
  function OfRole(users: seq<StoredUser>, role: Role): seq<StoredUser> {
    Filter(users, (su: StoredUser) => su.user.role == role)
  }

  /** Every stored user has exactly one of the three roles, so the three
      counts add up to the number of users. */
  lemma {:induction false} RolePartition(users: seq<StoredUser>)
    ensures |OfRole(users, Customer)| + |OfRole(users, Worker)| + |OfRole(users, Admin)| == |users|
  {
    if users != [] {
      RolePartition(users[1..]);
    }
  }

  /** The stored users of one role, without their passwords, in order: one
      user for each selected document, position by position. */
  function UsersWithRole(users: seq<StoredUser>, role: Role): (r: seq<User>)
    ensures |r| == |OfRole(users, role)|
    ensures forall i :: 0 <= i < |r| ==> r[i] == OfRole(users, role)[i].user
    ensures forall u :: u in r ==> u.role == role && exists su :: su in users && su.user == u
    ensures forall su :: su in users && su.user.role == role ==> su.user in r
    ensures |r| <= |users|
  {
    if users == [] then []
    else
      var rest := UsersWithRole(users[1..], role);
      assert forall su :: su in users[1..] ==> su in users;
      assert forall su :: su in users ==> su == users[0] || su in users[1..];
      (if users[0].user.role == role then [users[0].user] else []) + rest
  }

  /** GET /api/customers and GET /api/workers: 403 for anyone but an
      administrator, otherwise the users of that role. */
  function ListUsers(users: seq<StoredUser>, c: Claims, role: Role): (r: Reply<seq<User>>)
    ensures c.role != Admin <==> r == Fail(403, AccessDenied)
    ensures r.Ok? ==> (r.code == 200 &&
      (forall u :: u in r.body ==> u.role == role) &&
      (forall su :: su in users && su.user.role == role ==> su.user in r.body))
    ensures r.Ok? ==> (|r.body| == |OfRole(users, role)| &&
      forall i :: 0 <= i < |r.body| ==> r.body[i] == OfRole(users, role)[i].user)
  {
    if c.role != Admin then Fail(403, AccessDenied) else Ok(200, UsersWithRole(users, role))
  }

  // ---------------------------------------------------------------------
  // Analytics

  datatype Overview = Overview(totalCustomers: nat, totalWorkers: nat, todayOrders: nat, monthlyRevenue: real)

  predicate DeliveredSince(b: Booking, monthStart: int) {
    b.status == Delivered && b.date >= monthStart
  }

  /** Quantity times the price of the first variety of that name; a booking
      whose variety is missing adds 0 (`$sum` skips the null product). */
  function LineRevenue(vs: seq<MilkVariety>, b: Booking): real {
    (b.quantity as real) * UnitPrice(vs, b.milkType)
  }

  /** The month's revenue: over the delivered bookings dated on or after the
      first of the month. */
  function Revenue(vs: seq<MilkVariety>, bs: seq<Booking>, monthStart: int): real {
    SumOf(Filter(bs, b => DeliveredSince(b, monthStart)), b => LineRevenue(vs, b))
  }

  /** One more booking adds its line to the revenue when it is delivered this
      month, and nothing otherwise. */
  lemma RevenueAppend(vs: seq<MilkVariety>, bs: seq<Booking>, b: Booking, monthStart: int)
    ensures Revenue(vs, bs + [b], monthStart) ==
      Revenue(vs, bs, monthStart) + (if DeliveredSince(b, monthStart) then LineRevenue(vs, b) else 0.0)
  {
    var before := Filter(bs, x => DeliveredSince(x, monthStart));
    var after := Filter(bs + [b], x => DeliveredSince(x, monthStart));
    FilterAppend(bs, b, x => DeliveredSince(x, monthStart));
    assert Revenue(vs, bs, monthStart) == SumOf(before, x => LineRevenue(vs, x));
    assert Revenue(vs, bs + [b], monthStart) == SumOf(after, x => LineRevenue(vs, x));
    if DeliveredSince(b, monthStart) {
      assert after == before + [b];
      SumOfAppend(before, b, x => LineRevenue(vs, x));
    } else {
      assert after == before;
    }
  }

  lemma {:induction false} SumOfNonNegative<T>(s: seq<T>, f: T -> real)
    requires forall x :: x in s ==> f(x) >= 0.0
    ensures SumOf(s, f) >= 0.0
    decreases |s|
  {
    if s != [] {
      assert forall x :: x in s[1..] ==> x in s;
      SumOfNonNegative(s[1..], f);
    }
  }

  /** With no negative price and no negative quantity the revenue is not
      negative. */
  lemma RevenueNonNegative(vs: seq<MilkVariety>, bs: seq<Booking>, monthStart: int)
    requires forall v :: v in vs ==> v.pricePerLiter >= 0.0
    requires forall b :: b in bs ==> b.quantity >= 0
    ensures Revenue(vs, bs, monthStart) >= 0.0
  {
    var shown := Filter(bs, b => DeliveredSince(b, monthStart));
    forall b | b in shown ensures LineRevenue(vs, b) >= 0.0 {
      LineRevenueNonNegative(vs, b);
    }
    SumOfNonNegative(shown, b => LineRevenue(vs, b));
  }

  lemma LineRevenueNonNegative(vs: seq<MilkVariety>, b: Booking)
    requires forall v :: v in vs ==> v.pricePerLiter >= 0.0
    requires b.quantity >= 0
    ensures LineRevenue(vs, b) >= 0.0
  {
    var u := UnitPrice(vs, b.milkType);
    assert u >= 0.0;
    var q := b.quantity as real;
    assert q >= 0.0;
    assert LineRevenue(vs, b) == q * u;
  }

  /** GET /api/analytics/overview, with today and the first day of the
      current month as parameters; the role totals are `countDocuments`. */
  function AnalyticsOverview(users: seq<StoredUser>, bs: seq<Booking>, vs: seq<MilkVariety>,
                             c: Claims, today: int, monthStart: int): (r: Reply<Overview>)
    ensures c.role != Admin <==> r == Fail(403, AccessDenied)
    ensures r.Ok? ==> r.code == 200
    ensures r.Ok? ==> r.body.totalCustomers == |OfRole(users, Customer)|
    ensures r.Ok? ==> r.body.totalWorkers == |OfRole(users, Worker)|
    ensures r.Ok? ==> r.body.totalCustomers + r.body.totalWorkers <= |users|
    ensures r.Ok? ==> r.body.todayOrders == |OnDay(bs, today)| && r.body.todayOrders <= |bs|
    ensures r.Ok? ==> r.body.monthlyRevenue == Revenue(vs, bs, monthStart)
  {
    if c.role != Admin then Fail(403, AccessDenied)
    else
      RolePartition(users);
      Ok(200, Overview(|OfRole(users, Customer)|, |OfRole(users, Worker)|,
                       |OnDay(bs, today)|, Revenue(vs, bs, monthStart)))
  }

  // ---------------------------------------------------------------------
  // Documents built from request bodies

  /** POST /api/bookings: the booking built for the caller. The owner comes
      from the token and the name, address and route from the stored user;
      absent schema-required fields make the save fail. */
  function BookingFromBody(c: Claims, u: User, body: BookingRequest, id: string, now: int): (r: Option<Booking>)
    ensures r.Some? <==> body.date.Some? && body.milkType.Some? && body.milkType.value != "" && body.quantity.Some?
    ensures r.Some? ==> (r.value.id == id && r.value.customerId == c.userId &&
      r.value.customerName == u.name && r.value.customerAddress == u.address &&
      r.value.routeId == OrElse(u.routeId, "default") &&
      r.value.status == Pending && r.value.workerId == None &&
      r.value.isExtra == (body.isExtra == Some(true)) &&
      r.value.date == body.date.value && r.value.milkType == body.milkType.value &&
      r.value.quantity == body.quantity.value && r.value.createdAt == now)
  {
    if body.date.None? || body.milkType.None? || body.milkType.value == "" || body.quantity.None? then None
    else
      Some(Booking(id, c.userId, u.name, u.address, body.date.value, body.milkType.value,
                   body.quantity.value, Pick(body.isExtra, false), Pending,
                   OrElse(u.routeId, "default"), None, now))
  }

  /** The body of POST /api/subscriptions, any `customerId` in it included. */
  datatype SubscriptionBody = SubscriptionBody(
    customerId: Option<string>,
    milkType: Option<string>,
    quantity: Option<int>,
    startDate: Option<int>,
    endDate: Option<int>,
    isActive: Option<bool>,
    pausedDates: Option<seq<int>>)

  /** `new Subscription({ ...req.body, customerId: req.user.userId })`. */
  function SubscriptionFromBody(c: Claims, body: SubscriptionBody, id: string): (r: Option<Subscription>)
    ensures r.Some? <==> (body.milkType.Some? && body.milkType.value != "" && body.quantity.Some? &&
      body.startDate.Some? && body.endDate.Some?)
    ensures r.Some? ==> (r.value.id == id && r.value.customerId == c.userId &&
      r.value.milkType == body.milkType.value && r.value.quantity == body.quantity.value &&
      r.value.startDate == body.startDate.value && r.value.endDate == body.endDate.value &&
      r.value.isActive == Pick(body.isActive, true) && r.value.pausedDates == Pick(body.pausedDates, []))
  {
    if body.milkType.None? || body.milkType.value == "" || body.quantity.None? || body.startDate.None? ||
       body.endDate.None? then None
    else
      Some(Subscription(id, c.userId, body.milkType.value, body.quantity.value, body.startDate.value,
                        body.endDate.value, Pick(body.isActive, true), Pick(body.pausedDates, [])))
  }

  /** The `customerId` a body carries has no effect: the token's user owns
      the subscription. */
  lemma SubscriptionOwnerFromToken(c: Claims, body: SubscriptionBody, id: string, forged: string)
    ensures SubscriptionFromBody(c, body.(customerId := Some(forged)), id) == SubscriptionFromBody(c, body, id)
    ensures SubscriptionFromBody(c, body, id).Some? ==> SubscriptionFromBody(c, body, id).value.customerId == c.userId
  {
  }

  /** The body of POST /api/milk-varieties. */
  datatype VarietyBody = VarietyBody(
    name: Option<string>, color: Option<string>, pricePerLiter: Option<real>,
    stock: Option<int>, description: Option<string>)

  function VarietyFromBody(body: VarietyBody, id: string): (r: Option<MilkVariety>)
    ensures r.Some? <==> (body.name.Some? && body.name.value != "" && body.color.Some? && body.color.value != "" &&
      body.pricePerLiter.Some?)
    ensures r.Some? ==> (r.value.id == id && r.value.name == body.name.value &&
      r.value.color == body.color.value && r.value.pricePerLiter == body.pricePerLiter.value &&
      r.value.stock == Pick(body.stock, 0) && r.value.description == Pick(body.description, ""))
  {
    if body.name.None? || body.name.value == "" || body.color.None? || body.color.value == "" ||
       body.pricePerLiter.None? then None
    else Some(MilkVariety(id, body.name.value, body.color.value, body.pricePerLiter.value,
                          Pick(body.stock, 0), Pick(body.description, "")))
  }

  /** `Booking.findById(id)`: the position of the first booking with that
      id, or -1. */
  function IndexOfBooking(bs: seq<Booking>, id: string): (k: int)
    ensures -1 <= k < |bs|
    ensures k >= 0 ==> bs[k].id == id && forall j :: 0 <= j < k ==> bs[j].id != id
    ensures k < 0 <==> forall b :: b in bs ==> b.id != id
  {
    if bs == [] then -1
    else if bs[0].id == id then 0
    else
      var k := IndexOfBooking(bs[1..], id);
      assert forall b :: b in bs ==> b == bs[0] || b in bs[1..];
      if k < 0 then -1 else k + 1
  }

  /** An update keeps every booking's id, so distinct ids stay distinct. */
  lemma UpdateKeepsIds(bs: seq<Booking>, id: string, p: BookingPatch)
    requires UniqueBy(bs, BookingId)
    ensures UniqueBy(UpdateById(bs, id, p), BookingId)
  {
    var r := UpdateById(bs, id, p);
    forall i, j | 0 <= i < j < |r| ensures BookingId(r[i]) != BookingId(r[j]) {
      assert BookingId(r[i]) == BookingId(bs[i]) && BookingId(r[j]) == BookingId(bs[j]);
    }
  }

  /** The update checks neither status nor owner: a delivered booking goes
      back to pending when a body says so. */
  lemma UpdateReopensDelivered(bs: seq<Booking>, k: nat)
    requires k < |bs| && bs[k].status == Delivered
    ensures UpdateById(bs, bs[k].id, StatusPatch(Pending))[k].status == Pending
  {
  }

  // ---------------------------------------------------------------------
  // The /api/init seed

  const AdminEmail := "admin@milk.com"

  /** The server's six varieties: the standard catalogue with stock levels
      150, 100, 200, 75, 100 and 80. */
  function ServerVarieties(ids: seq<string>): (vs: seq<MilkVariety>)
    requires |ids| == 6
    ensures |vs| == 6 && forall k :: 0 <= k < 6 ==> vs[k].name == StandardNames[k] && vs[k].id == ids[k]
    ensures vs[0].stock == 150 && vs[1].stock == 100 && vs[2].stock == 200
    ensures vs[3].stock == 75 && vs[4].stock == 100 && vs[5].stock == 80
  {
    StandardVarieties(ids, [150, 100, 200, 75, 100, 80])
  }

  /** The default administrator, created only while no user has its email. */
  function SeedAdmin(users: seq<StoredUser>, adminId: string, now: int): (r: seq<StoredUser>)
    ensures (exists su :: su in users && su.user.email == AdminEmail) ==> r == users
    ensures (forall su :: su in users ==> su.user.email != AdminEmail) ==>
      r == users + [StoredUser(User(adminId, AdminEmail, "Admin User", Admin, None, None, None, now), Hash("admin123"))]
    ensures exists su :: su in r && su.user.email == AdminEmail
  {
    if UserByEmail(users, AdminEmail).Some? then users
    else
      var admin := StoredUser(User(adminId, AdminEmail, "Admin User", Admin, None, None, None, now), Hash("admin123"));
      assert admin in users + [admin];
      users + [admin]
  }

  /** The varieties, inserted only into an empty collection. */
  function SeedVarieties(vs: seq<MilkVariety>, ids: seq<string>): (r: seq<MilkVariety>)
    requires |ids| == 6
    ensures vs == [] ==> r == ServerVarieties(ids)
    ensures vs != [] ==> r == vs
    ensures r != []
  {
    if |vs| == 0 then ServerVarieties(ids) else vs
  }

  /** A second seeding, with any fresh ids, adds nothing. */
  lemma SeedIdempotent(users: seq<StoredUser>, vs: seq<MilkVariety>, adminId: string, adminId2: string,
                       ids: seq<string>, ids2: seq<string>, now: int, now2: int)
    requires |ids| == 6 && |ids2| == 6
    ensures SeedAdmin(SeedAdmin(users, adminId, now), adminId2, now2) == SeedAdmin(users, adminId, now)
    ensures SeedVarieties(SeedVarieties(vs, ids), ids2) == SeedVarieties(vs, ids)
  {
  }

  // ---------------------------------------------------------------------
  // The store

  class Store {
    var users: seq<StoredUser>
    var varieties: seq<MilkVariety>
    var bookings: seq<Booking>
    var subscriptions: seq<Subscription>
    var routes: seq<Route>

    /** The unique email index, and distinct document ids. */
    predicate Valid()
      reads this
    {
      UniqueBy(users, UserEmail) && UniqueBy(bookings, BookingId) && UniqueBy(subscriptions, SubscriptionId)
    }

    constructor()
      ensures users == [] && varieties == [] && bookings == [] && subscriptions == [] && routes == []
      ensures Valid()
    {
      users := [];
      varieties := [];
      bookings := [];
      subscriptions := [];
      routes := [];
    }

    /** POST /api/auth/register: a taken email is 400 'User already exists'
        and stores nothing; a body the hash or the save rejects is 500 and
        stores nothing; otherwise one user is added and 201 returns its
        claims and the user without its password. */
    method Register(body: RegisterBody, freshId: string, now: int) returns (r: AuthReply)
      modifies this
      ensures EmailTaken(old(users), body.email) ==>
        r == AuthError(400, "User already exists") && users == old(users)
      ensures !EmailTaken(old(users), body.email) && !Complete(body) ==>
        r == AuthError(500, ServerError) && users == old(users)
      ensures !EmailTaken(old(users), body.email) && Complete(body) ==>
        users == old(users) + [Registered(body, freshId, now)] &&
        r == AuthOk(201, ClaimsOf(Registered(body, freshId, now).user), Registered(body, freshId, now).user)
      ensures varieties == old(varieties) && bookings == old(bookings)
      ensures subscriptions == old(subscriptions) && routes == old(routes)
      ensures old(Valid()) ==> Valid()
    {
      if body.email.Some? && UserByEmail(users, body.email.value).Some? {
        return AuthError(400, "User already exists");
      }
      if !Complete(body) {
        return AuthError(500, ServerError);
      }
      var added := Registered(body, freshId, now);
      if Valid() {
        AppendUnique(users, added, UserEmail);
      }
      users := users + [added];
      r := AuthOk(201, ClaimsOf(added.user), added.user);
    }

    /** POST /api/bookings for the verified caller `c`. */
    method CreateBooking(c: Claims, body: BookingRequest, freshId: string, now: int) returns (r: Reply<Booking>)
      modifies this
      ensures UserById(old(users), c.userId).None? ==> r == Fail(500, ServerError) && bookings == old(bookings)
      ensures UserById(old(users), c.userId).Some? ==>
        var made := BookingFromBody(c, UserById(old(users), c.userId).value.user, body, freshId, now);
        (made.None? ==> r == Fail(500, ServerError) && bookings == old(bookings)) &&
        (made.Some? ==> r == Ok(201, made.value) && bookings == old(bookings) + [made.value])
      ensures users == old(users) && varieties == old(varieties)
      ensures subscriptions == old(subscriptions) && routes == old(routes)
      ensures old(Valid()) && freshId !in Keys(old(bookings), BookingId) ==> Valid()
    {
      var found := UserById(users, c.userId);
      if found.None? {
        return Fail(500, ServerError);
      }
      var made := BookingFromBody(c, found.value.user, body, freshId, now);
      if made.None? {
        return Fail(500, ServerError);
      }
      if Valid() && freshId !in Keys(bookings, BookingId) {
        AppendUnique(bookings, made.value, BookingId);
      }
      bookings := bookings + [made.value];
      r := Ok(201, made.value);
    }

    /** PUT /api/bookings/:id: 404 'Booking not found' for an unknown id;
        otherwise the body overwrites the booking and 200 returns it. */
    method UpdateBooking(id: string, patch: BookingPatch) returns (r: Reply<Booking>)
      modifies this
      ensures (forall b :: b in old(bookings) ==> b.id != id) ==>
        r == Fail(404, "Booking not found") && bookings == old(bookings)
      ensures IndexOfBooking(old(bookings), id) >= 0 ==>
        (bookings == UpdateById(old(bookings), id, patch) &&
         r == Ok(200, ApplyPatch(old(bookings)[IndexOfBooking(old(bookings), id)], patch)))
      ensures users == old(users) && varieties == old(varieties)
      ensures subscriptions == old(subscriptions) && routes == old(routes)
      ensures old(Valid()) ==> Valid()
    {
      var k := IndexOfBooking(bookings, id);
      if k < 0 {
        return Fail(404, "Booking not found");
      }
      if Valid() {
        UpdateKeepsIds(bookings, id, patch);
      }
      bookings := UpdateById(bookings, id, patch);
      r := Ok(200, bookings[k]);
    }

    /** POST /api/subscriptions for the verified caller `c`. */
    method CreateSubscription(c: Claims, body: SubscriptionBody, freshId: string) returns (r: Reply<Subscription>)
      modifies this
      ensures SubscriptionFromBody(c, body, freshId).None? ==>
        r == Fail(500, ServerError) && subscriptions == old(subscriptions)
      ensures SubscriptionFromBody(c, body, freshId).Some? ==>
        r == Ok(201, SubscriptionFromBody(c, body, freshId).value) &&
        subscriptions == old(subscriptions) + [SubscriptionFromBody(c, body, freshId).value]
      ensures users == old(users) && varieties == old(varieties)
      ensures bookings == old(bookings) && routes == old(routes)
      ensures old(Valid()) && freshId !in Keys(old(subscriptions), SubscriptionId) ==> Valid()
    {
      var made := SubscriptionFromBody(c, body, freshId);
      if made.None? {
        return Fail(500, ServerError);
      }
      if Valid() && freshId !in Keys(subscriptions, SubscriptionId) {
        AppendUnique(subscriptions, made.value, SubscriptionId);
      }
      subscriptions := subscriptions + [made.value];
      r := Ok(201, made.value);
    }

    /** POST /api/milk-varieties: 403 'Access denied' and nothing stored
        unless the caller is an administrator. */
    method CreateVariety(c: Claims, body: VarietyBody, freshId: string) returns (r: Reply<MilkVariety>)
      modifies this
      ensures c.role != Admin ==> r == Fail(403, AccessDenied) && varieties == old(varieties)
      ensures c.role == Admin && VarietyFromBody(body, freshId).None? ==>
        r == Fail(500, ServerError) && varieties == old(varieties)
      ensures c.role == Admin && VarietyFromBody(body, freshId).Some? ==>
        r == Ok(201, VarietyFromBody(body, freshId).value) &&
        varieties == old(varieties) + [VarietyFromBody(body, freshId).value]
      ensures users == old(users) && bookings == old(bookings)
      ensures subscriptions == old(subscriptions) && routes == old(routes)
    {
      if c.role != Admin {
        return Fail(403, AccessDenied);
      }
      var made := VarietyFromBody(body, freshId);
      if made.None? {
        return Fail(500, ServerError);
      }
      varieties := varieties + [made.value];
      r := Ok(201, made.value);
    }

    /** POST /api/init: the administrator if its email is absent, the six
        varieties if there are none. */
    method Init(adminId: string, varietyIds: seq<string>, now: int) returns (r: Reply<string>)
      requires |varietyIds| == 6
      modifies this
      ensures users == SeedAdmin(old(users), adminId, now)
      ensures varieties == SeedVarieties(old(varieties), varietyIds)
      ensures r == Ok(200, "Database initialized successfully")
      ensures bookings == old(bookings) && subscriptions == old(subscriptions) && routes == old(routes)
      ensures old(Valid()) ==> Valid()
    {
      var seeded := SeedAdmin(users, adminId, now);
      if Valid() && seeded != users {
        AppendUnique(users, seeded[|users|], UserEmail);
        assert seeded == users + [seeded[|users|]];
      }
      users := seeded;
      varieties := SeedVarieties(varieties, varietyIds);
      r := Ok(200, "Database initialized successfully");
    }
  }
}
