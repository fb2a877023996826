# Milk delivery: a Dafny model of the booking, delivery and administration core

The system delivers milk to households. Customers book milk on a calendar day
by day and hold monthly subscriptions. Workers walk a route and mark each of
the day's deliveries as delivered or missed. Administrators manage the
inventory of milk varieties, the customers and the workers. The code exists
twice, as a React front end and as an Angular front end, and both talk to an
Express/Mongo back end.

This project models that core:

- **Records, Catalog, Dates, Deliveries, Directory.** The shared records
  (users, varieties, bookings, subscriptions, routes). The price and colour
  lookups by variety name. The civil-date arithmetic behind `new Date(y, m, d)`.
  The per-day and per-status views of bookings. Searching and editing the user
  directories.
- **AuthContext, LoginForm, RoleGuard.** The mock authentication context, the
  login form's validation and submit handler, and the Angular role guard.
- **CalendarBooking, SubscriptionManager, InventoryManagement,
  CustomerManagement, WorkerManagement, WorkerDashboard.** The React pages.
  Each is a class whose fields are the component's state hooks and whose
  methods are its handlers.
- **CalendarBookingComponent, BookingModalComponent,
  SubscriptionManagerComponent, CustomerManagementComponent,
  WorkerManagementComponent, WorkerDashboardComponent.** The Angular
  components. Their HTTP calls are modelled as the request they send and the
  response they receive as an input.
- **Backend.** The Express handlers:
  - bearer-token authentication;
  - registration and login;
  - the role-filtered listings;
  - the analytics overview;
  - booking, subscription and variety creation;
  - the booking patch;
  - the `POST /api/init` seed.

  Read-only handlers are functions. Handlers that write to the database are
  methods of a `Store` class whose fields are the collections.

Password hashing is modelled as an injective hash with a `Compare` that holds
exactly for the hashed secret. JWT verification is a function the caller
supplies. The clock, `Math.random()` ids, `confirm()` answers and HTTP
responses are parameters. Calendar days are day numbers counted from
1970-01-01, and weekdays are computed from them.

The back end as written has no `PUT`/`DELETE` route for subscriptions and no
`DELETE` route for bookings. The model follows the code, so these requests
are only modelled on the client side, as the request the client sends.

## Model

| member | source | states |
|---|---|---|
| AuthContext.FindAccount | src/context/AuthContext.tsx:56-62 | the result is a mock account with exactly this email and password, and it is absent iff no such account exists |
| AuthContext.AccountFoundIsUnique | src/context/AuthContext.tsx:56-62 | any matching mock account is the one `find` returns (the demo accounts have distinct emails) |
| AuthContext.SessionUser | src/context/AuthContext.tsx:64-71 | the signed-in user carries the account's email, name and role, plus the fresh id |
| AuthContext.MockAdmin | src/context/AuthContext.tsx:38-44 | a stored token always restores the admin user `admin@milkdelivery.com` |
| AuthContext.Session.constructor | src/context/AuthContext.tsx:22-23 | the session starts with no user, loading, and the token read from storage |
| AuthContext.Session.FetchUserFromToken | src/context/AuthContext.tsx:35-51 | the user becomes the mock admin, loading ends, and the token is kept |
| AuthContext.Session.Startup | src/context/AuthContext.tsx:25-33 | loading ends; the user is restored iff a token is stored, and is left alone otherwise |
| AuthContext.Session.Login | src/context/AuthContext.tsx:53-81 | succeeds iff some demo account matches both fields; on success it stores the user and `mock-token`, on failure nothing changes |
| AuthContext.Session.Logout | src/context/AuthContext.tsx:83-86 | both the user and the stored token are cleared |
| AuthContext.DemoLogins | src/context/AuthContext.tsx:56-60 | each demo credential pair signs in with its own role (admin, worker, customer) |
| AuthContext.WrongPasswordFails | src/context/AuthContext.tsx:62-80 | a demo email with any other password is refused |
| LoginForm.EmailAcceptedIff | src/components/Auth/LoginForm.tsx:53-59 | the direct email check accepts exactly the strings the regular expression matches |
| LoginForm.AcceptedShape | src/components/Auth/LoginForm.tsx:56 | an accepted email has exactly one '@' and ends in two letters |
| LoginForm.DemoEmailsAccepted | src/components/Auth/LoginForm.tsx:27-31 | the three demo addresses pass the email rule |
| LoginForm.EmailError | src/components/Auth/LoginForm.tsx:53-59 | "Email is required" for empty input, "Invalid email address" for a mismatch, and no message iff the email is non-empty and matches |
| LoginForm.PasswordError | src/components/Auth/LoginForm.tsx:75 | a message iff the password is empty |
| LoginForm.Form.constructor | src/components/Auth/LoginForm.tsx:14 | not loading, no field errors |
| LoginForm.Form.Submit | src/components/Auth/LoginForm.tsx:17-25 | invalid fields block the login and leave the session alone; otherwise it succeeds iff a demo account matches, a failure sets "Invalid credentials", loading ends |
| RoleGuard.CanActivate | src/app/core/guards/role.guard.ts:14-24 | navigation is allowed iff a user is signed in with exactly the route's role, and every refusal redirects to `/login` |
| Backend.Hash | src/backend/server.js:122 | the stored hash accepts exactly the password it was made from |
| Backend.BearerToken | src/backend/server.js:97 | a token is found iff the header has a space, and the token holds no space |
| Backend.BearerTokenOfHeader | src/backend/server.js:97 | `"<scheme> <token>"` yields the token back |
| Backend.TokenOf | src/backend/server.js:96-100 | a missing header, a header without a space, and an empty token all count as no token |
| Backend.Authenticate | src/backend/server.js:95-108 | 401 iff there is no token, 403 iff the token does not verify, else the verified claims |
| Backend.AuthenticateBearer | src/backend/server.js:95-108 | `Bearer <token>` authenticates exactly as the token's verification says |
| Backend.GateStatus | src/backend/server.js:100-105 | a missing token gives 401 and a bad token gives 403 |
| Backend.UserByEmail | src/backend/server.js:116 | finds a user with that email, and none iff no user has it |
| Backend.UserById | src/backend/server.js:221 | finds a user with that id, and none iff no user has it |
| Backend.ClaimsOf | src/backend/server.js:137-141 | the token payload carries the user's id, email and role |
| Backend.Registered | src/backend/server.js:121-134 | for a body with a non-empty name and email, a password and a role, the stored user has the body's fields, no route, the creation time, and a hash that accepts exactly the body's password |
| Backend.Login | src/backend/server.js:159-197 | an unknown or missing email and a wrong password give the same 400 "Invalid credentials"; a known email without a password gives 500; under unique emails, success iff a stored user has the email and the password |
| Backend.SameEmailSameUser | src/backend/server.js:116-119 | with unique emails, two users with the same email are the same user |
| Backend.WrongPasswordRejected | src/backend/server.js:169-173 | a stored user's email with any other password is refused with 400 |
| Backend.LoginAfterRegister | src/backend/server.js:111-197 | a freshly registered user can log in with the registered password and receives their own claims |
| Backend.InsertByDate | src/backend/server.js:210 | inserting into a newest-first list keeps it newest-first and adds exactly the one booking |
| Backend.SortByDateDesc | src/backend/server.js:210 | the result is newest-first and a permutation of the input |
| Backend.ListBookings | src/backend/server.js:200-215 | newest-first; holds exactly the visible bookings (a customer's own, a worker's assigned ones, all of them for an admin) |
| Backend.ListSubscriptions | src/backend/server.js:260-273 | a customer sees an order-preserving sublist of exactly their own subscriptions; every other role sees all |
| Backend.RolePartition | src/backend/server.js:358-359 | the stored users of the three roles together are all the stored users, so the role counts add up to the user count |
| Backend.UsersWithRole | src/backend/server.js:320-334 | position by position, the users of the documents `find({ role })` selects, in stored order and as many as there are; so exactly the users of that role |
| Backend.ListUsers | src/backend/server.js:314-339 | 403 "Access denied" iff the caller is not an admin; otherwise 200 with the users of the role, in stored order, one per stored document of that role |
| Backend.RevenueAppend | src/backend/server.js:367-400 | a booking adds its line revenue iff it is delivered and dated on or after the first of the month, and nothing otherwise |
| Backend.SumOfNonNegative | src/backend/server.js:384-398 | a sum of non-negative terms is non-negative |
| Backend.RevenueNonNegative | src/backend/server.js:367-400 | with non-negative prices and quantities, the monthly revenue is non-negative |
| Backend.AnalyticsOverview | src/backend/server.js:352-405 | 403 iff the caller is not an admin; the totals are the numbers of stored customers and workers (together never more than all users) and of the day's bookings (never more than all bookings); the revenue is that of the bookings delivered and dated on or after the first of the month |
| Backend.BookingFromBody | src/backend/server.js:217-239 | a booking is made iff date, a non-empty milk type and quantity are given; it belongs to the token's user, carries their name and address, is pending and unassigned, and defaults route and extra |
| Backend.SubscriptionFromBody | src/backend/server.js:275-287 | made iff a non-empty milk type, quantity, start and end are given; the owner is the token's user, and it defaults to active with no paused dates |
| Backend.SubscriptionOwnerFromToken | src/backend/server.js:279-282 | a `customerId` in the body is ignored: the owner is always the token's user |
| Backend.VarietyFromBody | src/backend/server.js:299-311 | made iff a non-empty name, a non-empty colour and a price are given; stock defaults to 0 |
| Backend.IndexOfBooking | src/backend/server.js:243-247 | the first index with the id, or -1 iff no booking has it |
| Backend.UpdateKeepsIds | src/backend/server.js:241-257 | a patch keeps booking ids unique |
| Backend.UpdateReopensDelivered | src/backend/server.js:241-257 | the update has no status-transition check, so a delivered booking can be set back to pending |
| Backend.ServerVarieties | src/backend/server.js:424-436 | six standard varieties in order, with stocks 150, 100, 200, 75, 100 and 80 |
| Backend.SeedAdmin | src/backend/server.js:411-421 | adds the admin only when no user has the admin email; afterwards such a user exists |
| Backend.SeedVarieties | src/backend/server.js:424-436 | seeds only an empty collection; the result is never empty |
| Backend.SeedIdempotent | src/backend/server.js:408-442 | seeding twice is seeding once |
| Backend.Store.constructor | src/backend/server.js:26-92 | every collection starts empty and the store is valid |
| Backend.Store.Register | src/backend/server.js:111-157 | a taken email gives 400 "User already exists" and changes nothing; a missing password, role, name or email, or an empty name or email, gives 500 and changes nothing; otherwise one user is appended and 201 is returned with their claims; emails stay unique |
| Backend.Store.CreateBooking | src/backend/server.js:217-239 | an unknown caller, a missing field or an empty milk type gives 500 and no change; otherwise exactly the built booking is appended and returned with 201 |
| Backend.Store.UpdateBooking | src/backend/server.js:241-257 | an unknown id gives 404 "Booking not found" and no change; otherwise every booking with the id is patched and the patched first one is returned |
| Backend.Store.CreateSubscription | src/backend/server.js:275-287 | a missing field or an empty milk type gives 500; otherwise the built subscription is appended and returned with 201 |
| Backend.Store.CreateVariety | src/backend/server.js:299-311 | a non-admin gets 403 and no change; a missing field or an empty name or colour gives 500; otherwise the variety is appended with 201 |
| Backend.Store.Init | src/backend/server.js:408-442 | seeds the admin and the varieties as the seed functions say and answers "Database initialized successfully" |
| Catalog.Standard | src/components/Customer/CalendarBooking.tsx:13-20 | the k-th standard variety has the k-th name, colour and price |
| Catalog.StandardVarieties | src/components/Customer/SubscriptionManager.tsx:21-28 | the six standard varieties, in order |
| Catalog.StandardNamesDistinct | src/components/Customer/CalendarBooking.tsx:13-20 | the standard names are pairwise distinct |
| Catalog.FindVariety | src/components/Customer/CalendarBooking.tsx:30-32 | the result is a listed variety with that name, and absent iff no listed variety has it |
| Catalog.UnitPrice | src/components/Customer/CalendarBooking.tsx:176-177 | an unlisted name costs 0; any other price is the price of a listed variety of that name |
| Catalog.PricesOfListed | src/components/Customer/SubscriptionManager.tsx:64 | a booking, a month and a plan cost the first matching variety's price times the quantity, times 30 or the duration |
| Catalog.StandardUnitPrice | src/components/Customer/SubscriptionManager.tsx:21-31 | among the standard varieties, each name costs its own price and an unknown name costs 0 |
| Catalog.PricesOfUnlisted | src/components/Customer/CalendarBooking.tsx:176-177 | every total for an unlisted name is 0 |
| Catalog.PlanIsDailyTotalTimesDuration | src/components/Customer/SubscriptionManager.tsx:168 | a plan's total is the daily total times the duration, and a 30-day plan costs the monthly price |
| Catalog.ExampleBookingTotal | src/components/Customer/SubscriptionManager.tsx:64 | 2 L of Aavin Green cost 56 and a month of 1 L of buttermilk costs 450 |
| Catalog.VarietyColor | src/app/features/customer/calendar-booking/calendar-booking.component.ts:169-172 | an unlisted name is grey (`bg-gray-300`); any other colour is a listed variety's |
| Catalog.MilkColorByName | src/components/Worker/WorkerDashboard.tsx:59-69 | each standard name gets its colour, and the fallback `bg-gray-500` is used iff the name is not standard |
| Catalog.ColorMapsAgree | src/app/features/worker/worker-dashboard/worker-dashboard.component.ts:204-214 | the fixed colour map agrees with the lookup in the standard variety list |
| Dates.MonthLength | src/app/features/customer/calendar-booking/calendar-booking.component.ts:102 | the first of the next month is the month's first day plus its length |
| Dates.LastDayOfMonth | src/app/features/customer/calendar-booking/calendar-booking.component.ts:102 | day 0 of the next month is the month's last day |
| CalendarBookingComponent.PreviousFirstOfMonth | src/app/features/customer/calendar-booking/calendar-booking.component.ts:179 | the 1st of the previous month plus that month's length is the 1st of the current month |
| Dates.PreviousMonthStart | src/app/features/customer/calendar-booking/calendar-booking.component.ts:179 | month -1 rolls over to the previous year's December, and that month ends the day before this one starts |
| Text.DecimalRoundTrip | src/app/features/worker/worker-dashboard/worker-dashboard.component.ts:192-202 | a count written as a decimal string reads back as the same count |
| Deliveries.OnDay | src/components/Worker/WorkerDashboard.tsx:48-50 | an order-preserving sublist of exactly the bookings on that day |
| Deliveries.BookingOn | src/components/Customer/CalendarBooking.tsx:26-28 | the first booking on that day, or none iff there is none |
| Deliveries.BookingOnIsTheOne | src/components/Customer/CalendarBooking.tsx:26-28 | with one booking per day, the lookup returns that booking |
| Deliveries.StatusPartition | src/components/Worker/WorkerDashboard.tsx:52-57 | the four status counts add up to the number of bookings |
| Deliveries.CountStatusAppend | src/components/Worker/WorkerDashboard.tsx:52-57 | a status count starts at 0 and grows by one exactly for each booking with that status |
| Deliveries.StatsOf | src/components/Worker/WorkerDashboard.tsx:52-57 | the total is the day's count; delivered, pending and missed are the counts of bookings with those statuses, and add up to the total minus the cancelled ones |
| Deliveries.StatsWithoutCancelled | src/components/Worker/WorkerDashboard.tsx:52-57 | without cancellations, the three cards add up to the total |
| Deliveries.OutcomeStatus | src/components/Worker/WorkerDashboard.tsx:180-197 | a worker's action results only in delivered or missed, both terminal |
| Deliveries.WithStatus | src/components/Worker/WorkerDashboard.tsx:38-46 | the bookings with the id get the status; every other booking is unchanged |
| Deliveries.WithStatusIdempotent | src/components/Worker/WorkerDashboard.tsx:38-46 | marking twice is marking once |
| Deliveries.WithStatusKeepsIds | src/components/Worker/WorkerDashboard.tsx:38-46 | marking keeps booking ids unique |
| Deliveries.OfferedActionKeepsTerminal | src/components/Worker/WorkerDashboard.tsx:180-197 | an action the page offers (only on pending rows) never changes a delivered or missed booking |
| Deliveries.Replay | src/components/Worker/WorkerDashboard.tsx:38-46 | a run of actions keeps the number of bookings |
| Deliveries.TerminalIsFinal | src/components/Worker/WorkerDashboard.tsx:180-197 | through the page's buttons, a delivered or missed booking stays as it is |
| Deliveries.RemoveBooking | src/components/Customer/CalendarBooking.tsx:69-71 | an order-preserving sublist without the id that keeps every other booking |
| Deliveries.StatusPatch | src/app/features/worker/worker-dashboard/worker-dashboard.component.ts:225-228 | the status patch sets the status and nothing else |
| Deliveries.ApplyPatch | src/backend/server.js:241-247 | each of the eleven schema fields the body gives, the creation time included, replaces the stored one; absent fields keep theirs; the id never changes |
| Deliveries.ApplyPatchIdempotent | src/backend/server.js:241-247 | sending the same body twice stores what sending it once stores |
| Deliveries.EmptyPatchKeeps | src/backend/server.js:243-247 | an empty patch changes nothing |
| Deliveries.StatusPatchChangesOnlyStatus | src/app/features/worker/worker-dashboard/worker-dashboard.component.ts:225-228 | applying the status patch changes exactly the status |
| Deliveries.UpdateById | src/backend/server.js:241-253 | the bookings with the id are patched; every other booking is unchanged |
| Deliveries.UpdateWithEmptyPatch | src/backend/server.js:243-247 | updating with an empty patch leaves the list as it was |
| Directory.SearchCustomers | src/components/Admin/CustomerManagement.tsx:31-35 | an order-preserving sublist of exactly the customers whose name matches ignoring case, or whose email or phone contains the term |
| Directory.SearchWorkers | src/components/Admin/WorkerManagement.tsx:37-40 | an order-preserving sublist of exactly the workers whose name or email contains the term, ignoring case |
| Directory.EmptySearchKeepsAll | src/components/Admin/CustomerManagement.tsx:31-35 | an empty search shows everyone |
| Directory.WorkerSearchIgnoresCase | src/components/Admin/WorkerManagement.tsx:37-40 | lower-casing the search term does not change the workers shown |
| Directory.WorkerMatchIsCustomerMatch | src/components/Admin/WorkerManagement.tsx:37-40 | whoever the worker search shows, the customer search shows too |
| Directory.RemoveUser | src/components/Admin/CustomerManagement.tsx:37-41 | an order-preserving sublist without the id that keeps every other user |
| Directory.ReplaceUser | src/components/Admin/CustomerManagement.tsx:147-151 | the users with the id are replaced; every other user is unchanged |
| Directory.RemoveKeepsWellFormed | src/components/Admin/WorkerManagement.tsx:46-50 | deleting keeps ids unique and roles uniform |
| Directory.ReplaceKeepsWellFormed | src/components/Admin/WorkerManagement.tsx:198-202 | an edit that keeps id and role keeps ids unique and roles uniform |
| Directory.AppendKeepsWellFormed | src/components/Admin/WorkerManagement.tsx:204-210 | adding a user with a fresh id and the page's role keeps the list well formed |
| Directory.FindRoute | src/components/Admin/WorkerManagement.tsx:42-44 | a route with the worker's route id, and none iff the worker has none or no route has the id |
| Directory.FindRouteUnique | src/components/Admin/WorkerManagement.tsx:42-44 | with unique route ids, the lookup returns the route with that id |
| InventoryManagement.ClampStock | src/components/Admin/InventoryManagement.tsx:23 | stock is never negative, and a non-negative value is kept |
| InventoryManagement.WithStock | src/components/Admin/InventoryManagement.tsx:21-25 | the items with the id get the clamped stock; every other item is unchanged |
| InventoryManagement.WithStockIsUpdate | src/components/Admin/InventoryManagement.tsx:21-25 | with unique ids, updating an item's stock replaces exactly that one position |
| InventoryManagement.WithStockKeepsWellFormed | src/components/Admin/InventoryManagement.tsx:21-25 | unique ids and non-negative stock survive a stock update |
| InventoryManagement.LowStockItems | src/components/Admin/InventoryManagement.tsx:18 | an order-preserving sublist of exactly the items under 50 L |
| InventoryManagement.TotalsAfterUpdate | src/components/Admin/InventoryManagement.tsx:19-25 | a stock update changes the total stock and the total value by exactly that item's difference |
| InventoryManagement.StockStatus | src/components/Admin/InventoryManagement.tsx:159-163 | critical iff under 30, low iff 30 to 49, good iff 50 or more |
| InventoryManagement.FlaggedIffListed | src/components/Admin/InventoryManagement.tsx:18 | an item is in the low-stock alert iff its badge is not "Good" |
| InventoryManagement.SeedLowStock | src/components/Admin/InventoryManagement.tsx:6-18 | in the seed inventory only Aavin Purple is low, and it is critical |
| InventoryManagement.SeedTotals | src/components/Admin/InventoryManagement.tsx:19-46 | the seed inventory holds 630 L worth 14700 |
| InventoryManagement.InitialProductForm | src/components/Admin/InventoryManagement.tsx:220-225 | an edit starts from the product's fields; a new product starts from empty fields |
| InventoryManagement.MergeProduct | src/components/Admin/InventoryManagement.tsx:187-191 | the form's fields replace the item's, and the id and colour are kept |
| InventoryManagement.MergeInitialForm | src/components/Admin/InventoryManagement.tsx:185-191 | saving an untouched edit form gives back the item |
| InventoryManagement.NewProduct | src/components/Admin/InventoryManagement.tsx:193-198 | a new product has the form's fields, the fresh id and the grey colour |
| InventoryManagement.SaveProduct | src/components/Admin/InventoryManagement.tsx:185-202 | an edit replaces the item with the id; a new product is appended |
| InventoryManagement.SaveKeepsWellFormed | src/components/Admin/InventoryManagement.tsx:185-202 | saving non-negative stock under a fresh id keeps the inventory well formed |
| InventoryManagement.Inventory.constructor | src/components/Admin/InventoryManagement.tsx:6-16 | the page starts with the seed inventory, well formed, and no modal |
| InventoryManagement.Inventory.UpdateStock | src/components/Admin/InventoryManagement.tsx:21-25 | the inventory becomes the stock update and stays well formed |
| InventoryManagement.Inventory.StepDown | src/components/Admin/InventoryManagement.tsx:138 | "−" lowers that one item by 10, stopping at 0 |
| InventoryManagement.Inventory.StepUp | src/components/Admin/InventoryManagement.tsx:147 | "+" raises that one item by 10 |
| InventoryManagement.Inventory.OpenAddModal | src/components/Admin/InventoryManagement.tsx:102 | the add modal opens and nothing else changes |
| InventoryManagement.Inventory.StartEdit | src/components/Admin/InventoryManagement.tsx:168 | the item becomes the one under edit |
| InventoryManagement.Inventory.Save | src/components/Admin/InventoryManagement.tsx:185-202 | the inventory becomes the saved product list, the modal closes, and well-formedness is kept |
| InventoryManagement.Inventory.CloseModal | src/components/Admin/InventoryManagement.tsx:203-206 | the modal closes and the edit is dropped |
| CustomerManagement.InitialCustomerForm | src/components/Admin/CustomerManagement.tsx:181-186 | an edit starts from the customer's fields, with absent phone and address as empty text |
| CustomerManagement.MergeCustomer | src/components/Admin/CustomerManagement.tsx:147-151 | the form's fields replace the customer's; id, role, route and creation time are kept |
| CustomerManagement.NewCustomer | src/components/Admin/CustomerManagement.tsx:153-159 | a new user has the form's fields, the customer role, the fresh id and the creation time |
| CustomerManagement.MergeInitialForm | src/components/Admin/CustomerManagement.tsx:145-151 | saving an untouched edit form gives back the customer |
| CustomerManagement.Page.constructor | src/components/Admin/CustomerManagement.tsx:6-29 | the page starts with the seed customers, an empty search and no modal |
| CustomerManagement.Page.SetSearchTerm | src/components/Admin/CustomerManagement.tsx:70 | only the search term changes |
| CustomerManagement.Page.DeleteCustomer | src/components/Admin/CustomerManagement.tsx:37-41 | a confirmed delete removes the customer, an unconfirmed one changes nothing, and the list stays consistent |
| CustomerManagement.Page.OpenAddModal | src/components/Admin/CustomerManagement.tsx:53 | the add modal opens and nothing else changes |
| CustomerManagement.Page.StartEdit | src/components/Admin/CustomerManagement.tsx:112 | the k-th shown customer becomes the one under edit |
| CustomerManagement.Page.Save | src/components/Admin/CustomerManagement.tsx:145-163 | an edit replaces the customer, a new one is appended, the modal closes, and consistency is kept under a fresh id |
| CustomerManagement.Page.CloseModal | src/components/Admin/CustomerManagement.tsx:164-167 | the modal closes and the edit is dropped |
| CustomerManagementComponent.Component.constructor | src/app/features/admin/customer-management/customer-management.component.ts:97-98 | the component starts with nothing loaded |
| CustomerManagementComponent.Component.LoadCustomers | src/app/features/admin/customer-management/customer-management.component.ts:106-120 | the mock customers are loaded and all of them are shown |
| CustomerManagementComponent.Component.FilterCustomers | src/app/features/admin/customer-management/customer-management.component.ts:122-128 | the shown list becomes the customer search for the current term |
| CustomerManagementComponent.Component.SearchChanged | src/app/features/admin/customer-management/customer-management.component.ts:122-128 | a new term refilters at once, and the shown list is a sublist of the loaded one |
| CustomerManagementComponent.Component.DeleteCustomer | src/app/features/admin/customer-management/customer-management.component.ts:130-135 | a confirmed delete removes the customer from both lists; an unconfirmed one changes nothing |
| WorkerManagement.RoutesResolve | src/components/Admin/WorkerManagement.tsx:42-44 | when route ids are unique and each worker's route id names a route of that worker, the lookup finds that route for every worker |
| WorkerManagement.SeedRoutesResolve | src/components/Admin/WorkerManagement.tsx:6-44 | seed route ids are unique and each seed worker's route is found and names that worker |
| WorkerManagement.InitialWorkerForm | src/components/Admin/WorkerManagement.tsx:233-238 | an edit starts from the worker's fields, with absent phone and route as empty text |
| WorkerManagement.MergeWorker | src/components/Admin/WorkerManagement.tsx:198-202 | the form's fields replace the worker's; id, role, address and creation time are kept |
| WorkerManagement.NewWorker | src/components/Admin/WorkerManagement.tsx:204-210 | a new user has the form's fields, the worker role, the fresh id and the creation time |
| WorkerManagement.MergeInitialForm | src/components/Admin/WorkerManagement.tsx:196-202 | saving an untouched edit form gives back the worker |
| WorkerManagement.Page.constructor | src/components/Admin/WorkerManagement.tsx:6-35 | the page starts with the seed workers and routes, an empty search and no modal |
| WorkerManagement.Page.SetSearchTerm | src/components/Admin/WorkerManagement.tsx:74 | only the search term changes |
| WorkerManagement.Page.DeleteWorker | src/components/Admin/WorkerManagement.tsx:46-50 | a confirmed delete removes the worker, an unconfirmed one changes nothing, and the list stays consistent |
| WorkerManagement.Page.OpenAddModal | src/components/Admin/WorkerManagement.tsx:59 | the add modal opens and nothing else changes |
| WorkerManagement.Page.StartEdit | src/components/Admin/WorkerManagement.tsx:129 | the k-th shown worker becomes the one under edit |
| WorkerManagement.Page.Save | src/components/Admin/WorkerManagement.tsx:196-214 | an edit replaces the worker, a new one is appended, the modal closes, and consistency is kept under a fresh id |
| WorkerManagement.Page.CloseModal | src/components/Admin/WorkerManagement.tsx:215-218 | the modal closes and the edit is dropped |
| WorkerManagementComponent.LoadedRoutesResolve | src/app/features/admin/worker-management/worker-management.component.ts:146-170 | the loaded first worker's route resolves to "Route A - Sector 1" |
| WorkerManagementComponent.Component.constructor | src/app/features/admin/worker-management/worker-management.component.ts:137-138 | nothing is loaded at first |
| WorkerManagementComponent.Component.LoadWorkers | src/app/features/admin/worker-management/worker-management.component.ts:146-159 | the mock workers are loaded; the routes are untouched |
| WorkerManagementComponent.Component.LoadRoutes | src/app/features/admin/worker-management/worker-management.component.ts:161-166 | the mock routes are loaded; the workers are untouched |
| WorkerManagementComponent.Component.DeleteWorker | src/app/features/admin/worker-management/worker-management.component.ts:172-176 | a confirmed delete leaves a sublist without the worker; an unconfirmed one changes nothing |
| SubscriptionManager.Toggled | src/components/Customer/SubscriptionManager.tsx:38 | the active flag flips and every other field is kept |
| SubscriptionManager.ToggleById | src/components/Customer/SubscriptionManager.tsx:34-42 | the subscriptions with the id are toggled; every other one is unchanged |
| SubscriptionManager.ToggleTwice | src/components/Customer/SubscriptionManager.tsx:34-42 | pausing and then resuming restores the list |
| SubscriptionManager.RemoveSubscription | src/components/Customer/SubscriptionManager.tsx:44-46 | an order-preserving sublist without the id that keeps every other subscription |
| SubscriptionManager.ToggleAndRemoveKeepWellFormed | src/components/Customer/SubscriptionManager.tsx:34-46 | toggling and deleting keep ids unique |
| SubscriptionManager.NewSubscription | src/components/Customer/SubscriptionManager.tsx:134-147 | a new subscription is active, has no paused dates, belongs to customer "1", and takes the form's milk, quantity and dates |
| SubscriptionManager.PlanInMonths | src/components/Customer/SubscriptionManager.tsx:168 | a 30-, 60- or 90-day plan costs the monthly price times the number of months |
| SubscriptionManager.Manager.constructor | src/components/Customer/SubscriptionManager.tsx:6-28 | the page starts with the one seed subscription, running 30 days from today, and no modal |
| SubscriptionManager.Manager.ToggleSubscription | src/components/Customer/SubscriptionManager.tsx:34-42 | the list becomes the toggle and stays well formed |
| SubscriptionManager.Manager.DeleteSubscription | src/components/Customer/SubscriptionManager.tsx:44-46 | the list loses the id and stays well formed |
| SubscriptionManager.Manager.OpenCreateModal | src/components/Customer/SubscriptionManager.tsx:53 | the create modal opens |
| SubscriptionManager.Manager.CloseCreateModal | src/components/Customer/SubscriptionManager.tsx:148 | the create modal closes |
| SubscriptionManager.Manager.Save | src/components/Customer/SubscriptionManager.tsx:134-147 | exactly the new subscription is appended and the modal closes |
| SubscriptionManager.CreateModal.constructor | src/components/Customer/SubscriptionManager.tsx:162-165 | the first variety, 1 L, starting today, for 30 days |
| SubscriptionManager.CreateModal.EndDate | src/components/Customer/SubscriptionManager.tsx:169 | the end lies the duration after the start |
| SubscriptionManager.CreateModal.SelectMilk | src/components/Customer/SubscriptionManager.tsx:194 | only the milk changes |
| SubscriptionManager.CreateModal.SetQuantity | src/components/Customer/SubscriptionManager.tsx:211 | only the quantity changes |
| SubscriptionManager.CreateModal.SetStartDate | src/components/Customer/SubscriptionManager.tsx:221 | only the start date changes |
| SubscriptionManager.CreateModal.SetDuration | src/components/Customer/SubscriptionManager.tsx:230-235 | only the duration changes, to one of the offered ones |
| SubscriptionManager.CreateModal.Submit | src/components/Customer/SubscriptionManager.tsx:171-180 | the form carries the selection, and its dates lie an offered duration apart |
| SubscriptionManagerComponent.TogglePayloadMatchesToggle | src/app/features/customer/subscription-manager/subscription-manager.component.ts:138-143 | sending the toggled copy as the update has the same effect as the React toggle |
| SubscriptionManagerComponent.Component.constructor | src/app/features/customer/subscription-manager/subscription-manager.component.ts:96-97 | nothing is loaded at first |
| SubscriptionManagerComponent.Component.LoadSubscriptions | src/app/features/customer/subscription-manager/subscription-manager.component.ts:106-115 | a response replaces the list, and an error keeps it |
| SubscriptionManagerComponent.Component.LoadMilkVarieties | src/app/features/customer/subscription-manager/subscription-manager.component.ts:117-126 | a response replaces the varieties, and an error keeps them |
| SubscriptionManagerComponent.Component.ToggleSubscription | src/app/features/customer/subscription-manager/subscription-manager.component.ts:138-143 | the request updates that id with the active flag flipped and everything else kept |
| SubscriptionManagerComponent.Component.DeleteSubscription | src/app/features/customer/subscription-manager/subscription-manager.component.ts:145-151 | a delete request is sent iff the user confirms |
| CalendarBooking.SaveBooking | src/components/Customer/CalendarBooking.tsx:58-62 | a new booking is appended; an edit replaces the booking with the edited id and keeps that id |
| CalendarBooking.ClickedTargetOk | src/components/Customer/CalendarBooking.tsx:34-38 | the booking a click picks for editing is on the clicked day and is in the list |
| CalendarBooking.SaveKeepsOnePerDay | src/components/Customer/CalendarBooking.tsx:41-62 | saving keeps ids unique and at most one booking per day |
| CalendarBooking.ClickThenSave | src/components/Customer/CalendarBooking.tsx:34-62 | clicking a day and saving leaves exactly one booking on that day, holding the form's choice |
| CalendarBooking.Calendar.constructor | src/components/Customer/CalendarBooking.tsx:7-11 | no bookings, no selection, no modal |
| CalendarBooking.Calendar.HandleDateClick | src/components/Customer/CalendarBooking.tsx:34-39 | a past day does nothing; any other day opens the modal on it, with that day's booking under edit |
| CalendarBooking.Calendar.HandleBooking | src/components/Customer/CalendarBooking.tsx:41-67 | with no day selected nothing changes; otherwise the booking is saved, the modal closes, and consistency is kept under a fresh id |
| CalendarBooking.Calendar.DeleteBooking | src/components/Customer/CalendarBooking.tsx:69-72 | the booking leaves the list and the modal closes |
| CalendarBooking.Calendar.CloseModal | src/components/Customer/CalendarBooking.tsx:151-155 | the modal closes and the selection is dropped; the bookings are kept |
| CalendarBooking.BookingModal.constructor | src/components/Customer/CalendarBooking.tsx:172-174 | an existing booking's values, or the first variety, 1 L and not extra |
| CalendarBooking.BookingModal.Decrease | src/components/Customer/CalendarBooking.tsx:231 | the quantity drops by one but never below 1 |
| CalendarBooking.BookingModal.Increase | src/components/Customer/CalendarBooking.tsx:239 | the quantity rises by one |
| CalendarBooking.BookingModal.SelectMilk | src/components/Customer/CalendarBooking.tsx:206 | only the milk changes |
| CalendarBooking.BookingModal.SetExtra | src/components/Customer/CalendarBooking.tsx:252 | only the extra flag changes |
| CalendarBooking.BookingModal.Submit | src/components/Customer/CalendarBooking.tsx:179-182 | the form carries the milk, the quantity and the extra flag shown |
| BookingModalComponent.InitialForm | src/app/features/customer/booking-modal/booking-modal.component.ts:110-114 | an existing booking's values, or the first variety and 1 L; the form is valid iff milk and a positive quantity are present |
| BookingModalComponent.GetTotalPrice | src/app/features/customer/booking-modal/booking-modal.component.ts:117-122 | the booking total of the chosen milk and quantity, and 0 when either is missing or the milk is unknown |
| BookingModalComponent.OnSubmit | src/app/features/customer/booking-modal/booking-modal.component.ts:124-128 | the dialog closes iff the form is valid, and then with the form |
| BookingModalComponent.DeleteBooking | src/app/features/customer/booking-modal/booking-modal.component.ts:130-134 | the dialog closes with a delete request iff the user confirms |
| BookingModalComponent.ClosingResults | src/app/features/customer/booking-modal/booking-modal.component.ts:124-138 | whatever closes the dialog, its result is a valid form, a delete request (only for an existing booking) or nothing |
| CalendarBookingComponent.FirstOfMonth | src/app/features/customer/calendar-booking/calendar-booking.component.ts:179 | a valid date on day 1, the same day `new Date(y, m, 1)` normalises to |
| CalendarBookingComponent.SundayOnOrBefore | src/app/features/customer/calendar-booking/calendar-booking.component.ts:107-108 | a Sunday at most six days back |
| CalendarBookingComponent.GridStart | src/app/features/customer/calendar-booking/calendar-booking.component.ts:101-108 | the Sunday of the week of the 1st, and 42 days from it reach past the month's last day |
| CalendarBookingComponent.CalendarGrid | src/app/features/customer/calendar-booking/calendar-booking.component.ts:98-116 | 42 consecutive days starting on a Sunday, covering the whole month |
| CalendarBookingComponent.GridCoversMonth | src/app/features/customer/calendar-booking/calendar-booking.component.ts:98-116 | every day of the month is in the grid |
| CalendarBookingComponent.AfterClosedAsWritten | src/app/features/customer/calendar-booking/calendar-booking.component.ts:203-217 | as written: any result for an existing booking becomes an update, so no delete is ever sent |
| CalendarBookingComponent.DeleteIsLostAsWritten | src/app/features/customer/calendar-booking/calendar-booking.component.ts:203-217 | as written, a confirmed delete leaves the booking in place |
| CalendarBookingComponent.AfterClosed | src/app/features/customer/calendar-booking/calendar-booking.component.ts:203-217 | a delete is sent iff an existing booking's dialog asked for one; a saved form updates the existing booking or creates one on the day |
| CalendarBookingComponent.DeleteRemovesBooking | src/app/features/customer/calendar-booking/calendar-booking.component.ts:203-217 | a confirmed delete removes exactly that booking |
| CalendarBookingComponent.AfterClosedAgrees | src/app/features/customer/calendar-booking/calendar-booking.component.ts:203-217 | away from the delete case, the corrected handler sends what the code sends |
| CalendarBookingComponent.Component.constructor | src/app/features/customer/calendar-booking/calendar-booking.component.ts:81-85 | today's date, and nothing generated or loaded yet |
| CalendarBookingComponent.Component.GenerateCalendar | src/app/features/customer/calendar-booking/calendar-booking.component.ts:98-116 | the days become the grid of the current month, and nothing else changes |
| CalendarBookingComponent.Component.PreviousMonth | src/app/features/customer/calendar-booking/calendar-booking.component.ts:178-181 | moves to the 1st of the month before, which ends the day before the old 1st, and regenerates the grid |
| CalendarBookingComponent.Component.NextMonth | src/app/features/customer/calendar-booking/calendar-booking.component.ts:183-186 | moves to the 1st of the month after, which follows the old month's last day, and regenerates the grid |
| CalendarBookingComponent.Component.LoadBookings | src/app/features/customer/calendar-booking/calendar-booking.component.ts:118-127 | a response replaces the bookings, and an error keeps them |
| CalendarBookingComponent.Component.LoadMilkVarieties | src/app/features/customer/calendar-booking/calendar-booking.component.ts:129-138 | a response replaces the varieties, and an error keeps them |
| CalendarBookingComponent.Component.OpenBookingModal | src/app/features/customer/calendar-booking/calendar-booking.component.ts:188-218 | a past day sends nothing; otherwise the request is the as-written after-close handler's for the day's booking, so a confirmed delete is never sent as a deletion |
| CalendarBookingComponent.PreviousThenNext | src/app/features/customer/calendar-booking/calendar-booking.component.ts:178-186 | going back a month and forward again lands on the 1st of the original month |
| WorkerDashboard.Dashboard.constructor | src/components/Worker/WorkerDashboard.tsx:6-36 | two pending deliveries on today's date, on route1, with distinct ids |
| WorkerDashboard.Dashboard.UpdateDeliveryStatus | src/components/Worker/WorkerDashboard.tsx:38-46 | the deliveries become the status update for that id |
| WorkerDashboardComponent.Component.constructor | src/app/features/worker/worker-dashboard/worker-dashboard.component.ts:155-164 | no deliveries, the four stat cards at their initial values, consistent |
| WorkerDashboardComponent.Component.UpdateTodayDeliveries | src/app/features/worker/worker-dashboard/worker-dashboard.component.ts:185-190 | today's list becomes the deliveries on the selected day |
| WorkerDashboardComponent.Refreshed | src/app/features/worker/worker-dashboard/worker-dashboard.component.ts:192-202 | the four cards keep their captions, colours and icons, and each value reads back as the total, delivered, pending and missed count |
| WorkerDashboardComponent.Component.UpdateStats | src/app/features/worker/worker-dashboard/worker-dashboard.component.ts:192-202 | the cards become the refreshed cards for the day's deliveries; the total card reads back as the number of deliveries today |
| WorkerDashboardComponent.Component.LoadDeliveries | src/app/features/worker/worker-dashboard/worker-dashboard.component.ts:172-183 | a response replaces the deliveries and leaves the view consistent; an error changes nothing |
| WorkerDashboardComponent.Component.UpdateDeliveryStatus | src/app/features/worker/worker-dashboard/worker-dashboard.component.ts:225-228 | the request patches that id, and applying it changes only the status, to delivered or missed |
| WorkerDashboardComponent.GetStatusColor | src/app/features/worker/worker-dashboard/worker-dashboard.component.ts:216-223 | "accent" iff pending, "warn" iff missed, "primary" for everything else |
| WorkerDashboardComponent.StatusColors | src/app/features/worker/worker-dashboard/worker-dashboard.component.ts:216-223 | the colour of each of the four statuses |

## Left out

- Templates, CSS classes other than the colour names, icons and layout are presentation only and are not modelled.
- HTTP clients and RxJS observables are not modelled. A component's effect is the request it sends, and the response is an input.
- Routing, bootstrapping and the app shells are left out, and so are the static dashboards (`AdminDashboard`, `CustomerDashboard`, `OrderAnalytics`, the header). None of them holds logic of the core.
- The Angular login component is left out, because its `Validators.email` rule is not available as text. The React login form is modelled instead.
- The Mongo connection, `listen`, CORS and JSON body parsing are left out. These are I/O.
- Hashing and JWT internals are abstracted. bcrypt is an injective hash with a matching `Compare`, and JWT verification is a caller-supplied function. Salt rounds, the secret, signing and the 7-day token expiry are therefore not modelled.
- Mongoose casting and enum validation are left out. Errors from an invalid role, an invalid status or a malformed id are not modelled, and the 500 paths are limited to a missing user and missing or empty required fields.
- Backend.Login and Backend.Store.Register: a missing email is looked up as null (the driver sends `undefined` as null), which no stored user's required email equals, so it finds nobody.
- Backend.Login and Backend.Store.Register: the reply carries the stored `User` record; the JSON the handlers send leaves out `createdAt`, and register's also leaves out `routeId` (which a new user never has).
- Catalog.MilkColorByName: the source indexes a plain object literal, so a name that is an inherited `Object.prototype` key (`constructor`, `toString`, `valueOf`, `__proto__`, ...) yields that inherited value rather than `bg-gray-500`; the model treats every non-standard name as unknown.
- Backend.Store.UpdateBooking: does not model `runValidators` being off for updates. A patch field can also only set a value, never unset it.
- Wall-clock time is a parameter (`today`, `now`, `monthStart`). Dates are whole day numbers, so time of day, time zones and `toDateString` are not modelled.
- Prices are reals; JavaScript floating-point rounding, `parseInt` and `parseFloat` are not modelled. Form inputs arrive as already-parsed integers.
- `toLowerCase` is modelled on ASCII letters only.
- `localStorage`, `confirm()` and `Math.random()` ids are parameters.
- The React calendar's month navigation through `date-fns` is left out. The Angular calendar's navigation is modelled, and date-fns is not part of this model.
- LoginForm.Form.Submit: the loading flag is observed only before and after the awaited login, not while it is pending.
- Backend.Store.Init: requires six fresh variety ids, because Mongo generates them.
- The read-only GET routes for milk varieties and routes return the stored collection unchanged and are not given a member of their own.
- The back end has no PUT or DELETE route for subscriptions and no DELETE route for bookings. Those client requests are modelled, but the server side of them does not exist in the code.
- Request bodies are typed records with optional fields. Extra, unknown fields that strict mode would drop are not represented, and a value of the wrong type for a field is not modelled.
- Backend.VarietyFromBody: an absent description is stored as the empty string rather than as a missing field.

## Findings

| source | as written | input that shows it | evidently intended | confidence | as-written member | corrected member |
|---|---|---|---|---|---|---|
| src/app/features/customer/calendar-booking/calendar-booking.component.ts:203-217 | the after-close handler forwards every result for an existing booking to `updateBooking`, including the booking modal's `{ delete: true }` | open an existing booking, press Delete and confirm: the result `{ delete: true }` is sent as an update; strict mode drops the unknown field, so the booking stays | a delete result removes the booking | high, not executed | CalendarBookingComponent.AfterClosedAsWritten | CalendarBookingComponent.AfterClosed |
