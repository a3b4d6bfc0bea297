# Invenso inventory server, modelled in Dafny

Invenso is a small warehouse inventory web application. Users register,
verify their email, log in, keep a list of stock items, record sales and read
sales reports. This project models the state machine behind the server's HTTP
handlers in `server/index.js`. The database is replaced by an in-memory store:
a sequence of users, a map of items keyed by id, and a sequence of sales.

- `types.dfy` (module `Types`): ids, the item and sale documents, `Option` and
  `Result`, the low-stock threshold (5 units) and the day key of a timestamp.
- `accounts.dfy` (module `Accounts`): the user document, the `findOne`
  filters the auth handlers use (by email, by unexpired verification token, by
  unexpired reset token), and login.
- `inventory.dfy` (module `Inventory`): the item listing, the caller's items
  newest first.
- `reports.dfy` (module `Reports`): the per-item sales summary, the per-day
  sales trend, and the daily-summary job that loops over the users.
- `store.dfy` (module `Server`): class `Store` with the handlers that change
  state. These are register, verify, forgot and reset password, create, delete
  and restock item, and record sale. `Valid()` is the store invariant. The
  store hands out item ids from a counter and never reuses one. Each token is held by at most one user. Stock is conserved:
  for every live item, units in stock plus units sold equal the units it has
  received (ghost field `stocked`).
- `scenarios.dfy` (module `Scenarios`): client code that works out concrete
  outcomes from the contracts alone. One example: a sale of 3 from a stock of
  10 at 200 cents leaves 7 and records 600 cents, and a later sale of 8 is
  refused.

Modelling choices:
- Money is in integer cents, so `totalAmount = quantity * price` is exact.
- Time is an `int` of milliseconds passed in as `now`. A day is
  `DayKey(t) = t / 86400000`, the UTC day number. Day numbers sort the same way
  as the `%Y-%m-%d` strings of the trend report.
- Passwords and tokens are strings compared by equality.
- `findOne` returns the first matching user in store order.
- A random token is a parameter that no user holds yet.
- The sale quantity is an `int` and is not required to be positive, because
  the handler never checks it. A negative quantity passes the stock check,
  raises the stock and records a negative amount. The contracts allow for this.
- The source wraps the sale in a transaction. The model makes both writes at
  one commit point. `storageOk = false` stands for a storage failure inside the
  transaction, which aborts it with no change.

Behaviours of the code that the model keeps as written:
- The code's own guard never rejects a duplicate email. `User.findOne` is not
  awaited, so the guard tests a Query object, which is always truthy.
- The sale handler answers 400 for both a missing item and short stock, and
  login answers 401 for an unverified account (server/index.js:87, :244). The
  model has no status codes. It keeps each failure as its own error value
  (`ItemNotFound`, `InsufficientQuantity`, `EmailNotVerified`).

## Model

| member | source | states |
|---|---|---|
| `Server.Store.RecordSale` | server/index.js:204-248 | a missing or someone else's item gives ItemNotFound; stock below the quantity gives InsufficientQuantity; a storage failure aborts; every failure leaves items and sales unchanged; success lowers exactly that item by the quantity, appends exactly one sale (item, quantity, quantity * price, caller, now), touches nothing else, never leaves stock negative, and raises the low-stock alert iff the new stock is below 5; Valid (token distinctness, stock conservation) is preserved |
| `Server.Store.AdjustStock` | server/index.js:178-202 | a missing or negative delta gives InvalidQuantity before any lookup; a missing or not-owned item gives ItemNotFound; both leave items unchanged; otherwise the new quantity is old plus delta (never lower), only that item changes, and the alert is raised iff the result is below 5 |
| `Server.Store.DeleteItem` | server/index.js:165-176 | removes the item iff it exists and the caller owns it, otherwise ItemNotFound with no change; sales and users untouched |
| `Server.Store.CreateItem` | server/index.js:152-163 | adds exactly one item, owned by the caller, under a new id that no live item and no recorded sale names; the id counter then moves past it, and every other handler leaves the counter alone, so an id is never handed out twice, not even after its item is deleted; nothing else changes |
| `Server.Store.Register` | server/index.js:24-52 | appends one unverified user holding a fresh verification token that expires 24 hours after now; no duplicate check; items and sales untouched |
| `Server.Store.Verify` | server/index.js:54-75 | if no user holds the token with expiry later than now, InvalidToken and no change; otherwise the first such user becomes verified with token and expiry cleared and no other user changes; after success the token matches nobody at any time, so a replay fails |
| `Server.Store.ForgotPassword` | server/index.js:98-117 | unknown email gives UserNotFound with no change; otherwise the first user with that email gets the fresh reset token expiring one hour after now |
| `Server.Store.ResetPassword` | server/index.js:119-140 | if no user holds the reset token with expiry later than now, InvalidToken and no change; otherwise that user's password is replaced and the token and expiry are cleared; after success the token matches nobody at any time |
| `Accounts.FindOne` | server/index.js:56-59 | returns the first user in store order that satisfies the filter, and None exactly when no user does |
| `Accounts.Login` | server/index.js:77-95 | InvalidCredentials iff no user has the email or the first such user's password differs; EmailNotVerified iff the password matches but that user is unverified; success iff the password matches and the user is verified, and then the result is that user |
| `Inventory.ListItems` | server/index.js:143-150 | the result holds exactly the caller's items, each once, sorted newest first by creation time |
| `Reports.Summary` | server/index.js:272-302 | one entry per item that still exists and that the caller has sold (sales of deleted items drop out), named after the item |
| `Reports.SummaryTotals` | server/index.js:290-295 | each entry's total quantity and total amount equal the sums over the caller's sales of that item |
| `Reports.ZeroWithoutSales` | server/index.js:286-287 | an existing item with no entry has no units sold and no revenue for the caller |
| `Reports.SummaryIgnoresStock` | server/index.js:279-287 | the summary depends on the item store only through which items exist and their names, so a change of stock does not change it |
| `Reports.SaleGrowsSummary` | server/index.js:223-229 | recording a sale of an existing item grows that item's entry in the seller's summary by the sale's quantity and amount and leaves the other entries as they were |
| `Server.SaleGrowsSellerSummary` | server/index.js:220-229 | after a committed sale (new sale appended, the item's stock changed, its name kept), the seller's summary entry for that item grows by exactly the sale's quantity and amount, and the seller's other entries are unchanged |
| `Server.SummaryMatchesStock` | server/index.js:220-229 | under stock conservation, the units the summary reports sold for a live item equal the units it received minus its current stock |
| `Reports.Trend` | server/index.js:304-329 | days strictly ascending, and the days listed are exactly the days on which the caller sold something |
| `Reports.AddToDay` | server/index.js:311-316 | grouping one more sale keeps the days strictly ascending, adds its day, and adds its amount to that day's total only |
| `Reports.TrendTotals` | server/index.js:311-314 | the trend's total for every day equals the caller's revenue of that day, and 0 for a day without sales |
| `Reports.SalesSinceMembers` | server/index.js:258-261 | the daily query keeps exactly the user's sales created at or after the start of the day |
| `Reports.DailySummaries` | server/index.js:251-270 | one digest per user with at least one sale since the start of the day, in user order, none twice, each carrying exactly that user's sales since then |
| `Types.DayKey` | server/index.js:312 | the day key is the UTC day whose 24 hours contain the timestamp |
| `Scenarios.TwoDayTrend` | server/index.js:306-323 | sales of 10 on one day and 5 on the next give exactly the two entries in day order |

## Left out

- HTTP wiring, status codes, CORS, JSON parsing and the server start: framework I/O. Handler results are `Result` values, not responses.
- The authentication middleware: the caller's user id is a parameter.
- The MongoDB connection, sessions and the query engine. The transaction is modelled only as all-or-nothing with a commit point. Concurrent requests are not modelled; the model runs handlers one at a time.
- Email dispatch (verification, reset link, sale notification, low-stock alert, daily summary): foreign calls. The sale and restock handlers return a low-stock flag, and the daily job returns the digests it would send. A mailer that throws after a write is not modelled. In the code such a throw reaches the handler's catch after the write has been saved. PATCH then answers 400 with the stock already changed (server/index.js:191-200). Register answers 400 with the user already saved (server/index.js:45-50). Forgot-password answers 500 with the reset token already saved (server/index.js:110-115). A throw after a sale commits (server/index.js:233-238) reaches the catch, whose `abortTransaction` on the committed transaction throws again (server/index.js:243), so no answer is sent although the sale is recorded. In the daily job, one throw inside the loop (server/index.js:264) ends the whole run at the catch (server/index.js:267), so no later user gets a digest. `DailySummaries` returns the digest of every user.
- The once-a-minute midnight timer and the local-time `setHours` computation: clock plumbing. The start of the day is a parameter of `DailySummaries`.
- Password hashing and comparison, JWT signing and its 7-day expiry, and `crypto.randomBytes`: library calls. They are replaced by equality, a user id on success and fresh-token preconditions.
- The item and user schemas (server/models/*.js) are not part of this model. Any validation they do on save is not modelled. For sales, `storageOk` covers a refused write.
- `POST /api/items` copies any fields of the request body into the item (server/index.js:154-157). The model takes only name, quantity and price. A client can therefore also send `_id` and `createdAt`. With `_id` it can re-create a deleted item under its old id, and that id's earlier sales then count in the summary again. With `createdAt` it can place the item anywhere in the newest-first listing. The model's id counter rules out the first, and its creation time is always `now`.
- Floating-point prices and amounts, and non-integer PATCH deltas: amounts are integer cents.
- JavaScript coercion of a non-numeric sale quantity: the sale quantity is an integer.
- The registration duplicate-email check: it never fires in the code, so the model does not reject duplicates. Whether a unique index rejects them lives in the unseen schema.
- src/pages/Login.tsx and src/components/Navbar.tsx: user interface.
- Reports.SalesSinceMembers: states which sales the daily query keeps, not that it keeps their order and multiplicity.
- Inventory.ListItems: promises no order among items created at the same instant. The database does not promise one either.
