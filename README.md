# GestionAlmacenDemo: a verified model of its route handlers

GestionAlmacenDemo is an Express web application for a small shop. It has
a point of sale, an admin area with dashboard and analytics, a warehouse
area, and login by role (admin, employee, warehouse). Its data lives in a
hosted database. This project models that database as one in-memory store
(`Store.Db`), and the route handlers as Dafny functions and methods over it:

- `Pos` (routes/pos.js): the sale screen's lists, and `POST /checkout`.
  Checkout validates the request, then writes the sale header, one
  `sale_items` row per cart line, the stock decrements, one
  `sale_payments` row per payment, and the surcharge back-fill. The loops
  are methods proved against fold functions.
- `AccessControl` (middleware/auth.js): `requireRole` and `isAuthenticated`.
- `Server` (server.js): the root redirect by role, the three gated mounts,
  the warehouse placeholder, and the seeding of the default admin.
- `Login` (routes/auth.js): the credential check and the login and logout
  handlers, with the session as a mutable object. bcrypt is the parameter
  `matches(password, hash)`.
- `Admin` (routes/admin.js): the dashboard's sales-today sum and the
  payment-method toggle.
- `Analytics` (routes/admin.js): the analytics page. One pass builds the
  four period buckets and the year tally; a second pass builds the today
  tally. The date tests `isSameDay`, `isSameWeek` and `isSameMonth` are
  predicates on the sale's timestamp, passed in as parameters.
- `Ranking` (routes/admin.js): `getTop`, sorting by units sold.
- `Warehouse` (routes/warehouse.js): the low-stock alerts, restock, and
  product insert.
- `Seqs` and `Wrappers`: an order-preserving filter and `Option`.

Money is `real`, so sums and percentages are exact. A NULL column is
`None`. JavaScript's `x || y` on a number is `Store.Or`: a NULL and a 0
both give way to the fallback.

## Model

| member | source | states |
|---|---|---|
| AccessControl.RequireRole | middleware/auth.js:1-24 | with no session user, redirect to /auth/login; passes exactly when the user is admin or has the required role; any other user gets the 403 error view with backUrl "/" |
| AccessControl.IsAuthenticated | middleware/auth.js:26-31 | passes exactly when a session user exists, otherwise redirects to /auth/login |
| Server.Gate | server.js:57-68 | /admin, /pos and /warehouse require "admin", "employee" and "warehouse"; no user is sent to login; a user passes exactly when they are an admin or hold the area's role, and every other logged-in user, whatever their role, gets the 403 reply |
| Server.CrossAreaDenied | server.js:57-68 | the employee or warehouse role gets the 403 reply at every area that is not its own |
| Server.RootLeadsIntoOwnArea | server.js:47-68 | the root redirect of each area's role leads to that area, and that area's gate lets the user pass |
| Server.EmployeeDeniedWarehouse | server.js:68-70 | an employee asking for /warehouse gets the 403 reply |
| Server.Root | server.js:47-55 | no session gives the login redirect; admin, employee and warehouse go to /admin, /pos and /warehouse; the index view is rendered exactly for every other role |
| Server.WarehouseHome | server.js:68-70 | the placeholder text is sent exactly to admin and warehouse users; others get the login redirect or the 403 reply |
| Server.SeedAdminIfEmpty | server.js:75-99 | the default admin is inserted exactly when the count query succeeds and the users table is empty; nothing else changes |
| Login.FirstByUsername | routes/auth.js:15-23 | no result exactly when no row has the name; otherwise the earliest row with that name |
| Login.CheckCredentials | routes/auth.js:14-45 | a failed query gives the server-error message; an unknown name or a non-matching hash gives "Credenciales inválidas"; a match gives {id, username, role} of the first row with that name |
| Login.UnknownUserLooksLikeWrongPassword | routes/auth.js:23-30 | an unknown user name and a wrong password get the same reply |
| Login.OnlyFirstRowIsTried | routes/auth.js:15-30 | only the first row with a name is checked, so a failing first row rejects the login whatever later rows hold |
| Login.LoginPage | routes/auth.js:6-9 | GET /login redirects to "/" exactly when a session user exists, and shows the form otherwise |
| Login.PostLogin | routes/auth.js:11-46 | on success the session user is set and the reply redirects to "/"; on any failure the form shows the message and the session is unchanged |
| Login.Logout | routes/auth.js:48-51 | the session user is gone and the reply redirects to /auth/login |
| Pos.Validate | routes/pos.js:32-51 | a missing or empty cart is rejected first, then missing or empty payments, then payments more than 0.1 away from Σ price × quantity, with both figures; an iff for each outcome |
| Pos.SellableProducts | routes/pos.js:8-21 | the sale screen lists exactly the products with stock > 0, no row more often than it was fetched (a sub-multiset), or none when the read failed |
| Pos.ActiveMethods | routes/pos.js:14-22 | the sale screen lists exactly the active payment methods, no row more often than it was fetched (a sub-multiset), or none when the read failed |
| Pos.ProcessLines | routes/pos.js:73-93 | one item row per cart line in order, and the read-then-write stock decrement; stops after the row of the first line whose product does not exist |
| Pos.ProcessPayments | routes/pos.js:96-116 | one payment row per payment, with surcharge amount × (percent or 0) / 100, summed into the total; stops at the first unknown method |
| Pos.RecordSale | routes/pos.js:53-125 | the header holds the base total and surcharge 0, then the surcharge total on success; the item, stock and payment tables end as the step functions say; a missing product or method gives a 500 with earlier writes kept |
| Pos.Checkout | routes/pos.js:27-130 | a rejected request writes nothing and answers 400 with its error, "Carrito vacío" or "Falta método de pago" for the first two checks; an accepted one records the sale with base total Σ price × quantity and answers 200 on success, 500 otherwise |
| Pos.ItemRowsMatchCart | routes/pos.js:73-81 | exactly one item row per cart line, in cart order, copying id, quantity and the cart's price |
| Pos.StockAfterSubtractsQuantities | routes/pos.js:84-92 | each product ends with its stock less the total quantity of its cart lines, with repeats accumulating and no lower bound; its other fields are kept |
| Pos.RepeatedProductAccumulates | routes/pos.js:84-92 | two lines of one product of 2 and 3 units lower its stock by 5 |
| Pos.ItemRowsValueIsCartTotal | routes/pos.js:39-81 | the item rows of a sale are worth exactly the header's base total |
| Pos.PaymentRowsMatchPayments | routes/pos.js:108-115 | exactly one payment row per payment, in order, with the posted amount and its surcharge |
| Pos.HeaderSurchargeMatchesRows | routes/pos.js:104-123 | the back-filled header surcharge is the sum of the payment rows' surcharge amounts |
| Pos.SurchargeExample | routes/pos.js:104-106 | methods at 0 % (NULL), 5 % and 10 % covering 100, 50 and 20 add 4.5 of surcharge |
| Admin.SalesTodayTotal | routes/admin.js:25-32 | 0 when the read failed; otherwise Σ(total_base, else total, else 0) + Σ(total_surcharge, else 0) |
| Admin.SalesSumIsColumns | routes/admin.js:27-31 | the left-to-right reduce equals the base column sum plus the surcharge column sum |
| Admin.SalesSumAppend | routes/admin.js:27-31 | the figure of two lists of rows is the sum of their two figures |
| Admin.RowContributions | routes/admin.js:28-29 | a row with base and surcharge counts base + surcharge, falling back to `total` when the base is 0; a legacy row counts its total |
| Admin.Toggled | routes/admin.js:81-90 | the toggle keeps every method id and every other method |
| Admin.ToggleFlipsOnlyActive | routes/admin.js:81-90 | the toggled method's `active` becomes the negation of its old value, and nothing else of it changes |
| Admin.ToggleTwice | routes/admin.js:81-90 | toggling twice restores the table |
| Admin.TogglePaymentMethod | routes/admin.js:79-94 | the methods table becomes the toggled table; an unknown id changes nothing; no other table changes |
| Ranking.Insert | routes/admin.js:189 | inserting adds exactly one entry |
| Ranking.InsertSorted | routes/admin.js:189 | inserting into a list sorted by sold keeps it sorted |
| Ranking.SortBySold | routes/admin.js:189 | the sort gives a permutation of its input, ordered by sold non-increasing |
| Ranking.GetTop | routes/admin.js:187-190 | at most 10 entries, exactly min(10, n), drawn from the tally, ordered by sold non-increasing; no entry left out sold more than any kept |
| Ranking.FewEntriesAllKept | routes/admin.js:187-190 | a tally of ten entries or fewer is kept whole |
| Analytics.IndexOf | routes/admin.js:178-179 | finds the first entry of a product, or reports that there is none |
| Analytics.Analytics | routes/admin.js:111-212 | the metrics are the four bucket folds; topYear is getTop of the tally of all fetched sales; topToday is getTop of the tally of the sales dated today; a failed read gives zeros and empty lists |
| Analytics.YearPass | routes/admin.js:150-184 | the forEach over the year's sales builds the four buckets and the year tally |
| Analytics.UpdateMetrics | routes/admin.js:163-172 | one sale always goes into "year", and into month, week and today only when its date is in them |
| Analytics.SaleTotalFallback | routes/admin.js:153-156 | a sale's analytics total is base + surcharge (NULL as 0) when that sum is not 0, and otherwise the legacy `total` or 0 |
| Analytics.DashboardAndAnalyticsDisagree | routes/admin.js:28-156 | a legacy row with base 0, surcharge 5.0 and total 100.0 counts 105.0 on the dashboard but 5.0 in analytics: the dashboard falls back on the base, analytics on the sum |
| Analytics.TodayPass | routes/admin.js:193-205 | the today pass tallies the items of the filtered sales, without revenue |
| Analytics.TallyItems | routes/admin.js:175-182 | the inner forEach adds each item to the tally in order |
| Analytics.AddItemCounts | routes/admin.js:176-181 | one item adds its quantity, and for the year tally its revenue, to its own product only |
| Analytics.AddItemsCounts | routes/admin.js:175-182 | a sale's items add their quantities and revenues per product |
| Analytics.TallyCounts | routes/admin.js:175-182 | a product's sold is Σ of its item quantities across all fetched sales; its year revenue is Σ quantity × (price_at_sale or 0) |
| Analytics.TallyDistinct | routes/admin.js:178-179 | a tally holds at most one entry per product id |
| Analytics.YearCountsEverySale | routes/admin.js:169 | every fetched sale counts as one order of the year |
| Analytics.BucketIsYearBucketOfPeriod | routes/admin.js:163-172 | a period's bucket equals the year bucket of the sales dated in that period |
| Analytics.PeriodOrders | routes/admin.js:163-172 | a period's order count is the number of fetched sales dated in it |
| Analytics.NestedPeriodFewerOrders | routes/admin.js:169-172 | a period contained in another (a month in the year) counts no more orders; the source's `isSameDay` is not contained in `isSameWeek` (at a week's first local midnight) and `isSameWeek` is not contained in `isSameMonth`, so neither pair qualifies |
| Analytics.TodayQuantities | routes/admin.js:193-203 | the quantities over the filtered sales equal the quantities over the sales dated today, read from the unfiltered list |
| Analytics.TodayTallyCountsOnlyToday | routes/admin.js:193-205 | the today tally counts a product's items from the sales dated today, and only those |
| Analytics.AsWrittenItemAddsNoRevenue | routes/admin.js:119-181 | an item fetched by the select as written adds no revenue |
| Analytics.AsWrittenItemsAddNoRevenue | routes/admin.js:119-181 | the items of a sale fetched by the select as written add no revenue to any product |
| Analytics.AsWrittenYearTallyHasNoRevenue | routes/admin.js:117-182 | when every sale's items are fetched by the select as written, the year tally records revenue 0.0 for every product |
| Analytics.AsWrittenYearRevenueExample | routes/admin.js:117-182 | two units sold at 10.0 appear with revenue 0.0 in the year tally |
| Analytics.FetchedItemAddsItsValue | routes/admin.js:181 | an item fetched with its price adds quantity × price_at_sale |
| Analytics.FetchedRevenueMatchesRows | routes/admin.js:175-182 | with the price selected, a sale's items add exactly the value of its stored rows per product |
| Analytics.YearTallyRevenueMatchesRows | routes/admin.js:117-182 | with `price_at_sale` selected, the year tally's revenue per product is Σ quantity × price_at_sale over the stored item rows of every sale |
| Analytics.YearRevenueExample | routes/admin.js:175-182 | with the price selected, two units at 10.0 appear with revenue 20.0 |
| Warehouse.Alerts | routes/warehouse.js:16-18 | exactly the fetched products with stock ≤ min_stock, in fetched order, as a sub-multiset; none when the read failed |
| Warehouse.AlertsIdempotent | routes/warehouse.js:16-18 | the alerts of the alerts are the alerts |
| Warehouse.AlertsAppend | routes/warehouse.js:16-18 | the alerts of two lists joined are the two lists' alerts joined |
| Warehouse.AllLowAllAlerts | routes/warehouse.js:16-18 | when every product is low, all are alerts, in order |
| Warehouse.Restocked | routes/warehouse.js:44-54 | a restock keeps every product id and every other product |
| Warehouse.RestockAddsQuantity | routes/warehouse.js:47-54 | a positive restock adds the quantity to that product's stock and changes nothing else |
| Warehouse.RestocksCombine | routes/warehouse.js:47-54 | two positive restocks equal one restock by their sum |
| Warehouse.Restock | routes/warehouse.js:40-68 | a quantity ≤ 0 or an unknown product leaves the store unchanged; otherwise the stock rises by the quantity; always redirects to the inventory |
| Warehouse.AddProduct | routes/warehouse.js:71-79 | adds a row under a fresh id with exactly the submitted name, sku, price, stock, category and min_stock |

## Left out

- I/O is not modelled: the HTTP layer, rendering, the hosted database client, logging and the session store. Each table is a field of `Store.Db`. A query's result is passed in already fetched, or `None` when the read failed.
- Every store write is assumed to succeed. The source logs and ignores, or catches, a failed write in several handlers, leaving the store unchanged: the product insert (routes/warehouse.js:77), the restock update (routes/warehouse.js:54, 63-65), the payment toggle update (routes/admin.js:92) and the admin seed insert (server.js:93-97). `Warehouse.AddProduct`, `Warehouse.Restock`, `Admin.TogglePaymentMethod` and `Server.SeedAdminIfEmpty` always write.
- The filter and order clauses of the queries run in the database, so the fetched rows arrive as parameters. These clauses are the date range of the dashboard query, `gt("stock", 0)` and `eq("active", true)` on the sale screen, and the orderings by name, stock or date. `Pos.SellableProducts` and `Pos.ActiveMethods` apply the two filters themselves, but not the ordering.
- Date arithmetic is not modelled: `isSameDay`, `isSameWeek` and `isSameMonth` are arbitrary predicates on the sale's timestamp, and the year is whatever the query fetched.
- Floating point is not modelled. Money is exact `real`, so rounding, `toFixed`, and NaN from `parseFloat` or `parseInt` are out of scope. `Warehouse.Restock` takes the quantity as an already parsed integer.
- Pos.Checkout: only the header insert's error is checked in the source. The model assumes every other write succeeds, and a failed header insert is not modelled. In particular, on the 500 path of a cart line whose product does not exist, the model keeps that line's `sale_items` row; the store's foreign key from `sale_items.product_id` to `products` would refuse that insert, and the source ignores the error. The text of the mismatch message, which formats the two numbers, is not modelled; the error carries both figures.
- Pos.RecordSale: the writes are made in one assignment at the end, not one at a time. The resulting state is the same, because the handler is sequential. Cross-request races on the read-then-write of stock are not modelled.
- Analytics.Analytics: a JavaScript object enumerates integer keys in ascending order, but the tallies are lists in first-insertion order. Only the order among entries with equal `sold` depends on this, and so, with more than ten entries, which of them are kept at the tenth place.
- Ranking.SortBySold: the insertion sort takes entries in order and is stable by construction, but stability is not stated or proved. Only sortedness and permutation are.
- The today tally has no revenue field in the source; its entries carry revenue 0.0 in the model.
- Admin.TogglePaymentMethod: for an unknown id, `method.active` throws; the model only records that nothing is written (`ok` is false). The request left unanswered is not modelled.
- The dashboard's product and user counts, the recent-sales list, and the other listings (sales history, inventory, labels, admin product, user and payment lists, ticket view) are plain reads and are not modelled.
- The admin routes that create or delete products, users and payment methods are not modelled. Neither is scripts/createAdmin.js, a one-shot seeding script.
- bcrypt hashing is not modelled: `Server.SeedAdminIfEmpty` takes the hash of the default password as a parameter.
- routes/warehouse.js is not mounted by server.js, where only the placeholder of `Server.WarehouseHome` answers. The warehouse handlers are modelled on their own terms.
- Login.PostLogin: a failed login leaves `req.session.user` as it was, because the handler never clears it (routes/auth.js:25-30, 39-44). It is unset after a failure only when it had no user.

## Findings

| source | as written | input that shows it | evidently intended | confidence | as-written member | corrected member |
|---|---|---|---|---|---|---|
| routes/admin.js:119 | the analytics query selects `sale_items(quantity, product_id, products(name))`, without `price_at_sale`, so `i.price_at_sale` at line 181 is always missing and every topYear revenue is 0 | one sale with one item row of 2 units at price 10.0 | the product's revenue is Σ quantity × price_at_sale, here 20.0 | high, not executed | Analytics.AsWrittenYearTallyHasNoRevenue | Analytics.YearTallyRevenueMatchesRows |
