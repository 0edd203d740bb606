# Sales and inventory manager: a Dafny model

This project models the core of a small shop's sales and inventory system in
Dafny. The system has three parts.

- **The serverless JSON API.** It is backed by PostgreSQL and has four handlers:
  - `api/auth.js`: token login, token check, and the `verifyToken` gate the other handlers use;
  - `api/products.js`: list, search, create, update and delete products;
  - `api/product-detail.js`: one product with its sales statistics and a stock alert;
  - `api/sales.js`: record a sale inside a transaction, and build the filtered sales listing.
- **The Flask application.**
  - `auth.py`: registration and login.
  - `routes.py`: manual stock adjustment, new sales, cancelling and completing a sale, and the inventory export. Every stock change is written to an inventory log, and real-time events are emitted.
- **The browser script** `static/js/main.js`. It keeps the cart of the new-sale form and exports an HTML table as comma-separated values.

Each source file is modelled by one module:

| module | file | what it holds |
|---|---|---|
| `Text`, `Http` | shared | decimal rendering, ASCII case folding and substring search; `Option`, methods, replies, JavaScript truthiness |
| `ApiStore` | shared | the `products` and `sales` tables, held by the `Store` class, and the `users` row type; the users rows are passed to the login as a sequence |
| `ApiAuth` | api/auth.js | token login and the gate |
| `ApiProducts` | api/products.js | the products handler |
| `ProductDetail` | api/product-detail.js | the product-detail handler |
| `ApiSales` | api/sales.js | the sales handler |
| `Registry` | auth.py | registration and login |
| `Inventory` | routes.py | the stock ledger, held by the `Shop` class |
| `SaleCart` | static/js/main.js | the cart, held by the `Cart` class |
| `CsvExport` | static/js/main.js | the table export |

Code that updates state in place is modelled with classes and methods:
- the database tables and the inventory ledger;
- the cart;
- the loops of `new_sale`, `cancel_sale`, `updateSaleTotal` and `exportToExcel`.

Pure computations are modelled as functions. These are the stock classifier, the product detail, the token check and the login decisions.

Conventions in the model:
- Money is held in whole cents.
- Row ids and `created_at` come from counters that only grow. So "newest first" means reverse insertion order.
- A request field that was left out is `None`, and JavaScript truthiness is written out: `0` and `""` are falsy.
- The libraries the code calls are parameters of the model:
  - JWT signing and verification;
  - bcrypt's and werkzeug's password hashing and checking;
  - storage failures.

The proved properties include:
- **Stock ledger.** Each product's stock equals its opening stock plus the changes logged for it. Every stock operation in `routes.py` keeps this true.
- **Cancellation.** Cancelling a sale puts back exactly what the sale took.
- **Sales transaction.** A recorded sale moves units from stock to sold: stock plus units sold stays the same for every product. A failed transaction leaves both tables as they were.
- **Sales listing.** The query's placeholders and its bound values line up.
- **Cart.** The cart keeps one line per product, each line priced correctly, and its total is kept up to date.
- **CSV export.** Reading the exported file back with a reader of double-quoted fields and LF between records (the quoting rules of section 2 of RFC 4180, with LF in place of CRLF) gives the cleaned cells, row by row.

## Model

| member | source | states |
|---|---|---|
| Text.NatToStringRoundTrip | api/sales.js:62 | the placeholder number written after `$` reads back as the same number |
| Text.NatToStringInjective | api/sales.js:61-83 | different placeholder counters give different placeholder texts |
| Text.Contains | api/products.js:36-38 | substring search holds exactly when the needle occurs at some offset (the meaning of `%search%` with ILIKE) |
| ApiStore.FindProduct | api/sales.js:118-127 | `WHERE id = $1` finds the first row with that id, or says that no row has it |
| ApiStore.Lookup | api/sales.js:118-127 | `SELECT * FROM products WHERE id = $1`, first row: the row at the index `FindProduct` gives, or none |
| ApiStore.LookupAppend | api/products.js:66-69 | after an INSERT with a fresh id, that id finds the new row and every other id finds what it found before |
| ApiStore.LookupReplace | api/products.js:92-95 | an UPDATE of one row by id keeps ids unique, and changes what that id finds and nothing else |
| ApiStore.RemoveAt | api/products.js:122-125 | deleting a row keeps all the other rows, in order |
| ApiStore.RemoveAtKeepsOrder | api/products.js:122-125 | deleting a row keeps the table in insertion order |
| ApiStore.LookupRemove | api/products.js:122-131 | after a DELETE by id, that id finds nothing and every other id finds what it found before |
| ApiStore.Reversed | api/products.js:41 | `ORDER BY created_at DESC` lists the stored rows back to front, all of them |
| ApiStore.ReversedNewestFirst | api/products.js:41 | rows stored in insertion order come out strictly newest first |
| ApiStore.QuantitySoldAppend | api/product-detail.js:47-50 | a new sale adds its quantity to its own product's `SUM(quantity)` and to no other product's |
| ApiStore.RevenueAppend | api/product-detail.js:47-50 | a new sale adds its total to its own product's `SUM(total)` and to no other product's |
| ApiStore.QuantitySold | api/product-detail.js:47-50 | `COALESCE(SUM(quantity), 0)` over the sales of one product |
| ApiStore.Revenue | api/product-detail.js:47-50 | `COALESCE(SUM(total), 0)` over the sales of one product |
| ApiStore.OrderedUnique | api/sales.js:118-121 | the SERIAL key makes product ids unique, so a lookup by id finds at most one row |
| ApiAuth.BearerToken | api/auth.js:111-117 | a token is present exactly when the header starts with "Bearer ", and the header is that prefix followed by the token |
| ApiAuth.BearerPrefixIsExact | api/auth.js:112 | the prefix is case- and space-sensitive: "bearer x" and "Bearer" are refused, and "Bearer  x" gives the token " x" |
| ApiAuth.Authorize | api/auth.js:111-118 | the gate refuses a malformed header; it passes exactly when the header carries a token that verifies, and yields that token's claim |
| ApiAuth.Dispatch | api/products.js:16-25 | OPTIONS is answered before anything else; then the gate; then a supported method is handled and any other gets 405 |
| ApiAuth.DeniedBeforeAnyMethod | api/sales.js:31-37 | a refused gate gives 401 whatever the method, whether or not the handler supports it |
| ApiAuth.FindUser | api/auth.js:48-59 | the user row with that username, or none when no row has it |
| ApiAuth.Login | api/auth.js:38-85 | 400 without a username or password; 500 when the lookup fails; the same 401 for an unknown user and for a wrong password; on success, a token signed over that user's id and username |
| ApiAuth.CheckToken | api/auth.js:88-105 | 200 with the decoded claim exactly when the gate passes; otherwise 401, with one message for a malformed header and another for a token that does not verify |
| ApiAuth.HandleAuth | api/auth.js:35-107 | OPTIONS is 200 and anything but POST or GET is 405; POST answers exactly as the login does (status, session or error message), GET exactly as the token check does (status, claim or error message) |
| ApiProducts.ZeroPriceRefusedZeroStockAccepted | api/products.js:60-64 | a price of 0 counts as missing, but a stock of 0 is accepted |
| ApiProducts.NameMatches | api/products.js:36-39 | the search keeps exactly the rows whose name contains the keyword, ignoring case |
| ApiProducts.NameMatchesOrdered | api/products.js:36-41 | filtering keeps the table's insertion order |
| ApiProducts.Matching | api/products.js:32-39 | an absent or empty search keeps every row; otherwise exactly the matching rows |
| ApiProducts.ListProducts | api/products.js:28-48 | the listing holds exactly the products that match the search (all of them without one) |
| ApiProducts.ListProductsNewestFirst | api/products.js:41 | the listing is strictly newest first |
| ApiProducts.CreateProduct | api/products.js:56-79 | 400 for an incomplete body, changing nothing; otherwise the new row takes the next id and the current time, it is found under its id, the product id sequence and the clock advance by one, and nothing else changes |
| ApiProducts.UpdateProduct | api/products.js:82-111 | 400 for an incomplete body and 404 for an unknown id, both changing nothing; otherwise exactly that row gets the new name, price and stock |
| ApiProducts.DeleteProduct | api/products.js:114-141 | 400 without an id and 404 for an unknown one; otherwise exactly that row is gone and the others keep their order |
| ApiProducts.HandleProducts | api/products.js:16-143 | preflight, 401, 405 and the GET listing change nothing; POST, PUT and DELETE give the create, update and delete outcomes: each refusal with its status and message and the table unchanged, each success with its reply and the new table; the sales table is never touched |
| ApiSales.SaleKeepsLedger | api/sales.js:142-150 | inserting the sale and taking its quantity off the stock keeps stock plus units sold the same for every product |
| ApiSales.InsertSale | api/sales.js:142-145 | the sale row takes the next id and the current time, with total = price × quantity |
| ApiSales.TakeStock | api/sales.js:147-150 | the product's stock drops by the quantity; no other row changes |
| ApiSales.InsertAndTake | api/sales.js:142-150 | the statements inside the transaction: the sale row is appended, and the product's stock drops by the quantity unless the UPDATE is the call that fails |
| ApiSales.Rollback | api/sales.js:166-169 | both tables return to their state at BEGIN, and the sequences keep the values they reached |
| ApiSales.RecordSale | api/sales.js:139-169 | the transaction commits exactly when no call fails; a failure at any step leaves both tables as they were; the ledger is kept either way |
| ApiSales.CreateSale | api/sales.js:108-174 | 400, 404 and 400-with-stock are checked in that order; success appends the sale and lowers the stock by the quantity, and the remaining stock is never negative; every failure leaves the tables unchanged |
| ApiSales.SaleLookups | api/sales.js:147-150 | after a sale, the sold product's stock has dropped by the quantity and every other product is unchanged |
| ApiSales.ActiveFiltersShape | api/sales.js:61-83 | one filter per non-empty query parameter, each at its own index: the product filter first, then the lower date bound, then the upper one (which gets " 23:59:59"), then the name search, wrapped in `%` |
| ApiSales.ActiveFilters | api/sales.js:61-83 | the filters in force: an absent or empty parameter adds none, the others add theirs in the order of the source's `if`s |
| ApiSales.Values | api/sales.js:58-83 | one bound value per filter, in the same order |
| ApiSales.ConditionsAppend | api/sales.js:61-83 | the conditions of two runs of filters are those of the first run followed by those of the second, numbered on from where the first stopped |
| ApiSales.ConditionsSnoc | api/sales.js:79-82 | adding a filter appends its clause, numbered after every clause before it |
| ApiSales.PlaceholderAt | api/sales.js:61-83 | the k-th condition is bound to placeholder $(k+1), so clauses and parameters line up |
| ApiSales.AddFilter | api/sales.js:61-65 | one step (append a clause, push a value, increment the counter) keeps text, values and counter in step with the filters taken so far |
| ApiSales.AddIfGiven | api/sales.js:61-83 | a query parameter that is non-empty adds its filter to the statement; an absent or empty one leaves text, values and counter as they were |
| ApiSales.BuildSalesQuery | api/sales.js:42-85 | the statement is the base SELECT, then one numbered condition per active filter, then `ORDER BY s.created_at DESC`; the parameters are the filters' values |
| ApiSales.HandleSales | api/sales.js:31-176 | preflight, 401, 405 and GET change nothing; POST gives the 400, 500, 404 and stock-400 answers of the sale with both tables unchanged, and on success the 201 receipt with the sale appended and the product's stock lowered; the ledger is kept |
| ApiSales.WidgetScenario | api/sales.js:108-165 | a product created through `ApiProducts.CreateProduct` at a price of 10.00 with 5 in stock: selling 3 gives a total of 30.00 and leaves 2, and a second sale of 3 is refused with the remaining count |
| ProductDetail.Classify | api/product-detail.js:58-67 | OUT_OF_STOCK exactly at stock 0, LOW_STOCK exactly for a non-zero stock below 10, OK exactly from 10 up |
| ProductDetail.Alert | api/product-detail.js:58-67 | the alert is null exactly when the status is OK, and each other status has its own message |
| ProductDetail.ClassifyBoundaries | api/product-detail.js:61-64 | stock 0, 9 and 10 give OUT_OF_STOCK, LOW_STOCK and OK; a negative stock is LOW_STOCK |
| ProductDetail.ForProduct | api/product-detail.js:53-56 | exactly the sales of that product |
| ProductDetail.ForProductOrdered | api/product-detail.js:53-56 | selecting one product's sales keeps insertion order |
| ProductDetail.RecentSales | api/product-detail.js:53-56 | at most ten of the product's sales, the latest first |
| ProductDetail.RecentSalesNewestFirst | api/product-detail.js:53-56 | the recent sales are strictly newest first |
| ProductDetail.RecentSalesKeepNewest | api/product-detail.js:53-56 | every sale that LIMIT 10 leaves out is older than every sale it keeps |
| ProductDetail.LastOnesAreNewest | api/product-detail.js:53-56 | in a list ordered by creation time, the sales taken newest first from its end are each newer than any sale not taken |
| ProductDetail.NoSalesNoStatistics | api/product-detail.js:47-50 | COALESCE gives 0 sold and 0 revenue for a product without sales |
| ProductDetail.GetProductDetail | api/product-detail.js:24-92 | 400 without an id and 404 for an unknown one; otherwise the product, its totals over all its sales, its stock label and its recent sales |
| ProductDetail.HandleProductDetail | api/product-detail.js:13-99 | OPTIONS answers 200 before the token is read; a missing or rejected bearer token answers 401; any method but GET answers 405; a GET answers with the status, the detail or the error message of `GetProductDetail` |
| Registry.ByUsername | auth.py:18 | the account with that username, or none; a field that was not sent matches no account |
| Registry.ByEmail | auth.py:50 | the account with that email, or none; a field that was not sent matches no account |
| Registry.Login | auth.py:9-28 | a logged-in visitor goes to the dashboard; a session is opened exactly when the user exists, the password checks and the account is active; it then goes to `next` or the dashboard; every failure gets the same message |
| Registry.InactiveNeverLogsIn | auth.py:20 | a deactivated account never logs in, whatever its password |
| Registry.EmptyNextGoesToDashboard | auth.py:23-24 | an empty `next` leads to the dashboard |
| Registry.UserRegistry.Register | auth.py:30-68 | the mismatch, the taken username and the taken email are refused in that order, each changing nothing; an account is added exactly when all three checks pass and the fields were sent; the new account is active and has the staff role and the hashed password |
| Registry.RegisteredCanLogIn | auth.py:55-66 | an account just registered with a new username can log in with its password |
| Registry.ByUsernameAppend | auth.py:46-48 | once the account is added, a username that was free finds that account |
| Inventory.LoggedChangeConcat | routes.py:374-383 | the logged change over two runs of entries is the sum of the two |
| Inventory.RecordChange | routes.py:371-383 | setting one product's stock and logging that change keeps every product's stock equal to its opening stock plus its logged changes |
| Inventory.Adjusted | routes.py:359-368 | increase and return add; decrease subtracts and is refused exactly when it exceeds the stock, so it never goes below zero; any other type overwrites |
| Inventory.DecreaseThenIncrease | routes.py:361-366 | an accepted decrease is undone by an increase of the same size |
| Inventory.AdjustmentIdempotent | routes.py:367-368 | repeating an overwrite changes nothing |
| Inventory.StockShift | routes.py:305-308 | moving a sale's lines keeps the set of products |
| Inventory.StockShiftEffect | routes.py:305-308 | moving a sale's lines changes each product's stock by the units of that product on the sale, and nothing else about it |
| Inventory.CancelUndoesSale | routes.py:198-200 | putting a sale's lines back restores every product exactly as before the sale |
| Inventory.ShiftLogs | routes.py:310-321 | at most one log entry per line, each consistent (change = new − previous) and carrying the change type and reason |
| Inventory.ShiftLogsExplainStock | routes.py:305-321 | the entries written while moving the lines add up to each product's change of stock |
| Inventory.ShiftKeepsLedger | routes.py:184-215 | moving the lines and writing their log keeps the log explaining the stock, with every entry consistent |
| Inventory.Step | routes.py:335-346 | only a cancellation that is not refused puts stock back, and a cancelled sale stays cancelled |
| Inventory.StepAsWritten | routes.py:296-346 | as written, only a cancellation that is not refused puts stock back, and completing moves any sale, a cancelled one included, to completed |
| Inventory.RestocksAsWritten | routes.py:296-346 | how many times a run of cancel and complete requests, as written, puts a sale's stock back |
| Inventory.Restocks | routes.py:296-346 | the same count under the corrected completion |
| Inventory.CancelCompleteCancelRestocksTwice | routes.py:340-343 | as written, cancel, complete, cancel puts the stock back twice |
| Inventory.CancelledStaysCancelled | routes.py:301-302 | with the corrected completion, no run of requests puts back the stock of a cancelled sale |
| Inventory.RestockedAtMostOnce | routes.py:296-346 | with the corrected completion, no run of requests puts a sale's stock back more than once |
| Inventory.Line | routes.py:189-195 | a stored line keeps product, quantity and unit price, and its total is quantity × unit price |
| Inventory.LinesPriced | routes.py:184-195 | line k of the stored sale is submitted line k, and every line is priced |
| Inventory.StockLabel | routes.py:483-484 | "Hết hàng" exactly at 0, "Sắp hết" exactly for a non-zero stock at or below the minimum, "Đủ hàng" otherwise |
| Inventory.StockLabelBoundaries | routes.py:483-484 | zero stock is out of stock even below a negative minimum; a stock equal to the minimum is running low |
| Inventory.Row | routes.py:476-486 | a row copies the product's columns, adds its label, and gives its value as stock × price |
| Inventory.Rows | routes.py:476-487 | the list comprehension: one row per product, in the order the query lists them |
| Inventory.RowsInOrder | routes.py:476-486 | row k of the export is the row of product k |
| Inventory.TotalValueIsSumOfRows | routes.py:485-492 | the reported total value is the sum of the rows' value column |
| Inventory.TotalValue | routes.py:492 | `sum(p.stock_quantity * p.price for p in products)` |
| Inventory.TotalValueBoundsEachProduct | routes.py:492 | when no stock or price is negative, the total is at least the value of each product |
| Inventory.TotalValueNonNegative | routes.py:492 | when no stock or price is negative, the total is not negative |
| Inventory.ExportInventory | routes.py:470-493 | one row per product, in the order given; `total_products` is the count; `total_value` is the sum of the rows |
| Inventory.Listed | routes.py:473 | the shop's products in the order the query lists them |
| Inventory.ListingCount | routes.py:473 | a listing that names each product of the shop once is as long as the shop has products |
| Inventory.ExportCountsCatalogue | routes.py:470-493 | `total_products` is the number of products in the shop |
| Inventory.ExportCoversCatalogue | routes.py:470-493 | the export has one row per listed product, and every product of the shop has its row at its place in the listing |
| Inventory.Shop.Export | routes.py:470-493 | the export over the shop's own table: every product of the shop has its row, `total_products` is the number of products, `total_value` the sum of the rows |
| Inventory.Shop.AdjustInventory | routes.py:348-412 | 404 and 400 change nothing; otherwise the stock is set, one consistent entry is logged, an update event is emitted, and a low-stock event exactly when the new stock is at or below the minimum; the ledger is kept |
| Inventory.Shop.SetStock | routes.py:370-406 | the product's stock becomes the new quantity and nothing else of it changes; one log entry records the change with the old and new quantity; an update event follows, and a low-stock event exactly when the new quantity is at or below the minimum |
| Inventory.Shop.CancelSale | routes.py:296-333 | 404 and an already-cancelled sale change nothing; otherwise each line puts back its quantity and is logged as a return, the sale becomes cancelled, one event is emitted, and the ledger is kept |
| Inventory.Shop.CompleteSale | routes.py:335-346 | only a pending sale becomes completed; a completed or cancelled sale is refused and nothing changes |
| Inventory.Shop.CompleteSaleAsWritten | routes.py:335-346 | as written, only an already-completed sale is refused, so a cancelled sale becomes completed |
| Inventory.Shop.NewSale | routes.py:160-219 | the sale takes the next id, its lines are the submitted lines priced, each line takes its quantity off its product's stock and is logged as stock out, and the ledger is kept |
| Inventory.Shop.MoveLine | routes.py:198-213 | one pass of the line loop extends the moved stock and the written log by exactly that line |
| Inventory.Shop.RestoreLines | routes.py:305-321 | the cancellation loop leaves the stock moved back by all lines and the log extended by their entries |
| Inventory.Shop.RecordLines | routes.py:184-215 | the new-sale loop stores every line, takes its stock and logs it |
| SaleCart.IndexOf | static/js/main.js:73-75 | `find` gives the first line of the product, or none when the cart has no line for it |
| SaleCart.LinesTotal | static/js/main.js:179-182 | the `reduce` summing the line totals |
| SaleCart.Without | static/js/main.js:168-170 | the `filter` keeping the lines of other products, never longer than the cart |
| SaleCart.LinesTotalConcat | static/js/main.js:179-182 | the sum of line totals over two runs of lines is the sum of the two |
| SaleCart.LinesTotalAround | static/js/main.js:179-182 | the sum of line totals is the sum before a line, plus that line, plus the sum after it |
| SaleCart.LinesTotalReplace | static/js/main.js:79-81 | changing one line changes the sum by the difference of its totals |
| SaleCart.WithoutAbsent | static/js/main.js:168-170 | removing a product with no line leaves the cart as it was |
| SaleCart.WithoutDropsTheLine | static/js/main.js:168-170 | in a cart with one line per product, `filter` drops exactly that product's line and keeps the rest in order |
| SaleCart.LinesTotalRemove | static/js/main.js:167-176 | dropping a line lowers the sum by that line's total |
| SaleCart.DropKeepsCart | static/js/main.js:167-176 | dropping a line keeps one line per product, each priced |
| SaleCart.Cart.UpdateSaleTotal | static/js/main.js:178-199 | the written total is the sum of the line totals, minus the discount, plus the tax; the hidden field copies the lines |
| SaleCart.Cart.AddSaleItem | static/js/main.js:71-97 | a product already in the cart gets one more unit and its sum grows by the unit price; a new product gets a last line of one unit; the cart keeps one line per product, each priced |
| SaleCart.ReplaceKeepsCart | static/js/main.js:76-80 | repricing a line of the same product keeps one line per product, each priced |
| SaleCart.AppendKeepsCart | static/js/main.js:82-92 | a priced line for a product not yet in the cart can be added last, keeping one line per product |
| SaleCart.Cart.UpdateItemQuantity | static/js/main.js:142-152 | a quantity that reads as 0 or NaN becomes 1, the line is repriced, and the total recomputed; an unknown product changes nothing |
| SaleCart.Cart.UpdateItemPrice | static/js/main.js:154-165 | a price that reads as NaN becomes 0, the line is repriced, and the total recomputed; an unknown product changes nothing |
| SaleCart.Cart.RemoveSaleItem | static/js/main.js:167-176 | exactly the product's line goes, the others keep their order, and the sum drops by that line's total |
| SaleCart.Cart.EditAdjustments | static/js/main.js:201-211 | editing the discount or the tax recomputes the total over the same lines |
| CsvExport.StripLineBreaks | static/js/main.js:252 | no CR or LF is left, every other character is kept, and text without line breaks is unchanged |
| CsvExport.SqueezeSpaces | static/js/main.js:253 | never lengthens the text and introduces nothing but spaces |
| CsvExport.SqueezeKeepsSingleSpaces | static/js/main.js:253 | text without two whitespace characters in a row is unchanged |
| CsvExport.SqueezeHalvesRuns | static/js/main.js:253 | a run of whitespace is halved, not collapsed: three or four spaces become two |
| CsvExport.DoubleQuotes | static/js/main.js:254 | doubling quotes never shortens the text and keeps the same characters |
| CsvExport.Clean | static/js/main.js:251-253 | a cleaned cell has no line break |
| CsvExport.Cell | static/js/main.js:251-257 | a written cell is quoted at both ends and has no line break |
| CsvExport.Cells | static/js/main.js:249-259 | the written row holds one written cell per column, in order |
| CsvExport.Lines | static/js/main.js:245-262 | one written line per table row, in order |
| CsvExport.Join | static/js/main.js:261-265 | `Array.prototype.join`: the parts with the separator between consecutive ones |
| CsvExport.Document | static/js/main.js:261-265 | the file: the written lines joined with a line feed |
| CsvExport.ExportToExcel | static/js/main.js:238-265 | no table gives no file; otherwise the nested loops produce exactly the document of the table |
| CsvExport.QuoteCells | static/js/main.js:249-259 | the inner loop turns the cells of one row into exactly their cleaned, quoted texts, in order |
| CsvExport.ReadQuoted | static/js/main.js:257 | reading a quoted field always consumes input |
| CsvExport.QuotedRoundTrip | static/js/main.js:254-257 | a text with its quotes doubled, then the closing quote, reads back as the text |
| CsvExport.CellRoundTrip | static/js/main.js:251-257 | a written cell reads back as the cleaned text |
| CsvExport.LastFieldRoundTrip | static/js/main.js:261 | the last cell of a line reads back as a one-field record |
| CsvExport.FieldThenMore | static/js/main.js:261 | a cell, a comma and further fields read back as the cleaned cell before those fields |
| CsvExport.FieldsRoundTrip | static/js/main.js:261 | a written line of a non-empty row reads back as its cleaned cells |
| CsvExport.RecordRoundTrip | static/js/main.js:261 | every written line, empty rows included, reads back as its row's cleaned cells |
| CsvExport.DocumentRoundTrip | static/js/main.js:245-265 | the whole file of a non-empty table reads back, with double-quoted fields as in section 2 of RFC 4180 and LF in place of CRLF between records, as the table's cleaned cells, row by row |
| CsvExport.LineHasNoLineBreak | static/js/main.js:252-261 | a written line contains no line break, so lines separate records |

## Left out

- Concurrency:
  - `api/sales.js` checks the stock before BEGIN and runs each statement through a connection pool, so BEGIN, the INSERT, the UPDATE and COMMIT may run on different connections.
  - The model runs every request alone and treats the four statements as one transaction, which is what they are evidently meant to be.
  - Concurrent Flask requests are not modelled either.
- ApiSales.CreateSale: does not model a failing ROLLBACK, which would also answer 500.
- Storage failures are boolean or `Fault` parameters. The exception paths that give 500 are modelled only where a parameter says a call fails.
- Libraries are parameters:
  - JWT signing, verification and expiry;
  - bcrypt comparison;
  - werkzeug hashing and checking.
- Arithmetic:
  - Floating point, `parseFloat`, `parseInt`, `Number` and `toFixed` are left out.
  - Prices and totals are whole cents, and a value read from a form arrives already parsed, with None standing for NaN.
  - `float(...)` on the Flask side is left out as well.
  - The `Intl.NumberFormat` display strings are not modelled.
- Case folding in ILIKE and in the product search covers ASCII letters only. The LIKE wildcards `%` and `_` typed inside a search keyword are taken literally.
- `ApiSales.BuildSalesQuery` models the SQL text with its whitespace normalised to single spaces. It models the statement and its parameters; the rows the database returns for it and the `parseFloat` mapping of those rows are not modelled.
- The clock and randomness:
  - `datetime.now()` and the random digits of the sale code are not modelled: the sale code is a parameter of `Shop.NewSale`.
  - `created_at` is a logical clock that advances once per insert.
- A rolled-back INSERT still advances the sales id sequence and the clock. The model keeps this, as PostgreSQL does.
- ApiProducts.CreateProduct: its `fails` flag stands for a storage failure before the INSERT reaches the product id sequence, so a failed create leaves the sequence and the clock as they were. A failure after the sequence has advanced is not modelled on the products path.
- ApiProducts.CreateProduct, ApiProducts.UpdateProduct: both take `stock` as an `Option`. The source's check `stock === undefined` (api/products.js:60 and :86) lets a JSON `"stock": null` through to the SQL. The model cannot tell null from absent, so a null stock is refused as missing.
- `export_inventory` orders the products by name in the database. `Inventory.Shop.Export` takes that order as a listing that names each product once, without modelling the ordering by name; the export file name is left out.
- Inventory.Shop.AdjustInventory: takes the request's fields already read. Flask refusing a body that is not JSON (`request.json`, routes.py:351) is left out, and so are the defaults of `quantity` (0) and `reason` (empty) for a missing field (routes.py:354-355): the quantity and reason arrive as given or as those defaults.
- Inventory.Shop.NewSale: does not parse the submitted `items` JSON. A line whose `product_id` or `quantity` is missing or not a number (a `KeyError` or `ValueError`) is left out; the lines arrive parsed.
- The socket notifications are appended to a sequence of events. Delivering them is left out.
- The `json` and `socketio` module imports that `routes.py` relies on are assumed present.
- The `stock` argument of `addSaleItem` is unused by the source and is not modelled.
- Browser display is not modelled:
  - building and updating table rows;
  - the `Intl` display;
  - the Blob download in `exportToExcel`;
  - reading `innerText`, whose cell texts arrive as strings.
- The initial hidden total of the cart is 0 until the first recompute.
- Registry.UserRegistry.Register: a form without a username, email or password passes the checks and then fails while the account is created. That failure is modelled as a `ServerFault` page that adds nothing, not as the exception and the database rollback.
- Flask-Login itself is left out: the session cookie, the `remember` duration and `login_required`. The read-only pages of `routes.py` are not part of this model.
- `server.js` and `lib/db.js` are not part of this model.

## Findings

| source | as written | input that shows it | evidently intended | confidence | as-written member | corrected member |
|---|---|---|---|---|---|---|
| routes.py:340-343 | `complete_sale` refuses only a sale that is already completed, so a cancelled sale can be marked completed, and `cancel_sale` then accepts it again | a completed sale: cancel (stock put back), complete (accepted), cancel (stock put back a second time) | a cancelled sale cannot be completed, so its stock is put back at most once | not executed | Inventory.CancelCompleteCancelRestocksTwice | Inventory.RestockedAtMostOnce |

With the corrected guard, `Inventory.Shop.CompleteSale` completes only a pending sale. No route in `routes.py` creates one: `new_sale` stores every sale as completed, and completed is the column's default (models.py:70). So in this application the corrected route refuses every sale that exists. It keeps the pending status that the schema names in its comment, and the point of the correction is only that a cancelled sale stays cancelled.
